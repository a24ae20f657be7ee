/** `app/services/nuvrag_mem/extraction.py`: writing down what a visitor said, without writing
    the same thing twice. The duplicate check is read-then-write, so what it promises over many
    runs rests on the lock around it. */
module Extraction {
  import opened Text
  import opened HeldLocks

  const LOCK_TTL_SECONDS: real := 120.0

  type Vector = seq<real>

  datatype Candidate = Candidate(content: string, vector: Vector)

  /** A row of `memory_entry` about the one subject in question. */
  datatype Note = Note(content: string, vector: Vector, width: nat, conversation: Option<nat>,
                       lastReferenced: real)

  type Notes = map<nat, Note>

  /** What the settings and the embedding model fix for the life of the deployment. */
  datatype Config = Config(dedupe: real, ceiling: nat, similarity: (Vector, Vector) -> real) {
    ghost predicate Valid() {
      ceiling >= 1 && forall a, b :: similarity(a, b) == similarity(b, a)
    }
  }

  /** `nearest` compares only vectors of one width. */
  predicate Near(config: Config, notes: Notes, width: nat, vector: Vector, id: nat) {
    id in notes && notes[id].width == width && config.similarity(notes[id].vector, vector) >= config.dedupe
  }

  predicate Known(config: Config, notes: Notes, width: nat, vector: Vector) {
    exists id | id in notes :: Near(config, notes, width, vector, id)
  }

  /** No two notes of one width restate each other. */
  ghost predicate Distinct(config: Config, notes: Notes) {
    forall a, b :: a in notes && b in notes && a != b && notes[a].width == notes[b].width ==>
      config.similarity(notes[a].vector, notes[b].vector) < config.dedupe
  }

  lemma AddingUnknown(config: Config, notes: Notes, id: nat, note: Note)
    requires config.Valid() && Distinct(config, notes) && id !in notes
    requires !Known(config, notes, note.width, note.vector)
    ensures Distinct(config, notes[id := note])
  {
    forall a | a in notes && notes[a].width == note.width
      ensures config.similarity(notes[a].vector, note.vector) < config.dedupe
    {
      assert !Near(config, notes, note.width, note.vector, a);
    }
  }

  // ---------------------------------------------------------------------------------------
  // `_store`, on its own

  datatype Report = Report(proposed: nat, written: nat, duplicates: nat, atCapacity: bool)

  /** What became of one candidate. */
  ghost predicate Covered(config: Config, notes: Notes, width: nat, c: Candidate) {
    exists id :: id in notes && notes[id].width == width &&
      ((notes[id].content == c.content && notes[id].vector == c.vector)
       || config.similarity(notes[id].vector, c.vector) >= config.dedupe)
  }

  /** `notes` with some rows' `last_referenced_at` moved to `now`, and nothing else changed. */
  ghost predicate Touched(before: Notes, after: Notes, now: real) {
    && before.Keys <= after.Keys
    && forall id :: id in before ==>
         after[id] == before[id] || after[id] == before[id].(lastReferenced := now)
  }

  /** The notes a loop over `todo` leaves, `last_referenced_at` of known ones aside. */
  function Written(config: Config, notes: Notes, nextId: nat, held: nat, todo: seq<Candidate>, width: nat,
                   conversation: nat, now: real): Notes
    decreases |todo|
  {
    if todo == [] || held >= config.ceiling then notes
    else if Known(config, notes, width, todo[0].vector) then
      Written(config, notes, nextId, held, todo[1..], width, conversation, now)
    else
      var note := Note(todo[0].content, todo[0].vector, width, Some(conversation), now);
      Written(config, notes[nextId := note], nextId + 1, held + 1, todo[1..], width, conversation, now)
  }

  /** Everything about the notes except when they were last referenced. */
  function Unstamped(notes: Notes): Notes {
    map id | id in notes :: notes[id].(lastReferenced := 0.0)
  }

  lemma KnownUnstamped(config: Config, a: Notes, b: Notes, width: nat, vector: Vector)
    requires Unstamped(a) == Unstamped(b)
    ensures Known(config, a, width, vector) == Known(config, b, width, vector)
  {
    assert a.Keys == Unstamped(a).Keys == Unstamped(b).Keys == b.Keys;
    forall id | id in a
      ensures a[id].(lastReferenced := 0.0) == b[id].(lastReferenced := 0.0)
      ensures Near(config, a, width, vector, id) == Near(config, b, width, vector, id)
    {
      assert Unstamped(a)[id] == Unstamped(b)[id];
    }
    hide Near, Unstamped;
    if Known(config, a, width, vector) {
      var id :| id in a && Near(config, a, width, vector, id);
      assert id in b && Near(config, b, width, vector, id);
    }
    if Known(config, b, width, vector) {
      var id :| id in b && Near(config, b, width, vector, id);
      assert id in a && Near(config, a, width, vector, id);
    }
  }

  lemma AddUnstamped(a: Notes, b: Notes, id: nat, note: Note)
    requires Unstamped(a) == Unstamped(b)
    ensures Unstamped(a[id := note]) == Unstamped(b[id := note])
  {
    assert a.Keys == Unstamped(a).Keys == Unstamped(b).Keys == b.Keys;
    forall i | i in a
      ensures a[i].(lastReferenced := 0.0) == b[i].(lastReferenced := 0.0)
    {
      assert Unstamped(a)[i] == Unstamped(b)[i];
    }
  }

  /** What is written does not depend on the stamps. */
  lemma {:induction false} WrittenUnstamped(config: Config, a: Notes, b: Notes, nextId: nat, held: nat,
                                            todo: seq<Candidate>, width: nat, conversation: nat, now: real)
    requires Unstamped(a) == Unstamped(b)
    ensures Unstamped(Written(config, a, nextId, held, todo, width, conversation, now))
         == Unstamped(Written(config, b, nextId, held, todo, width, conversation, now))
    decreases |todo|
  {
    hide Known, Unstamped;
    if todo != [] && held < config.ceiling {
      KnownUnstamped(config, a, b, width, todo[0].vector);
      var note := Note(todo[0].content, todo[0].vector, width, Some(conversation), now);
      AddUnstamped(a, b, nextId, note);
      WrittenUnstamped(config, a, b, nextId, held, todo[1..], width, conversation, now);
      WrittenUnstamped(config, a[nextId := note], b[nextId := note], nextId + 1, held + 1, todo[1..], width,
                       conversation, now);
    }
  }

  datatype Batch = Batch(candidates: seq<Candidate>, width: nat, conversation: nat, now: real)

  function AllWritten(config: Config, notes: Notes, nextId: nat, b: Batch, i: nat): Notes
    requires i <= |b.candidates|
  {
    Written(config, notes, nextId, |notes|, b.candidates[i..], b.width, b.conversation, b.now)
  }

  /** The loop in `_store` has handled `i` candidates, starting from `was`. */
  ghost predicate StoredSoFar(config: Config, was: Notes, wasId: nat, b: Batch, i: nat, notes: Notes, nextId: nat) {
    && i <= |b.candidates| && Touched(was, notes, b.now)
    && (Distinct(config, was) ==> Distinct(config, notes))
    && (|notes| <= config.ceiling || notes.Keys == was.Keys)
    && (forall k :: 0 <= k < i ==> Covered(config, notes, b.width, b.candidates[k]))
    && Unstamped(AllWritten(config, notes, nextId, b, i)) == Unstamped(AllWritten(config, was, wasId, b, 0))
  }

  lemma StoredNothing(config: Config, notes: Notes, nextId: nat, b: Batch)
    ensures StoredSoFar(config, notes, nextId, b, 0, notes, nextId)
  {
    hide Unstamped, Written, Distinct;
  }

  /** Nothing is left to do: the list is at its end, or the ceiling is reached. */
  lemma StoredEnough(config: Config, was: Notes, wasId: nat, b: Batch, i: nat, notes: Notes, nextId: nat)
    requires StoredSoFar(config, was, wasId, b, i, notes, nextId)
    requires i == |b.candidates| || |notes| >= config.ceiling
    ensures Touched(was, notes, b.now) && (Distinct(config, was) ==> Distinct(config, notes))
    ensures |notes| <= config.ceiling || notes.Keys == was.Keys
    ensures forall k :: 0 <= k < i ==> k < |b.candidates| && Covered(config, notes, b.width, b.candidates[k])
    ensures Unstamped(notes)
         == Unstamped(Written(config, was, wasId, |was|, b.candidates, b.width, b.conversation, b.now))
  {
    hide Touched, Distinct, Covered, Unstamped, Known;
    assert b.candidates[0..] == b.candidates;
  }

  lemma StoredOneMore(config: Config, was: Notes, wasId: nat, b: Batch, i: nat, before: Notes, beforeId: nat,
                      notes: Notes, nextId: nat)
    requires StoredSoFar(config, was, wasId, b, i, before, beforeId) && i < |b.candidates|
    requires |before| < config.ceiling && Touched(before, notes, b.now)
    requires Distinct(config, before) ==> Distinct(config, notes)
    requires Covered(config, notes, b.width, b.candidates[i])
    requires var c := b.candidates[i];
             var note := Note(c.content, c.vector, b.width, Some(b.conversation), b.now);
             if Known(config, before, b.width, c.vector) then
               notes.Keys == before.Keys && |notes| == |before| && nextId == beforeId
             else notes == before[beforeId := note] && nextId == beforeId + 1 && |notes| == |before| + 1
    ensures StoredSoFar(config, was, wasId, b, i + 1, notes, nextId)
  {
    WrittenOneMore(config, b, i, before, beforeId, notes, nextId);
    TouchedTwice(was, before, notes, b.now);
    forall k | 0 <= k < i
      ensures Covered(config, notes, b.width, b.candidates[k])
    {
      CoveredStays(config, before, notes, b.width, b.candidates[k], b.now);
    }
    hide Touched, Distinct, Covered, Unstamped, Known, AllWritten;
  }

  lemma WrittenOneMore(config: Config, b: Batch, i: nat, before: Notes, beforeId: nat, notes: Notes, nextId: nat)
    requires i < |b.candidates| && |before| < config.ceiling && Touched(before, notes, b.now)
    requires var c := b.candidates[i];
             var note := Note(c.content, c.vector, b.width, Some(b.conversation), b.now);
             if Known(config, before, b.width, c.vector) then
               notes.Keys == before.Keys && |notes| == |before| && nextId == beforeId
             else notes == before[beforeId := note] && nextId == beforeId + 1 && |notes| == |before| + 1
    ensures Unstamped(AllWritten(config, notes, nextId, b, i + 1))
         == Unstamped(AllWritten(config, before, beforeId, b, i))
  {
    assert b.candidates[i..][1..] == b.candidates[i + 1..];
    if Known(config, before, b.width, b.candidates[i].vector) {
      TouchedIsUnstamped(before, notes, b.now);
      hide Touched, Known, Unstamped;
      WrittenUnstamped(config, before, notes, nextId, |notes|, b.candidates[i + 1..], b.width, b.conversation, b.now);
    }
    hide Touched, Known, Unstamped;
  }

  lemma TouchedIsUnstamped(a: Notes, b: Notes, now: real)
    requires Touched(a, b, now) && a.Keys == b.Keys
    ensures Unstamped(a) == Unstamped(b)
  {
  }

  /** A note of that width near enough to count as the same, and no other is nearer. */
  ghost predicate Closest(config: Config, notes: Notes, width: nat, vector: Vector, id: nat) {
    && Near(config, notes, width, vector, id)
    && forall other :: other in notes && notes[other].width == width ==>
         config.similarity(notes[other].vector, vector) <= config.similarity(notes[id].vector, vector)
  }

  class MemoryTable {
    const config: Config
    var notes: Notes
    var nextId: nat

    ghost predicate Valid()
      reads this
    {
      config.Valid() && forall id :: id in notes ==> id < nextId
    }

    constructor (config: Config)
      requires config.Valid()
      ensures Valid() && this.config == config && notes == map[]
    {
      this.config := config;
      notes, nextId := map[], 0;
    }

    /** The row `nearest` returns: of the right width, and no other is closer. */
    method Nearest(width: nat, vector: Vector) returns (best: Option<nat>)
      ensures best.Some? ==>
                && best.value in notes && notes[best.value].width == width
                && forall id :: id in notes && notes[id].width == width ==>
                     config.similarity(notes[id].vector, vector)
                     <= config.similarity(notes[best.value].vector, vector)
      ensures best.None? ==> forall id :: id in notes ==> notes[id].width != width
    {
      best := None;
      var rest := notes.Keys;
      while rest != {}
        invariant rest <= notes.Keys
        invariant best.Some? ==>
                && best.value in notes && notes[best.value].width == width
                && forall id :: id in notes.Keys - rest && notes[id].width == width ==>
                     config.similarity(notes[id].vector, vector)
                     <= config.similarity(notes[best.value].vector, vector)
        invariant best.None? ==> forall id :: id in notes.Keys - rest ==> notes[id].width != width
        decreases rest
      {
        var id :| id in rest;
        rest := rest - {id};
        if notes[id].width == width {
          if best.None? || config.similarity(notes[id].vector, vector)
                         > config.similarity(notes[best.value].vector, vector) {
            best := Some(id);
          }
        }
      }
    }

    /** `_store` */
    method Store(candidates: seq<Candidate>, width: nat, conversation: nat, now: real)
      returns (report: Report)
      requires Valid()
      modifies this
      ensures Valid()
      ensures Unstamped(notes) == Unstamped(Written(config, old(notes), old(nextId), |old(notes)|, candidates, width,
                                                    conversation, now))
      ensures report.proposed == |candidates| && |notes| == |old(notes)| + report.written
      ensures Touched(old(notes), notes, now)
      ensures Distinct(config, old(notes)) ==> Distinct(config, notes)
      ensures |notes| <= config.ceiling || notes.Keys == old(notes).Keys
      ensures !report.atCapacity ==> report.written + report.duplicates == report.proposed
      ensures report.atCapacity ==>
                report.written + report.duplicates < report.proposed && |notes| >= config.ceiling
      ensures forall k :: 0 <= k < report.written + report.duplicates ==>
                k < |candidates| && Covered(config, notes, width, candidates[k])
    {
      hide *;
      var batch := Batch(candidates, width, conversation, now);
      StoredNothing(config, notes, nextId, batch);
      report := Report(|candidates|, 0, 0, false);
      var held := |notes|;
      for i := 0 to |candidates|
        invariant Valid()
        invariant held == |notes| == |old(notes)| + report.written
        invariant report.proposed == |candidates| && !report.atCapacity
        invariant report.written + report.duplicates == i
        invariant StoredSoFar(config, old(notes), old(nextId), batch, i, notes, nextId)
      {
        if held >= config.ceiling {
          report := report.(atCapacity := true);
          StoredEnough(config, old(notes), old(nextId), batch, i, notes, nextId);
          return;
        }
        ghost var before, beforeId := notes, nextId;
        var duplicate := StoreOne(candidates[i], width, conversation, now);
        if duplicate {
          report := report.(duplicates := report.duplicates + 1);
        } else {
          report := report.(written := report.written + 1);
          held := held + 1;
        }
        StoredOneMore(config, old(notes), old(nextId), batch, i, before, beforeId, notes, nextId);
      }
      StoredEnough(config, old(notes), old(nextId), batch, |candidates|, notes, nextId);
    }

    /** One candidate against everything flushed so far, earlier ones of its batch included. */
    method StoreOne(c: Candidate, width: nat, conversation: nat, now: real) returns (duplicate: bool)
      requires Valid()
      modifies this
      ensures Valid() && Touched(old(notes), notes, now)
      ensures duplicate == Known(config, old(notes), width, c.vector)
      ensures Distinct(config, old(notes)) ==> Distinct(config, notes)
      ensures Covered(config, notes, width, c)
      ensures duplicate ==> notes.Keys == old(notes).Keys && |notes| == |old(notes)|
      ensures duplicate ==> nextId == old(nextId)
      ensures duplicate ==>
                exists id :: Closest(config, old(notes), width, c.vector, id)
                          && notes == old(notes)[id := old(notes)[id].(lastReferenced := now)]
      ensures !duplicate ==> |notes| == |old(notes)| + 1
      ensures !duplicate ==> old(nextId) !in old(notes) && nextId == old(nextId) + 1
      ensures !duplicate ==>
                notes == old(notes)[old(nextId) := Note(c.content, c.vector, width, Some(conversation), now)]
    {
      var nearest := Nearest(width, c.vector);
      if nearest.Some? && config.similarity(notes[nearest.value].vector, c.vector) >= config.dedupe {
        TouchKeeps(config, notes, nearest.value, now);
        assert Near(config, notes, width, c.vector, nearest.value);
        assert Closest(config, notes, width, c.vector, nearest.value);
        ghost var before := notes;
        notes := notes[nearest.value := notes[nearest.value].(lastReferenced := now)];
        assert notes.Keys == before.Keys;
        return true;
      }
      var note := Note(c.content, c.vector, width, Some(conversation), now);
      NothingNear(config, notes, width, c.vector, nearest);
      if Distinct(config, notes) {
        AddingUnknown(config, notes, nextId, note);
      }
      notes := notes[nextId := note];
      nextId := nextId + 1;
      assert notes[nextId - 1] == note;
      return false;
    }
  }

  lemma TouchedTwice(a: Notes, b: Notes, c: Notes, now: real)
    requires Touched(a, b, now) && Touched(b, c, now)
    ensures Touched(a, c, now)
  {
  }

  lemma NothingNear(config: Config, notes: Notes, width: nat, vector: Vector, best: Option<nat>)
    requires best.Some? ==>
               && best.value in notes
               && config.similarity(notes[best.value].vector, vector) < config.dedupe
               && forall id :: id in notes && notes[id].width == width ==>
                    config.similarity(notes[id].vector, vector)
                    <= config.similarity(notes[best.value].vector, vector)
    requires best.None? ==> forall id :: id in notes ==> notes[id].width != width
    ensures !Known(config, notes, width, vector)
  {
  }

  lemma TouchKeeps(config: Config, notes: Notes, id: nat, now: real)
    requires id in notes
    ensures var after := notes[id := notes[id].(lastReferenced := now)];
            (Distinct(config, notes) ==> Distinct(config, after)) && Touched(notes, after, now)
  {
  }

  lemma CoveredStays(config: Config, before: Notes, after: Notes, width: nat, c: Candidate, now: real)
    requires Covered(config, before, width, c) && Touched(before, after, now)
    ensures Covered(config, after, width, c)
  {
    var id :| id in before && before[id].width == width &&
      ((before[id].content == c.content && before[id].vector == c.vector)
       || config.similarity(before[id].vector, c.vector) >= config.dedupe);
    assert id in after && after[id].width == width;
  }
}
