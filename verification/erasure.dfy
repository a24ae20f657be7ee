/** Asking for a transcript to go while an extraction is under way. `delete_conversation` in
    `app/services/conversation.py` runs two statements: one deletes the notes it can see, the other
    the conversation, and only the second waits for a transaction that has inserted a note. */
module Erasures {
  import opened Text
  import HeldLocks
  import opened Extraction
  import opened ExtractionRuns

  /** `delete_conversation`, with what others do between its two statements. */
  function Erase(config: Config, w: World, between: seq<Op>): World {
    Step(config, Steps(config, Forget(w), between), DeleteConversation)
  }

  /** `delete_for_subject`: the notes committed by now. */
  function Forget(w: World): World {
    w.(notes := map[])
  }

  lemma ForgetIsRemove(config: Config, w: World)
    ensures Forget(w) == Step(config, w, Remove(w.notes.Keys))
  {
    assert w.notes - w.notes.Keys == map[];
  }

  /** Whether `op`, taken in `w`, commits note `id`. */
  predicate Lands(w: World, op: Op, id: nat) {
    && op.Commit? && Holding(w, op.token) && w.execs[op.token].phase.todo == []
    && id in w.execs[op.token].phase.own
  }

  predicate Takes(op: Op, id: nat) {
    op.Remove? && id in op.ids
  }

  ghost predicate LandsAt(config: Config, w: World, ops: seq<Op>, i: int, id: nat) {
    0 <= i < |ops| && Lands(Steps(config, w, ops[..i]), ops[i], id)
  }

  /** Some extraction commits note `id` during `ops`, and nothing in `ops` removes it after. */
  ghost predicate Slips(config: Config, w: World, ops: seq<Op>, id: nat) {
    exists i :: LandsAt(config, w, ops, i, id) && forall j :: i < j < |ops| ==> !Takes(ops[j], id)
  }

  lemma SlipsUnlessTaken(config: Config, w: World, ops: seq<Op>, id: nat)
    requires forall j :: 0 <= j < |ops| ==> !ops[j].Remove?
    ensures Slips(config, w, ops, id) <==> exists i :: LandsAt(config, w, ops, i, id)
  {
    hide Lands, Steps;
    assert forall j :: 0 <= j < |ops| ==> !Takes(ops[j], id);
    if i :| LandsAt(config, w, ops, i, id) {
      assert forall j :: i < j < |ops| ==> !Takes(ops[j], id);
    }
  }

  lemma NothingSlips(config: Config, w: World, ops: seq<Op>)
    requires forall j :: 0 <= j < |ops| ==> !ops[j].Remove?
    ensures (forall id :: !Slips(config, w, ops, id)) <==> forall i, id :: !LandsAt(config, w, ops, i, id)
  {
    forall id
      ensures Slips(config, w, ops, id) <==> exists i :: LandsAt(config, w, ops, i, id)
    {
      SlipsUnlessTaken(config, w, ops, id);
    }
    hide Slips, LandsAt;
    if i, id :| LandsAt(config, w, ops, i, id) {
      assert Slips(config, w, ops, id);
    }
  }

  lemma StepsSnoc(config: Config, w: World, ops: seq<Op>, op: Op)
    ensures Steps(config, w, ops + [op]) == Step(config, Steps(config, w, ops), op)
  {
    hide Step;
    StepsAppend(config, w, ops, [op]);
    assert [op][1..] == [];
    assert Steps(config, Steps(config, w, ops), [op]) == Step(config, Steps(config, w, ops), op);
  }

  lemma NoteByStep(config: Config, w: World, op: Op, id: nat)
    ensures id in Step(config, w, op).notes <==> Lands(w, op, id) || (id in w.notes && !Takes(op, id))
  {
    hide Known;
  }

  lemma SlipsSnoc(config: Config, w: World, ops: seq<Op>, op: Op, id: nat)
    ensures Slips(config, w, ops + [op], id) <==>
            Lands(Steps(config, w, ops), op, id) || (Slips(config, w, ops, id) && !Takes(op, id))
  {
    hide Lands, Takes, Steps;
    var all, n := ops + [op], |ops|;
    assert all[n] == op && all[..n] == ops;
    assert forall i :: 0 <= i < n ==> all[..i] == ops[..i] && all[i] == ops[i];
    if Lands(Steps(config, w, ops), op, id) {
      assert LandsAt(config, w, all, n, id);
    } else if Slips(config, w, ops, id) && !Takes(op, id) {
      var i :| LandsAt(config, w, ops, i, id) && forall j :: i < j < |ops| ==> !Takes(ops[j], id);
      assert LandsAt(config, w, all, i, id);
    }
    if Slips(config, w, all, id) && !Lands(Steps(config, w, ops), op, id) {
      var i :| LandsAt(config, w, all, i, id) && forall j :: i < j < |all| ==> !Takes(all[j], id);
      assert i != n;
      assert LandsAt(config, w, ops, i, id) && !Takes(all[n], id);
    }
  }

  /** From an empty store, a note is there at the end exactly when it slipped in on the way. */
  lemma {:induction false} NotesAreSlips(config: Config, w: World, ops: seq<Op>, id: nat)
    requires w.notes == map[]
    ensures id in Steps(config, w, ops).notes <==> Slips(config, w, ops, id)
    decreases |ops|
  {
    hide Step, Lands, Takes;
    if ops == [] {
    } else {
      var n := |ops| - 1;
      NotesAreSlips(config, w, ops[..n], id);
      assert ops[..n] + [ops[n]] == ops;
      StepsSnoc(config, w, ops[..n], ops[n]);
      NoteByStep(config, Steps(config, w, ops[..n]), ops[n], id);
      SlipsSnoc(config, w, ops[..n], ops[n], id);
    }
  }

  // ---------------------------------------------------------------------------------------
  // Once the conversation is gone

  /** Whatever is inserted and not committed refers to the live conversation. */
  ghost predicate InsertsReferLive(w: World) {
    forall t :: Holding(w, t) && w.execs[t].phase.own != map[] ==> w.live == Some(w.execs[t].conversation)
  }

  lemma StepKeepsReferences(config: Config, w: World, op: Op)
    requires InsertsReferLive(w)
    ensures InsertsReferLive(Step(config, w, op))
  {
    if op.HandleNext? {
      HandleKeepsReferences(config, w, op);
    } else {
      OtherStepsInsertNothing(config, w, op);
      hide Step;
      forall t | Holding(Step(config, w, op), t) && Step(config, w, op).execs[t].phase.own != map[]
        ensures Step(config, w, op).live == Some(Step(config, w, op).execs[t].conversation)
      {
        assert Holding(w, t) && w.execs[t].phase.own != map[];
      }
    }
  }

  lemma HandleKeepsReferences(config: Config, w: World, op: Op)
    requires InsertsReferLive(w) && op.HandleNext?
    ensures InsertsReferLive(Step(config, w, op))
  {
    hide Known;
    var after := Step(config, w, op);
    assert after.live == w.live;
    forall t | Holding(after, t) && after.execs[t].phase.own != map[]
      ensures after.live == Some(after.execs[t].conversation)
    {
      assert Holding(w, t) && w.execs[t].conversation == after.execs[t].conversation;
    }
  }

  /** Nothing but the loop in `_store` inserts, and the conversation of an insert stays. */
  lemma OtherStepsInsertNothing(config: Config, w: World, op: Op)
    requires InsertsReferLive(w) && !op.HandleNext?
    ensures var after := Step(config, w, op);
            forall t :: Holding(after, t) && after.execs[t].phase.own != map[] ==>
              Holding(w, t) && w.execs[t] == after.execs[t] && after.live == w.live
  {
    hide HeldLocks.Acquire, HeldLocks.Release, Handle;
    var after := Step(config, w, op);
    forall t | Holding(after, t) && after.execs[t].phase.own != map[]
      ensures Holding(w, t) && w.execs[t] == after.execs[t] && after.live == w.live
    {
      if op.DeleteConversation? || op.OpenConversation? {
        assert Holding(w, t);
      }
    }
  }

  lemma {:induction false} StepsKeepReferences(config: Config, w: World, ops: seq<Op>)
    requires InsertsReferLive(w)
    ensures InsertsReferLive(Steps(config, w, ops))
    decreases |ops|
  {
    hide Step, InsertsReferLive;
    if ops != [] {
      StepKeepsReferences(config, w, ops[0]);
      StepsKeepReferences(config, Step(config, w, ops[0]), ops[1..]);
    }
  }

  lemma NothingLands(config: Config, w: World, op: Op)
    requires InsertsReferLive(w) && w.live.None? && !op.OpenConversation?
    ensures Step(config, w, op).live.None?
    ensures forall id :: !Lands(w, op, id)
  {
    hide Known, HeldLocks.Acquire, HeldLocks.Release;
  }

  lemma {:induction false} NothingComesBack(config: Config, w: World, ops: seq<Op>, id: nat)
    requires InsertsReferLive(w) && w.live.None?
    requires forall i :: 0 <= i < |ops| ==> !ops[i].OpenConversation?
    ensures Steps(config, w, ops).live.None?
    ensures id in Steps(config, w, ops).notes <==>
              id in w.notes && forall i :: 0 <= i < |ops| ==> !Takes(ops[i], id)
    decreases |ops|
  {
    hide Step, InsertsReferLive, Lands, Takes;
    if ops != [] {
      var next := Step(config, w, ops[0]);
      NothingLands(config, w, ops[0]);
      NoteByStep(config, w, ops[0], id);
      StepKeepsReferences(config, w, ops[0]);
      NothingComesBack(config, next, ops[1..], id);
      assert forall i :: 0 < i < |ops| ==> ops[i] == ops[1..][i - 1];
      assert forall i :: 0 <= i < |ops| - 1 ==> ops[1..][i] == ops[i + 1];
    }
  }

  /** After any run, however long and whatever the leases: once the delete has gone through, and
      until the visitor opens a conversation again, a note is there exactly when some extraction
      committed it between the two statements and no sweep or erasure has removed it since. */
  lemma {:induction false} ErasedNotesReturnExactlyWhen(config: Config, before: seq<Op>, between: seq<Op>,
                                                        later: seq<Op>, id: nat)
    requires Erase(config, Run(config, before), between).live.None?
    requires forall i :: 0 <= i < |later| ==> !later[i].OpenConversation?
    ensures var w := Run(config, before);
            id in Steps(config, Erase(config, w, between), later).notes <==>
            Slips(config, Forget(w), between, id) && forall i :: 0 <= i < |later| ==> !Takes(later[i], id)
  {
    hide Step, Slips, Takes, InsertsReferLive, Lands, Run;
    var w := Run(config, before);
    ReachedReferences(config, before);
    ForgetIsRemove(config, w);
    StepKeepsReferences(config, w, Remove(w.notes.Keys));
    StepsKeepReferences(config, Forget(w), between);
    var waited := Steps(config, Forget(w), between);
    StepKeepsReferences(config, waited, DeleteConversation);
    NotesAreSlips(config, Forget(w), between, id);
    NoteByStep(config, waited, DeleteConversation, id);
    assert !Takes(DeleteConversation, id) && !Lands(waited, DeleteConversation, id) by { NotARemoval(waited, id); }
    NothingComesBack(config, Erase(config, w, between), later, id);
  }

  lemma NotARemoval(w: World, id: nat)
    ensures !Takes(DeleteConversation, id) && !Lands(w, DeleteConversation, id)
  {
  }

  lemma ReachedReferences(config: Config, ops: seq<Op>)
    ensures InsertsReferLive(Run(config, ops))
  {
    RunIsSteps(config, ops);
    assert InsertsReferLive(START);
    hide InsertsReferLive, Step, Run;
    StepsKeepReferences(config, START, ops);
  }

  /** The erasure leaves nothing, for good, exactly when no note slips in between its two
      statements: unless a sweep or another erasure runs there too, when no extraction commits one
      in between. */
  lemma {:induction false} ErasureIsCompleteExactlyWhen(config: Config, before: seq<Op>, between: seq<Op>)
    requires Erase(config, Run(config, before), between).live.None?
    ensures Erase(config, Run(config, before), between).notes == map[] <==>
            forall id :: !Slips(config, Forget(Run(config, before)), between, id)
    ensures (forall i :: 0 <= i < |between| ==> !between[i].Remove?) ==>
              (Erase(config, Run(config, before), between).notes == map[] <==>
               forall i, id :: !LandsAt(config, Forget(Run(config, before)), between, i, id))
  {
    hide Step, Run, Erase, LandsAt;
    var w := Run(config, before);
    var erased := Erase(config, w, between);
    forall id
      ensures id in erased.notes <==> Slips(config, Forget(w), between, id)
    {
      ErasedNotesReturnExactlyWhen(config, before, between, [], id);
    }
    assert erased.notes == map[] <==> forall id :: id !in erased.notes;
    if forall i :: 0 <= i < |between| ==> !between[i].Remove? {
      NothingSlips(config, Forget(w), between);
    }
  }

  // ---------------------------------------------------------------------------------------
  // A note that comes through

  /** One extraction has inserted its note and not committed; its lease is still running. */
  function Inserted(c: Candidate, now: real): World {
    World(now, map[0 := HeldLocks.Acquire(HeldLocks.FREE, 1, LOCK_TTL_SECONDS, 0.0)], Some(0), 1, map[], 1,
          map[1 := Exec(0, 3, [c], Storing(map[0 := NoteOf(c, 0.0)], 1, []))])
  }

  function UntilInserted(c: Candidate): seq<Op> {
    [OpenConversation, Enter(1, 0, 3, [c]), Begin(1), HandleNext(1), Wait(1.0)]
  }

  /** The whole story as one run. */
  function Survival(c: Candidate): seq<Op> {
    UntilInserted(c) + [Remove({}), Commit(1), DeleteConversation]
  }

  lemma RunPrefix(config: Config, ops: seq<Op>, i: nat)
    requires i < |ops|
    ensures Run(config, ops[..i + 1]) == Step(config, Run(config, ops[..i]), ops[i])
  {
    assert ops[..i + 1][..i] == ops[..i];
    hide Step;
  }

  lemma InsertedIsLeased(now: real)
    requires now < LOCK_TTL_SECONDS
    ensures HeldLocks.Leased(HeldLocks.Acquire(HeldLocks.FREE, 1, LOCK_TTL_SECONDS, 0.0), 1, now)
  {
  }

  /** Every step of the story is taken by a holder within its lease. */
  lemma SurvivalIsTimely(config: Config, c: Candidate)
    requires config.ceiling >= 1
    ensures Timely(config, Survival(c))
  {
    hide Known, Handle, HeldLocks.Acquire, HeldLocks.Leased, HeldLocks.Granted, Run;
    var ops := Survival(c);
    var e := Exec(0, 3, [c], Waiting);
    InsertedIsLeased(0.0);
    InsertedIsLeased(1.0);
    FirstThree(config, c);
    assert Run(config, ops[..0]) == START by { RunOfNothing(config, ops); }
    RunPrefix(config, ops, 0);
    RunPrefix(config, ops, 1);
    RunPrefix(config, ops, 2);
    RunPrefix(config, ops, 3);
    RunPrefix(config, ops, 4);
    RunPrefix(config, ops, 5);
    LastThree(config, c);
    hide Step;
    assert InTime(Run(config, ops[..2]), ops[2]);
    assert InTime(Run(config, ops[..3]), ops[3]);
    assert InTime(Run(config, ops[..6]), ops[6]);
  }

  lemma RunOfNothing(config: Config, ops: seq<Op>)
    ensures Run(config, ops[..0]) == START
  {
    assert ops[..0] == [];
  }

  function Opened(): World {
    World(0.0, map[], Some(0), 1, map[], 0, map[])
  }

  function Entered(c: Candidate, phase: Phase): World {
    World(0.0, map[0 := HeldLocks.Acquire(HeldLocks.FREE, 1, LOCK_TTL_SECONDS, 0.0)], Some(0), 1, map[], 0,
          map[1 := Exec(0, 3, [c], phase)])
  }

  lemma FirstThree(config: Config, c: Candidate)
    ensures Step(config, START, OpenConversation) == Opened()
    ensures Step(config, Opened(), Enter(1, 0, 3, [c])) == Entered(c, Waiting)
    ensures Step(config, Entered(c, Waiting), Begin(1)) == Entered(c, Storing(map[], 0, [c]))
  {
    hide Known, Handle, HeldLocks.Acquire;
  }

  lemma LastThree(config: Config, c: Candidate)
    requires config.ceiling >= 1
    ensures Step(config, Entered(c, Storing(map[], 0, [c])), HandleNext(1)) == Inserted(c, 0.0)
    ensures Step(config, Inserted(c, 0.0), Wait(1.0)) == Inserted(c, 1.0)
    ensures Step(config, Inserted(c, 1.0), Remove({})) == Inserted(c, 1.0)
  {
    hide Known, Handle, HeldLocks.Acquire;
    InsertsFirst(config, Entered(c, Storing(map[], 0, [c])), 1, c);
  }

  lemma ReachesInserted(config: Config, c: Candidate)
    requires config.ceiling >= 1
    ensures Run(config, UntilInserted(c)) == Inserted(c, 1.0)
  {
    FirstThree(config, c);
    LastThree(config, c);
    hide Step, Run;
    Steps5(config, START, OpenConversation, Enter(1, 0, 3, [c]), Begin(1), HandleNext(1), Wait(1.0));
    RunIsSteps(config, UntilInserted(c));
  }

  /** The first delete does not see the note, the second waits for it to be committed: the
      transcript is gone and the note stays, although every lease is kept. */
  lemma UncommittedNoteSurvives(config: Config, c: Candidate)
    requires config.ceiling >= 1
    ensures var w := Run(config, UntilInserted(c));
            && w.notes == map[] && Referenced(w) && Timely(config, Survival(c))
            && Erase(config, w, [Commit(1)]).live.None?
            && Erase(config, w, [Commit(1)]).notes == map[0 := NoteOf(c, 0.0)]
  {
    hide Known, Handle, Run, UntilInserted, Timely, HeldLocks.Acquire;
    ReachesInserted(config, c);
    SurvivalIsTimely(config, c);
    var w := Inserted(c, 1.0);
    assert Holding(w, 1) && 0 in w.execs[1].phase.own;
    assert w.execs[1].phase.own != map[];
    var committed := w.(notes := map[0 := NoteOf(c, 0.0)], execs := map[1 := Exec(0, 3, [c], Finished)]);
    assert Forget(w) == w;
    assert map[] + map[0 := NoteOf(c, 0.0)] == map[0 := NoteOf(c, 0.0)];
    assert Step(config, w, Commit(1)) == committed;
    assert [Commit(1)][1..] == [];
    assert Steps(config, w, [Commit(1)]) == committed;
    assert !Referenced(committed);
  }
}
