/** The second way to two vector widths, after `IngestionRuns.TwoFirstsMixWidths`: an attempt that
    reads, through a replica, the lock of a model that has been replaced. Nothing is overwritten. */
module OldLocks {
  import opened Text
  import opened Ingestion
  import opened IngestionRuns

  ghost predicate NeverOverwrites(ops: seq<Op>) {
    forall i :: 0 <= i < |ops| ==> !Overwrites(Run(NOTHING, ops[..i]), ops[i])
  }

  /** `ops` lead to `s` and overwrite no lock in use on the way. */
  ghost predicate Reaches(ops: seq<Op>, s: State) {
    Run(NOTHING, ops) == s && NeverOverwrites(ops)
  }

  lemma OneMore(ops: seq<Op>, op: Op, before: State, after: State)
    requires Reaches(ops, before) && Step(before, op) == after && !Overwrites(before, op)
    ensures Reaches(ops + [op], after)
  {
    hide Step, Overwrites;
    var all, n := ops + [op], |ops|;
    assert all[..n] == ops && all[n] == op;
    assert forall i :: 0 <= i < n ==> all[..i] == ops[..i] && all[i] == ops[i];
  }

  /** Most operations leave the lock alone. */
  lemma OneQuiet(ops: seq<Op>, op: Op, before: State, after: State)
    requires Reaches(ops, before) && Step(before, op) == after
    requires !op.Embed? && !op.Measure? && !op.ChangeModel?
    ensures Reaches(ops + [op], after)
  {
    assert !Overwrites(before, op);
    hide Step, Overwrites, Reaches;
    OneMore(ops, op, before, after);
  }

  // The states on the way. Attempt 1 belongs to the first model, and document 1 to attempt 1.

  function FirstAt(locked: Option<nat>, phase: Phase): State {
    State(map[1 := Document(Pending, 0)], [], locked, map[1 := Attempt(1, phase)], {1})
  }

  function FirstStored(chunks: seq<Chunk>): State {
    State(map[1 := Document(Ready, |chunks|)], RowsFor(1, 1, chunks, 3), Some(3),
          map[1 := Attempt(1, Stored(chunks, 3))], {1})
  }

  function FirstGone(chunks: seq<Chunk>, locked: Option<nat>): State {
    State(map[], [], locked, map[1 := Attempt(1, Stored(chunks, 3))], {1})
  }

  function LaterAt(chunks: seq<Chunk>, locked: Option<nat>, two: Phase, three: Phase): State {
    State(map[2 := Document(Pending, 0), 3 := Document(Pending, 0)], [], locked,
          map[1 := Attempt(1, Stored(chunks, 3)), 2 := Attempt(2, two), 3 := Attempt(3, three)], {1, 2, 3})
  }

  lemma OneVector(width: nat, locked: Option<nat>)
    requires locked.Some? ==> locked.value == width
    ensures Settled([width], locked) == Some(width)
  {
  }

  lemma RowsForOne(d: nat, a: nat, chunks: seq<Chunk>, width: nat)
    requires |chunks| == 1
    ensures |RowsFor(d, a, chunks, width)| == 1 && RowsFor(d, a, chunks, width)[0].width == width
    ensures RowsFor(d, a, chunks, width)[0].document == d
  {
  }

  lemma EmbedStep(s: State, a: nat, width: nat)
    requires a in s.attempts && s.attempts[a].phase.Chunked? && |s.attempts[a].phase.chunks| == 1
    requires s.attempts[a].phase.seen.Some? ==> s.attempts[a].phase.seen.value == width
    ensures var phase := s.attempts[a].phase;
            Step(s, Embed(a, [width])) == Moved(s, a, Embedded(phase.chunks, width)).(
              locked := if phase.seen.None? then Some(width) else s.locked)
  {
    OneVector(width, s.attempts[a].phase.seen);
    hide Settled;
  }

  lemma UploadAndBegin(d: nat, a: nat, s: State)
    requires d !in s.uploaded && a !in s.attempts
    ensures Step(Step(s, Upload(d)), Begin(a, d)) == s.(documents := s.documents[d := Document(Pending, 0)],
              uploaded := s.uploaded + {d}, attempts := s.attempts[a := Attempt(d, Begun)])
  {
  }

  lemma FirstModelEmbeds(text: seq<Section>, chunks: seq<Chunk>)
    requires chunks == Cut(text, 1) && |chunks| == 1
    ensures Reaches([] + [Upload(1)] + [Begin(1, 1)] + [CutUp(1, text, 1, None)] + [Embed(1, [3])],
                    FirstAt(Some(3), Embedded(chunks, 3)))
  {
    hide Cut, Settled, Reaches;
    StartsAtNothing();
    var ops: seq<Op> := [];
    UploadAndBegin(1, 1, NOTHING);
    OneQuiet(ops, Upload(1), NOTHING, Step(NOTHING, Upload(1)));
    ops := ops + [Upload(1)];
    OneQuiet(ops, Begin(1, 1), Step(NOTHING, Upload(1)), FirstAt(None, Begun));
    ops := ops + [Begin(1, 1)];
    OneQuiet(ops, CutUp(1, text, 1, None), FirstAt(None, Begun), FirstAt(None, Chunked(chunks, None)));
    ops := ops + [CutUp(1, text, 1, None)];
    EmbedStep(FirstAt(None, Chunked(chunks, None)), 1, 3);
    OneMore(ops, Embed(1, [3]), FirstAt(None, Chunked(chunks, None)), FirstAt(Some(3), Embedded(chunks, 3)));
  }

  lemma FirstModelStores(text: seq<Section>, chunks: seq<Chunk>)
    requires chunks == Cut(text, 1) && |chunks| == 1
    ensures Reaches([] + [Upload(1)] + [Begin(1, 1)] + [CutUp(1, text, 1, None)] + [Embed(1, [3])] + [Finish(1)],
                    FirstStored(chunks))
  {
    hide *;
    FirstModelEmbeds(text, chunks);
    FinishFirst(chunks);
    OneQuiet([] + [Upload(1)] + [Begin(1, 1)] + [CutUp(1, text, 1, None)] + [Embed(1, [3])], Finish(1),
             FirstAt(Some(3), Embedded(chunks, 3)), FirstStored(chunks));
  }

  lemma FinishFirst(chunks: seq<Chunk>)
    ensures Step(FirstAt(Some(3), Embedded(chunks, 3)), Finish(1)) == FirstStored(chunks)
  {
    var rows := RowsFor(1, 1, chunks, 3);
    assert Without([], 1) + rows == rows;
    hide RowsFor, Without;
  }

  lemma StartsAtNothing()
    ensures Reaches([], NOTHING)
  {
  }

  lemma ModelChanges(ops: seq<Op>, chunks: seq<Chunk>)
    requires Reaches(ops, FirstStored(chunks)) && |chunks| == 1
    ensures Reaches(ops + [Delete(1)] + [ChangeModel], FirstGone(chunks, None))
  {
    hide Reaches;
    var rows := RowsFor(1, 1, chunks, 3);
    RowsForOne(1, 1, chunks, 3);
    hide RowsFor;
    assert rows[1..] == [] && Without(rows, 1) == [];
    OneQuiet(ops, Delete(1), FirstStored(chunks), FirstGone(chunks, Some(3)));
    OneMore(ops + [Delete(1)], ChangeModel, FirstGone(chunks, Some(3)), FirstGone(chunks, None));
  }

  lemma TwoMoreBegin(ops: seq<Op>, chunks: seq<Chunk>)
    requires Reaches(ops, FirstGone(chunks, None))
    ensures Reaches(ops + [Upload(2)] + [Begin(2, 2)] + [Upload(3)] + [Begin(3, 3)],
                    LaterAt(chunks, None, Begun, Begun))
  {
    hide Reaches;
    var gone := FirstGone(chunks, None);
    UploadAndBegin(2, 2, gone);
    var one := Step(Step(gone, Upload(2)), Begin(2, 2));
    UploadAndBegin(3, 3, one);
    assert Step(Step(one, Upload(3)), Begin(3, 3)) == LaterAt(chunks, None, Begun, Begun);
    hide Step;
    OneQuiet(ops, Upload(2), gone, Step(gone, Upload(2)));
    OneQuiet(ops + [Upload(2)], Begin(2, 2), Step(gone, Upload(2)), one);
    OneQuiet(ops + [Upload(2)] + [Begin(2, 2)], Upload(3), one, Step(one, Upload(3)));
    OneQuiet(ops + [Upload(2)] + [Begin(2, 2)] + [Upload(3)], Begin(3, 3), Step(one, Upload(3)),
             LaterAt(chunks, None, Begun, Begun));
  }

  lemma SecondLocks(ops: seq<Op>, text: seq<Section>, chunks: seq<Chunk>)
    requires Reaches(ops, LaterAt(chunks, None, Begun, Begun)) && chunks == Cut(text, 1) && |chunks| == 1
    ensures Reaches(ops + [CutUp(2, text, 1, None)] + [Embed(2, [2])],
                    LaterAt(chunks, Some(2), Embedded(chunks, 2), Begun))
  {
    hide Reaches, Cut;
    var before := LaterAt(chunks, None, Chunked(chunks, None), Begun);
    OneQuiet(ops, CutUp(2, text, 1, None), LaterAt(chunks, None, Begun, Begun), before);
    EmbedStep(before, 2, 2);
    hide Settled;
    OneMore(ops + [CutUp(2, text, 1, None)], Embed(2, [2]), before,
            LaterAt(chunks, Some(2), Embedded(chunks, 2), Begun));
  }

  lemma ThirdTrustsOldLock(ops: seq<Op>, text: seq<Section>, chunks: seq<Chunk>)
    requires Reaches(ops, LaterAt(chunks, Some(2), Embedded(chunks, 2), Begun))
    requires chunks == Cut(text, 1) && |chunks| == 1
    ensures Reaches(ops + [CutUp(3, text, 1, Some(3))] + [Embed(3, [3])],
                    LaterAt(chunks, Some(2), Embedded(chunks, 2), Embedded(chunks, 3)))
  {
    hide Reaches, Cut;
    var before := LaterAt(chunks, Some(2), Embedded(chunks, 2), Chunked(chunks, Some(3)));
    OneQuiet(ops, CutUp(3, text, 1, Some(3)), LaterAt(chunks, Some(2), Embedded(chunks, 2), Begun), before);
    EmbedStep(before, 3, 3);
    hide Settled;
    OneMore(ops + [CutUp(3, text, 1, Some(3))], Embed(3, [3]), before,
            LaterAt(chunks, Some(2), Embedded(chunks, 2), Embedded(chunks, 3)));
  }

  /** Two ready documents of two widths, and the lock on the second's. */
  ghost predicate Mixed(s: State) {
    && s.locked == Some(2) && |s.rows| == 2 && s.rows[0].width == 2 && s.rows[1].width == 3
    && s.documents == map[2 := Document(Ready, 1), 3 := Document(Ready, 1)]
  }

  lemma BothStore(ops: seq<Op>, chunks: seq<Chunk>)
    requires Reaches(ops, LaterAt(chunks, Some(2), Embedded(chunks, 2), Embedded(chunks, 3))) && |chunks| == 1
    ensures exists s :: Reaches(ops + [Finish(2)] + [Finish(3)], s) && Mixed(s)
  {
    hide Reaches;
    var two, three := RowsFor(2, 2, chunks, 2), RowsFor(3, 3, chunks, 3);
    RowsForOne(2, 2, chunks, 2);
    RowsForOne(3, 3, chunks, 3);
    hide RowsFor;
    assert [] + two == two && two[1..] == [] && Without(two, 3) == [two[0]] + [];
    var before := LaterAt(chunks, Some(2), Embedded(chunks, 2), Embedded(chunks, 3));
    var middle := Step(before, Finish(2));
    assert middle.rows == two;
    var s := Step(middle, Finish(3));
    assert s.rows == [two[0]] + three;
    OneQuiet(ops, Finish(2), before, middle);
    OneQuiet(ops + [Finish(2)], Finish(3), middle, s);
  }

  function OldLock(text: seq<Section>): seq<Op> {
    [] + [Upload(1)] + [Begin(1, 1)] + [CutUp(1, text, 1, None)] + [Embed(1, [3])] + [Finish(1)]
    + [Delete(1)] + [ChangeModel] + [Upload(2)] + [Begin(2, 2)] + [Upload(3)] + [Begin(3, 3)]
    + [CutUp(2, text, 1, None)] + [Embed(2, [2])] + [CutUp(3, text, 1, Some(3))] + [Embed(3, [3])]
    + [Finish(2)] + [Finish(3)]
  }

  /** A document is ingested at width 3 and deleted, and the model changed. The next one locks
      width 2; a third still reads the old lock, and embeds with the old model. No step of the run
      overwrites a lock in use, and both documents end up ready with vectors of two widths. */
  lemma {:induction false} OldLockMixesWidths(text: seq<Section>)
    requires Bodies(text) != []
    ensures Mixed(Run(NOTHING, OldLock(text))) && NeverOverwrites(OldLock(text))
  {
    CutShape(text, 1);
    var chunks := Cut(text, 1);
    hide Cut, WellCut, Bodies, NeverOverwrites, Run, Mixed;
    FirstModelStores(text, chunks);
    var ops := [] + [Upload(1)] + [Begin(1, 1)] + [CutUp(1, text, 1, None)] + [Embed(1, [3])] + [Finish(1)];
    ModelChanges(ops, chunks);
    ops := ops + [Delete(1)] + [ChangeModel];
    TwoMoreBegin(ops, chunks);
    ops := ops + [Upload(2)] + [Begin(2, 2)] + [Upload(3)] + [Begin(3, 3)];
    SecondLocks(ops, text, chunks);
    ops := ops + [CutUp(2, text, 1, None)] + [Embed(2, [2])];
    ThirdTrustsOldLock(ops, text, chunks);
    ops := ops + [CutUp(3, text, 1, Some(3))] + [Embed(3, [3])];
    BothStore(ops, chunks);
    assert OldLock(text) == ops + [Finish(2)] + [Finish(3)];
  }
}
