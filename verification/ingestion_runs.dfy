/** Documents of one chatbot over whole runs: uploads, overlapping ingestion attempts, failures,
    reprocess requests, deletes and changes of embedding model. `app/services/ingestion/pipeline.py`,
    `app/services/document.py`, `app/services/ai_config.py`. One transaction is one step. */
module IngestionRuns {
  import opened Text
  import opened Ingestion

  // ---------------------------------------------------------------------------------------
  // Rows

  datatype Status = Pending | Processing | Ready | Failed

  datatype Document = Document(status: Status, chunkCount: nat)

  datatype Row = Row(document: nat, index: nat, content: string, width: nat, attempt: nat)

  /** How far one call of `process_document` has come. `seen` is the width the chatbot was
      locked to, as the attempt's embedding client carries it. */
  datatype Phase =
    | Begun
    | Chunked(chunks: seq<Chunk>, seen: Option<nat>)
    | Embedded(chunks: seq<Chunk>, width: nat)
    | Stored(chunks: seq<Chunk>, width: nat)
    | Over

  datatype Attempt = Attempt(document: nat, phase: Phase)

  /** `uploaded` are the document ids ever drawn; one is never drawn twice. */
  datatype State = State(documents: map<nat, Document>, rows: seq<Row>, locked: Option<nat>,
                         attempts: map<nat, Attempt>, uploaded: set<nat>)

  const NOTHING := State(map[], [], None, map[], {})

  function RowsOf(rows: seq<Row>, d: nat): seq<Row> {
    if rows == [] then []
    else IfOf(rows[0], d) + RowsOf(rows[1..], d)
  }

  function IfOf(row: Row, d: nat): seq<Row> {
    if row.document == d then [row] else []
  }

  /** `delete_for_document`, and the cascade when the document itself goes. */
  function Without(rows: seq<Row>, d: nat): seq<Row> {
    if rows == [] then []
    else (if rows[0].document == d then [] else [rows[0]]) + Without(rows[1..], d)
  }

  /** The rows one attempt writes. */
  function RowsFor(d: nat, a: nat, chunks: seq<Chunk>, width: nat): seq<Row> {
    seq(|chunks|, i requires 0 <= i < |chunks| => Row(d, chunks[i].index, chunks[i].content, width, a))
  }

  /** `_settle_dimension`: the one width all vectors share, if it is the one locked to. */
  function Settled(widths: seq<nat>, locked: Option<nat>): (r: Option<nat>)
    ensures forall w :: r == Some(w) <==>
              widths != [] && (forall i :: 0 <= i < |widths| ==> widths[i] == w) && (locked.Some? ==> locked.value == w)
  {
    if widths == [] || (exists i | 0 <= i < |widths| :: widths[i] != widths[0]) then None
    else if locked.Some? && locked.value != widths[0] then None
    else Some(widths[0])
  }

  // ---------------------------------------------------------------------------------------
  // Transactions

  datatype Op =
    | Upload(document: nat)
    | Begin(attempt: nat, document: nat)
    | MarkProcessing(attempt: nat)
    | CutUp(attempt: nat, sections: seq<Section>, ceiling: int, shown: Option<nat>)
    | Embed(attempt: nat, widths: seq<nat>)
    | Finish(attempt: nat)
    | MarkFailed(document: nat)
    | Reprocess(document: nat)
    | Delete(document: nat)
    | ChangeModel
    | Measure(width: nat)     // a connection test, or saving a configuration that has no width yet

  /** `_set_status`, and the same write in `reprocess_document`. */
  function SetStatus(s: State, d: nat, status: Status): State {
    if d in s.documents then s.(documents := s.documents[d := s.documents[d].(status := status)]) else s
  }

  function Moved(s: State, a: nat, phase: Phase): State
    requires a in s.attempts
  {
    s.(attempts := s.attempts[a := s.attempts[a].(phase := phase)])
  }

  /** The transaction that replaces a document's chunks; without the document row the inserts
      break their foreign key and nothing is kept. */
  function Publish(s: State, a: nat): State
    requires a in s.attempts && s.attempts[a].phase.Embedded?
  {
    var d, chunks, width := s.attempts[a].document, s.attempts[a].phase.chunks, s.attempts[a].phase.width;
    if d !in s.documents then Moved(s, a, Over)
    else Moved(s, a, Stored(chunks, width)).(
      rows := Without(s.rows, d) + RowsFor(d, a, chunks, width),
      documents := s.documents[d := Document(Ready, |chunks|)])
  }

  /** `embed_batch`, `_settle_dimension` and `record_embedding_dimension`. */
  function TakeVectors(s: State, a: nat, widths: seq<nat>): State
    requires a in s.attempts && s.attempts[a].phase.Chunked?
  {
    var phase := s.attempts[a].phase;
    var width := Settled(widths, phase.seen);
    if |widths| != |phase.chunks| || width.None? then Moved(s, a, Over)
    else Moved(s, a, Embedded(phase.chunks, width.value)).(
      locked := if phase.seen.None? then width else s.locked)
  }

  /** A transaction that is not enabled, or fails, changes nothing. */
  function Step(s: State, op: Op): State {
    match op
    case Upload(d) =>
      if d in s.uploaded then s
      else s.(documents := s.documents[d := Document(Pending, 0)], uploaded := s.uploaded + {d})
    case Begin(a, d) =>
      if a in s.attempts || d !in s.documents then s
      else s.(attempts := s.attempts[a := Attempt(d, Begun)])
    case MarkProcessing(a) =>
      if a in s.attempts && s.attempts[a].phase.Begun? then SetStatus(s, s.attempts[a].document, Processing) else s
    case CutUp(a, sections, ceiling, shown) =>
      // The configuration is read through a replica. It may not show a lock taken since, and it
      // may still show one that has been replaced or cleared.
      if a !in s.attempts || !s.attempts[a].phase.Begun? then s
      else if Cut(sections, ceiling) == [] then Moved(s, a, Over)
      else Moved(s, a, Chunked(Cut(sections, ceiling), shown))
    case Embed(a, widths) =>
      if a in s.attempts && s.attempts[a].phase.Chunked? then TakeVectors(s, a, widths) else s
    case Finish(a) =>
      if a in s.attempts && s.attempts[a].phase.Embedded? then Publish(s, a) else s
    case MarkFailed(d) => SetStatus(s, d, Failed)
    case Reprocess(d) => SetStatus(s, d, Pending)
    case Delete(d) => s.(documents := s.documents - {d}, rows := Without(s.rows, d))
    case ChangeModel => if s.rows == [] then s.(locked := None) else s
    case Measure(width) => s.(locked := Some(width))
  }

  function Run(s: State, ops: seq<Op>): State {
    if ops == [] then s else Step(Run(s, ops[..|ops| - 1]), ops[|ops| - 1])
  }

  /** A document is pending when it arrives or is asked for again, processing and failed when it is
      marked so, and ready when an attempt on it publishes; its count changes with its chunks only. */
  lemma {:induction false} StatusAfter(s: State, op: Op, d: nat)
    ensures var after := Step(s, op);
            && (d in after.documents <==>
                  (d in s.documents && op != Delete(d)) || (op == Upload(d) && d !in s.uploaded))
            && (op == Upload(d) && d !in s.uploaded ==> after.documents[d] == Document(Pending, 0))
            && (d in s.documents && op == MarkFailed(d) ==>
                  after.documents[d] == Document(Failed, s.documents[d].chunkCount))
            && (d in s.documents && op == Reprocess(d) ==>
                  after.documents[d] == Document(Pending, s.documents[d].chunkCount))
    ensures var after := Step(s, op);
            d in s.documents && d in after.documents && after.documents[d] != s.documents[d] ==>
              match op
              case Upload(_) => d !in s.uploaded
              case MarkProcessing(a) =>
                && a in s.attempts && s.attempts[a].document == d
                && after.documents[d] == Document(Processing, s.documents[d].chunkCount)
              case Finish(a) =>
                && a in s.attempts && s.attempts[a].document == d && s.attempts[a].phase.Embedded?
                && after.documents[d] == Document(Ready, |s.attempts[a].phase.chunks|)
              case MarkFailed(_) => true
              case Reprocess(_) => true
              case _ => false
  {
    hide Cut, Settled, RowsFor, Without;
  }

  // ---------------------------------------------------------------------------------------
  // A document's chunks are always one whole set

  /** What anyone reading a document's chunks relies on. */
  ghost predicate Whole(document: Document, rows: seq<Row>) {
    && |rows| == document.chunkCount
    && (document.status == Ready ==> |rows| >= 1)
    && (forall i :: 0 <= i < |rows| ==> rows[i].index == i && rows[i].content != "")
    && (forall i, j :: 0 <= i < |rows| && 0 <= j < |rows| ==>
          rows[i].attempt == rows[j].attempt && rows[i].width == rows[j].width)
  }

  /** The rows are exactly what one attempt on this document cut. */
  ghost predicate Written(d: nat, document: Document, rows: seq<Row>, attempts: map<nat, Attempt>) {
    && |rows| == document.chunkCount
    && (document.status == Ready ==> rows != [])
    && (rows != [] ==>
          var a := rows[0].attempt;
          && a in attempts && attempts[a].document == d && attempts[a].phase.Stored?
          && rows == RowsFor(d, a, attempts[a].phase.chunks, attempts[a].phase.width))
  }

  ghost predicate PhaseGood(phase: Phase) {
    phase.Chunked? || phase.Embedded? || phase.Stored? ==> phase.chunks != [] && WellCut(phase.chunks)
  }

  ghost predicate AttemptsGood(attempts: map<nat, Attempt>) {
    forall a :: a in attempts ==> PhaseGood(attempts[a].phase)
  }

  ghost predicate DocumentsGood(s: State) {
    forall d :: d in s.documents ==> Written(d, s.documents[d], RowsOf(s.rows, d), s.attempts)
  }

  ghost predicate Owned(s: State) {
    forall r :: r in s.rows ==> r.document in s.documents
  }

  ghost predicate Drawn(s: State) {
    s.documents.Keys <= s.uploaded && forall a :: a in s.attempts ==> s.attempts[a].document in s.uploaded
  }

  ghost predicate Good(s: State) {
    AttemptsGood(s.attempts) && DocumentsGood(s) && Owned(s) && Drawn(s)
  }

  lemma {:induction false} RowsOfAppend(xs: seq<Row>, ys: seq<Row>, d: nat)
    ensures RowsOf(xs + ys, d) == RowsOf(xs, d) + RowsOf(ys, d)
  {
    hide IfOf;
    if xs == [] {
      assert xs + ys == ys;
    } else {
      assert (xs + ys)[1..] == xs[1..] + ys;
      RowsOfAppend(xs[1..], ys, d);
      Regroup(IfOf(xs[0], d), RowsOf(xs[1..], d), RowsOf(ys, d));
    }
  }

  lemma Regroup(a: seq<Row>, b: seq<Row>, c: seq<Row>)
    ensures a + (b + c) == (a + b) + c
  {
  }

  lemma {:induction false} RowsOfWithout(rows: seq<Row>, d: nat, e: nat)
    ensures RowsOf(Without(rows, d), e) == if e == d then [] else RowsOf(rows, e)
  {
    if rows != [] {
      RowsOfWithout(rows[1..], d, e);
      if rows[0].document != d {
        assert ([rows[0]] + Without(rows[1..], d))[1..] == Without(rows[1..], d);
      } else {
        assert [] + Without(rows[1..], d) == Without(rows[1..], d);
        assert e != d ==> [] + RowsOf(rows[1..], e) == RowsOf(rows[1..], e);
      }
    }
  }

  lemma {:induction false} WithoutHas(rows: seq<Row>, d: nat)
    ensures forall r :: r in Without(rows, d) <==> r in rows && r.document != d
  {
    if rows != [] {
      WithoutHas(rows[1..], d);
      assert forall r :: r in rows <==> r == rows[0] || r in rows[1..];
    }
  }

  lemma {:induction false} RowsOfOwn(rows: seq<Row>, d: nat, e: nat)
    requires forall r :: r in rows ==> r.document == d
    ensures RowsOf(rows, e) == if e == d then rows else []
  {
    if rows != [] {
      assert rows[0] in rows && forall r :: r in rows[1..] ==> r in rows;
      RowsOfOwn(rows[1..], d, e);
      assert rows == [rows[0]] + rows[1..];
    }
  }

  lemma {:induction false} RowsOfNone(rows: seq<Row>, d: nat)
    requires forall r :: r in rows ==> r.document != d
    ensures RowsOf(rows, d) == []
  {
    if rows != [] {
      assert rows[0] in rows && forall r :: r in rows[1..] ==> r in rows;
      RowsOfNone(rows[1..], d);
    }
  }

  /** What publishing does to every document's rows. */
  lemma RowsAfterPublish(rows: seq<Row>, d: nat, a: nat, chunks: seq<Chunk>, width: nat, e: nat)
    ensures RowsOf(Without(rows, d) + RowsFor(d, a, chunks, width), e) ==
              if e == d then RowsFor(d, a, chunks, width) else RowsOf(rows, e)
  {
    var own := RowsFor(d, a, chunks, width);
    RowsOfAppend(Without(rows, d), own, e);
    RowsOfWithout(rows, d, e);
    RowsOfOwn(own, d, e);
    assert [] + own == own;
    assert RowsOf(rows, e) + [] == RowsOf(rows, e);
  }

  /** Moving an attempt that has not stored anything hurts no document. */
  lemma MovedKeepsWritten(d: nat, document: Document, rows: seq<Row>, attempts: map<nat, Attempt>,
                          a: nat, next: Attempt)
    requires Written(d, document, rows, attempts)
    requires a in attempts ==> !attempts[a].phase.Stored?
    ensures Written(d, document, rows, attempts[a := next])
  {
  }

  lemma {:induction false} MovedKeepsGood(s: State, a: nat, phase: Phase)
    requires Good(s) && a in s.attempts && !s.attempts[a].phase.Stored? && PhaseGood(phase)
    ensures Good(Moved(s, a, phase))
  {
    hide Written, PhaseGood;
    forall d | d in s.documents
      ensures Written(d, s.documents[d], RowsOf(s.rows, d), Moved(s, a, phase).attempts)
    {
      MovedKeepsWritten(d, s.documents[d], RowsOf(s.rows, d), s.attempts, a, s.attempts[a].(phase := phase));
    }
  }

  lemma LockKeepsGood(s: State, locked: Option<nat>)
    requires Good(s)
    ensures Good(s.(locked := locked))
  {
    hide Written, PhaseGood, RowsOf;
  }

  lemma StatusKeepsGood(s: State, d: nat, status: Status)
    requires Good(s) && status != Ready
    ensures Good(SetStatus(s, d, status))
  {
    hide PhaseGood, RowsOf, RowsFor;
  }

  lemma {:induction false} UploadKeepsGood(s: State, d: nat)
    requires Good(s)
    ensures Good(Step(s, Upload(d)))
  {
    if d !in s.uploaded {
      RowsOfNone(s.rows, d);
    }
    hide PhaseGood, RowsOf, RowsFor;
  }

  lemma {:induction false} BeginKeepsGood(s: State, a: nat, d: nat)
    requires Good(s)
    ensures Good(Step(s, Begin(a, d)))
  {
    assert PhaseGood(Begun);
    hide Written, RowsOf, PhaseGood;
    if a !in s.attempts {
      forall e | e in s.documents
        ensures Written(e, s.documents[e], RowsOf(s.rows, e), s.attempts[a := Attempt(d, Begun)])
      {
        MovedKeepsWritten(e, s.documents[e], RowsOf(s.rows, e), s.attempts, a, Attempt(d, Begun));
      }
    }
  }

  lemma {:induction false} DeleteKeepsGood(s: State, d: nat)
    requires Good(s)
    ensures Good(Step(s, Delete(d)))
  {
    WithoutHas(s.rows, d);
    forall e
      ensures RowsOf(Without(s.rows, d), e) == if e == d then [] else RowsOf(s.rows, e)
    {
      RowsOfWithout(s.rows, d, e);
    }
    hide PhaseGood, RowsOf, RowsFor, Written, Without;
  }

  lemma {:induction false} CutUpKeepsGood(s: State, op: Op)
    requires Good(s) && op.CutUp?
    ensures Good(Step(s, op))
  {
    hide Cut, WellCut, Good;
    if op.attempt in s.attempts && s.attempts[op.attempt].phase.Begun? {
      CutShape(op.sections, op.ceiling);
      var chunks := Cut(op.sections, op.ceiling);
      if chunks == [] {
        MovedKeepsGood(s, op.attempt, Over);
      } else {
        MovedKeepsGood(s, op.attempt, Chunked(chunks, op.shown));
      }
    }
  }

  lemma {:induction false} EmbedKeepsGood(s: State, op: Op)
    requires Good(s) && op.Embed?
    ensures Good(Step(s, op))
  {
    var a := op.attempt;
    if a in s.attempts && s.attempts[a].phase.Chunked? {
      var phase := s.attempts[a].phase;
      assert PhaseGood(phase);
      hide Good, WellCut;
      var width := Settled(op.widths, phase.seen);
      if |op.widths| != |phase.chunks| || width.None? {
        MovedKeepsGood(s, a, Over);
      } else {
        MovedKeepsGood(s, a, Embedded(phase.chunks, width.value));
        LockKeepsGood(Moved(s, a, Embedded(phase.chunks, width.value)), Step(s, op).locked);
      }
    }
  }

  lemma {:induction false} PublishKeepsGood(s: State, a: nat)
    requires Good(s) && a in s.attempts && s.attempts[a].phase.Embedded?
    ensures Good(Publish(s, a))
  {
    var d, chunks, width := s.attempts[a].document, s.attempts[a].phase.chunks, s.attempts[a].phase.width;
    assert PhaseGood(s.attempts[a].phase);
    if d !in s.documents {
      MovedKeepsGood(s, a, Over);
      hide Good;
    } else {
      MovedKeepsGood(s, a, Stored(chunks, width));
      hide AttemptsGood, DocumentsGood, Owned, Drawn, PhaseGood, RowsFor, Without;
      PublishRows(Moved(s, a, Stored(chunks, width)), d, a, chunks, width);
    }
  }

  /** The rows and the count change together, on the attempt that has just been stored. */
  lemma PublishRows(s: State, d: nat, a: nat, chunks: seq<Chunk>, width: nat)
    requires DocumentsGood(s) && Owned(s) && d in s.documents && chunks != []
    requires a in s.attempts && s.attempts[a] == Attempt(d, Stored(chunks, width))
    ensures var next := s.(rows := Without(s.rows, d) + RowsFor(d, a, chunks, width),
                           documents := s.documents[d := Document(Ready, |chunks|)]);
            DocumentsGood(next) && Owned(next)
  {
    var next := s.(rows := Without(s.rows, d) + RowsFor(d, a, chunks, width),
                   documents := s.documents[d := Document(Ready, |chunks|)]);
    forall e | e in next.documents
      ensures Written(e, next.documents[e], RowsOf(next.rows, e), next.attempts)
    {
      RowsAfterPublish(s.rows, d, a, chunks, width, e);
      assert e in s.documents && Written(e, s.documents[e], RowsOf(s.rows, e), s.attempts);
      hide RowsOf, Without, DocumentsGood, Owned;
      if e == d {
        StoredIsWritten(d, a, chunks, width, s.attempts);
      }
      hide Written;
    }
    WithoutHas(s.rows, d);
    hide RowsOf, Without, Written;
  }

  lemma StoredIsWritten(d: nat, a: nat, chunks: seq<Chunk>, width: nat, attempts: map<nat, Attempt>)
    requires chunks != [] && a in attempts && attempts[a] == Attempt(d, Stored(chunks, width))
    ensures Written(d, Document(Ready, |chunks|), RowsFor(d, a, chunks, width), attempts)
  {
  }

  lemma {:induction false} StepKeepsGood(s: State, op: Op)
    requires Good(s)
    ensures Good(Step(s, op))
  {
    hide Good, Publish, Cut, TakeVectors;
    match op
    case Upload(d) => UploadKeepsGood(s, d);
    case Begin(a, d) => BeginKeepsGood(s, a, d);
    case MarkProcessing(a) =>
      if a in s.attempts && s.attempts[a].phase.Begun? {
        StatusKeepsGood(s, s.attempts[a].document, Processing);
      }
    case CutUp(a, _, _, _) => CutUpKeepsGood(s, op);
    case Embed(a, _) => EmbedKeepsGood(s, op);
    case Finish(a) =>
      if a in s.attempts && s.attempts[a].phase.Embedded? {
        PublishKeepsGood(s, a);
      }
    case MarkFailed(d) => StatusKeepsGood(s, d, Failed);
    case Reprocess(d) => StatusKeepsGood(s, d, Pending);
    case Delete(d) => DeleteKeepsGood(s, d);
    case ChangeModel => LockKeepsGood(s, None);
    case Measure(width) => LockKeepsGood(s, Some(width));
  }

  lemma {:induction false} RunKeepsGood(ops: seq<Op>)
    ensures Good(Run(NOTHING, ops))
  {
    if ops != [] {
      RunKeepsGood(ops[..|ops| - 1]);
      hide Good;
      StepKeepsGood(Run(NOTHING, ops[..|ops| - 1]), ops[|ops| - 1]);
    }
  }

  /** However attempts, failures, reprocess requests and deletes interleave. */
  lemma DocumentsStayWhole(ops: seq<Op>, d: nat)
    requires d in Run(NOTHING, ops).documents
    ensures var s := Run(NOTHING, ops); Whole(s.documents[d], RowsOf(s.rows, d))
  {
    RunKeepsGood(ops);
    var s := Run(NOTHING, ops);
    WholeWhenGood(s, d);
  }

  lemma WholeWhenGood(s: State, d: nat)
    requires Good(s) && d in s.documents
    ensures Whole(s.documents[d], RowsOf(s.rows, d))
  {
    var rows := RowsOf(s.rows, d);
    assert Written(d, s.documents[d], rows, s.attempts);
    assert rows != [] ==> PhaseGood(s.attempts[rows[0].attempt].phase);
    hide *;
    WrittenIsWhole(d, s.documents[d], rows, s.attempts);
  }

  lemma WrittenIsWhole(d: nat, document: Document, rows: seq<Row>, attempts: map<nat, Attempt>)
    requires Written(d, document, rows, attempts)
    requires rows != [] ==> rows[0].attempt in attempts && PhaseGood(attempts[rows[0].attempt].phase)
    ensures Whole(document, rows)
  {
    hide RowsFor, WellCut;
    if rows != [] {
      var phase := attempts[rows[0].attempt].phase;
      RowsForShape(d, rows[0].attempt, phase.chunks, phase.width);
    }
  }

  lemma RowsForShape(d: nat, a: nat, chunks: seq<Chunk>, width: nat)
    requires WellCut(chunks)
    ensures |RowsFor(d, a, chunks, width)| == |chunks|
    ensures forall i :: 0 <= i < |chunks| ==>
              var row := RowsFor(d, a, chunks, width)[i];
              row.index == i && row.content != "" && row.attempt == a && row.width == width
  {
    hide Trim;
  }

  // ---------------------------------------------------------------------------------------
  // One vector width for the whole chatbot

  /** The width an attempt still under way will store, if it has settled on one and its document
      is still there to store under. */
  function Insists(s: State, a: nat): Option<nat>
    requires a in s.attempts
  {
    if s.attempts[a].document !in s.documents then None
    else match s.attempts[a].phase
      case Chunked(_, seen) => seen
      case Embedded(_, width) => Some(width)
      case _ => None
  }

  ghost predicate OneWidth(s: State) {
    && (forall r :: r in s.rows ==> s.locked == Some(r.width))
    && (forall a :: a in s.attempts && Insists(s, a).Some? ==> s.locked == Insists(s, a))
  }

  /** Some row, or some attempt under way, depends on the width now locked. */
  ghost predicate InUse(s: State) {
    s.rows != [] || exists a :: a in s.attempts && Insists(s, a).Some?
  }

  /** The lock is about to change under something that depends on it: an attempt that saw no
      lock records another width, a measurement does, or the model is changed while an attempt is
      under way. */
  ghost predicate Overwrites(s: State, op: Op) {
    || (&& op.Embed? && op.attempt in s.attempts && s.attempts[op.attempt].phase.Chunked?
        && var phase := s.attempts[op.attempt].phase;
           && phase.seen.None? && |op.widths| == |phase.chunks|
           && Settled(op.widths, None).Some? && Settled(op.widths, None) != s.locked && InUse(s))
    || (op.Measure? && s.locked != Some(op.width) && InUse(s))
    || (op.ChangeModel? && s.rows == [] && s.locked.Some? && InUse(s))
  }

  /** An attempt with something to store takes its width from a lock that no longer stands. */
  predicate TrustsOldLock(s: State, op: Op) {
    && op.CutUp? && op.attempt in s.attempts && s.attempts[op.attempt].phase.Begun?
    && s.attempts[op.attempt].document in s.documents && Cut(op.sections, op.ceiling) != []
    && op.shown.Some? && op.shown != s.locked
  }

  ghost predicate Diverges(s: State, op: Op) {
    Overwrites(s, op) || TrustsOldLock(s, op)
  }

  lemma EmbedWidth(s: State, op: Op)
    requires OneWidth(s) && op.Embed?
    ensures OneWidth(Step(s, op)) <==> !Overwrites(s, op)
  {
    var a := op.attempt;
    if a in s.attempts && s.attempts[a].phase.Chunked? {
      var phase, next := s.attempts[a].phase, Step(s, op);
      var width := Settled(op.widths, phase.seen);
      hide Settled;
      if |op.widths| == |phase.chunks| && width.Some? {
        if phase.seen.None? {
          if s.rows != [] {
            assert s.rows[0] in s.rows && s.rows[0] in next.rows;
          }
          forall b | b in s.attempts && Insists(s, b).Some?
            ensures b != a && Insists(next, b) == Insists(s, b)
          {
          }
        }
      }
    }
  }

  lemma FinishWidth(s: State, a: nat)
    requires OneWidth(s) && a in s.attempts && s.attempts[a].phase.Embedded?
    ensures OneWidth(Publish(s, a))
  {
    assert s.attempts[a].document in s.documents ==> Insists(s, a) == Some(s.attempts[a].phase.width);
    WithoutHas(s.rows, s.attempts[a].document);
    hide Without;
  }

  /** What is stored and what is about to be stored agree on one width after a step exactly when
      the step neither overwrites a lock in use nor trusts one that no longer stands. */
  lemma StepWidth(s: State, op: Op)
    requires Drawn(s) && OneWidth(s)
    ensures OneWidth(Step(s, op)) <==> !Diverges(s, op)
  {
    match op
    case Embed(_, _) =>
      EmbedWidth(s, op);
      hide *;
    case Finish(a) =>
      if a in s.attempts && s.attempts[a].phase.Embedded? {
        FinishWidth(s, a);
        hide *;
      }
    case Delete(d) =>
      DeleteWidth(s, d);
      hide OneWidth, Without;
    case CutUp(_, _, _, _) =>
      CutUpWidth(s, op);
      hide OneWidth, Cut;
    case ChangeModel =>
      LockWidth(s, op);
      hide OneWidth, InUse;
    case Measure(_) =>
      LockWidth(s, op);
      hide OneWidth, InUse;
    case _ =>
      QuietWidth(s, op);
      hide OneWidth;
  }

  lemma DeleteWidth(s: State, d: nat)
    requires OneWidth(s)
    ensures OneWidth(Step(s, Delete(d)))
  {
    WithoutHas(s.rows, d);
    hide Without;
    assert forall a :: a in s.attempts && Insists(Step(s, Delete(d)), a).Some? ==>
      Insists(Step(s, Delete(d)), a) == Insists(s, a);
  }

  lemma CutUpWidth(s: State, op: Op)
    requires OneWidth(s) && op.CutUp?
    ensures OneWidth(Step(s, op)) <==> !TrustsOldLock(s, op)
  {
    hide Cut;
    var next := Step(s, op);
    forall a | a in s.attempts && a != op.attempt
      ensures Insists(next, a) == Insists(s, a)
    {
    }
    if TrustsOldLock(s, op) {
      assert Insists(next, op.attempt) == op.shown;
    }
  }

  /** Steps that neither store, settle a width nor take anything away. */
  lemma QuietWidth(s: State, op: Op)
    requires Drawn(s) && OneWidth(s)
    requires op.Upload? || op.Begin? || op.MarkProcessing? || op.MarkFailed? || op.Reprocess?
    ensures OneWidth(Step(s, op))
  {
    var after := Step(s, op);
    assert after.rows == s.rows && after.locked == s.locked;
    forall a | a in after.attempts && Insists(after, a).Some?
      ensures a in s.attempts && Insists(after, a) == Insists(s, a)
    {
    }
  }

  lemma LockWidth(s: State, op: Op)
    requires OneWidth(s) && (op.ChangeModel? || op.Measure?)
    ensures OneWidth(Step(s, op)) <==> !Overwrites(s, op)
  {
    var next := Step(s, op);
    forall a | a in s.attempts
      ensures Insists(next, a) == Insists(s, a)
    {
    }
    if s.rows != [] {
      assert s.rows[0] in s.rows && s.rows[0] in next.rows;
    }
  }

  ghost predicate NeverDiverges(ops: seq<Op>) {
    forall i :: 0 <= i < |ops| ==> !Diverges(Run(NOTHING, ops[..i]), ops[i])
  }

  /** While nothing overwrites a lock in use or trusts one that no longer stands, every vector of
      the chatbot has the locked width. */
  lemma {:induction false} RunKeepsOneWidth(ops: seq<Op>)
    requires NeverDiverges(ops)
    ensures OneWidth(Run(NOTHING, ops))
  {
    if ops != [] {
      var before := ops[..|ops| - 1];
      forall i | 0 <= i < |before|
        ensures !Diverges(Run(NOTHING, before[..i]), before[i])
      {
        assert before[..i] == ops[..i];
      }
      RunKeepsOneWidth(before);
      RunKeepsGood(before);
      hide OneWidth, Diverges, AttemptsGood, DocumentsGood, Owned, Drawn;
      StepWidth(Run(NOTHING, before), ops[|ops| - 1]);
    }
  }

  // ---------------------------------------------------------------------------------------
  // Once the widths disagree, two can be stored

  ghost predicate TwoWidths(rows: seq<Row>) {
    exists r, q :: r in rows && q in rows && r.width != q.width
  }

  lemma {:induction false} RunAppend(s: State, first: seq<Op>, second: seq<Op>)
    ensures Run(s, first + second) == Run(Run(s, first), second)
  {
    hide Step;
    if second == [] {
      assert first + second == first;
    } else {
      var n := |second| - 1;
      assert (first + second)[..|first + second| - 1] == first + second[..n];
      RunAppend(s, first, second[..n]);
    }
  }

  lemma RunOne(s: State, op: Op)
    ensures Run(s, [op]) == Step(s, op)
  {
    assert [op][..0] == [];
    hide Step;
  }

  lemma {:induction false} FreshId(ids: set<nat>) returns (id: nat)
    ensures forall i :: i in ids ==> i < id
  {
    if ids == {} {
      id := 0;
    } else {
      var i :| i in ids;
      var rest := FreshId(ids - {i});
      id := if i < rest then rest else i + 1;
      assert forall j :: j in ids ==> j == i || j in ids - {i};
    }
  }

  function NewDocument(d: nat, a: nat, text: seq<Section>, shown: Option<nat>, width: nat): seq<Op> {
    [Upload(d)] + [Begin(a, d)] + [CutUp(a, text, 1, shown)] + [Embed(a, [width])] + [Finish(a)]
  }

  /** A document nobody has touched can be ingested at the locked width, or at any when there is
      none, and disturbs no row. */
  lemma NewDocumentStores(s: State, d: nat, a: nat, text: seq<Section>, width: nat)
    requires Owned(s) && Drawn(s) && d !in s.uploaded && a !in s.attempts
    requires Bodies(text) != [] && (s.locked.Some? ==> s.locked.value == width)
    ensures var after := Run(s, NewDocument(d, a, text, s.locked, width));
            && (forall r :: r in s.rows ==> r in after.rows)
            && exists r :: r in after.rows && r.width == width
  {
    CutShape(text, 1);
    var chunks := Cut(text, 1);
    hide Cut, WellCut, Bodies, Owned, Drawn;
    var s1 := s.(documents := s.documents[d := Document(Pending, 0)], uploaded := s.uploaded + {d});
    var s2 := s1.(attempts := s.attempts[a := Attempt(d, Begun)]);
    var s3 := s1.(attempts := s.attempts[a := Attempt(d, Chunked(chunks, s.locked))]);
    var s4 := s1.(attempts := s.attempts[a := Attempt(d, Embedded(chunks, width))], locked := Some(width));
    assert Step(s, Upload(d)) == s1;
    assert Step(s1, Begin(a, d)) == s2;
    CutsNew(s2, a, text, s3);
    EmbedsNew(s3, a, width, s4);
    assert Step(s4, Finish(a)) == Publish(s4, a);
    RunFive(s, Upload(d), Begin(a, d), CutUp(a, text, 1, s.locked), Embed(a, [width]), Finish(a));
    var own := RowsFor(d, a, chunks, width);
    assert Publish(s4, a).rows == Without(s.rows, d) + own;
    WithoutHas(s.rows, d);
    forall r | r in s.rows
      ensures r.document != d
    {
      OwnedIsDrawn(s, r);
    }
    assert own[0] in own;
  }

  lemma OwnedIsDrawn(s: State, r: Row)
    requires Owned(s) && Drawn(s) && r in s.rows
    ensures r.document in s.uploaded
  {
  }

  lemma CutsNew(s: State, a: nat, text: seq<Section>, next: State)
    requires a in s.attempts && s.attempts[a].phase.Begun? && Cut(text, 1) != []
    requires next == s.(attempts := s.attempts[a := Attempt(s.attempts[a].document, Chunked(Cut(text, 1), s.locked))])
    ensures Step(s, CutUp(a, text, 1, s.locked)) == next
  {
    hide Cut;
  }

  lemma EmbedsNew(s: State, a: nat, width: nat, next: State)
    requires a in s.attempts && s.attempts[a].phase.Chunked? && s.attempts[a].phase.seen == s.locked
    requires |s.attempts[a].phase.chunks| == 1 && (s.locked.Some? ==> s.locked.value == width)
    requires next == s.(locked := Some(width), attempts := s.attempts[a :=
               Attempt(s.attempts[a].document, Embedded(s.attempts[a].phase.chunks, width))])
    ensures Step(s, Embed(a, [width])) == next
  {
    assert Settled([width], s.locked) == Some(width);
    hide Settled;
  }

  lemma RunFive(s: State, a: Op, b: Op, c: Op, d: Op, e: Op)
    ensures Run(s, [a] + [b] + [c] + [d] + [e]) == Step(Step(Step(Step(Step(s, a), b), c), d), e)
  {
    hide Step;
    RunOne(s, a);
    RunAppend(s, [a], [b]);
    RunOne(Run(s, [a]), b);
    RunAppend(s, [a] + [b], [c]);
    RunOne(Run(s, [a] + [b]), c);
    RunAppend(s, [a] + [b] + [c], [d]);
    RunOne(Run(s, [a] + [b] + [c]), d);
    RunAppend(s, [a] + [b] + [c] + [d], [e]);
    RunOne(Run(s, [a] + [b] + [c] + [d]), e);
  }

  /** A row the lock does not cover: one more document makes two widths. */
  lemma UncoveredRowMixes(s: State, r: Row, text: seq<Section>)
    requires Good(s) && r in s.rows && s.locked != Some(r.width) && Bodies(text) != []
    ensures exists ops :: TwoWidths(Run(s, ops).rows)
  {
    hide AttemptsGood, DocumentsGood, Owned, Drawn, Bodies, Run;
    var d := FreshId(s.uploaded);
    var a := FreshId(s.attempts.Keys);
    var width := if s.locked.Some? then s.locked.value else r.width + 1;
    NewDocumentStores(s, d, a, text, width);
    assert TwoWidths(Run(s, NewDocument(d, a, text, s.locked, width)).rows);
  }

  function Stores(b: nat, phase: Phase): seq<Op> {
    match phase
    case Chunked(chunks, Some(width)) => [Embed(b, seq(|chunks|, _ => width))] + [Finish(b)]
    case _ => [Finish(b)]
  }

  /** An attempt under way can store at the width it insists on, whatever is locked. */
  lemma InsistingStores(s: State, b: nat)
    requires Good(s) && b in s.attempts && Insists(s, b).Some?
    ensures var after := Run(s, Stores(b, s.attempts[b].phase));
            && Good(after) && after.locked == s.locked
            && exists r :: r in after.rows && Some(r.width) == Insists(s, b)
  {
    var phase, width := s.attempts[b].phase, Insists(s, b).value;
    assert PhaseGood(phase);
    var ready := Moved(s, b, Embedded(phase.chunks, width));
    FinishStores(ready, b);
    if phase.Chunked? {
      InsistingEmbeds(s, b);
      hide *;
      var widths := seq(|phase.chunks|, _ => width);
      StepKeepsGood(s, Embed(b, widths));
      StepKeepsGood(ready, Finish(b));
      StoresAre(b, phase);
      RunOne(s, Embed(b, widths));
      RunAppend(s, [Embed(b, widths)], [Finish(b)]);
      RunOne(ready, Finish(b));
    } else {
      assert s.attempts[b := s.attempts[b]] == s.attempts;
      assert ready == s;
      StoresAre(b, phase);
      hide *;
      StepKeepsGood(s, Finish(b));
      RunOne(s, Finish(b));
    }
  }

  lemma StoresAre(b: nat, phase: Phase)
    ensures phase.Chunked? && phase.seen.Some? ==>
              Stores(b, phase) == [Embed(b, seq(|phase.chunks|, _ => phase.seen.value))] + [Finish(b)]
    ensures phase.Embedded? ==> Stores(b, phase) == [Finish(b)]
  {
  }

  lemma FinishStores(s: State, b: nat)
    requires b in s.attempts && s.attempts[b].document in s.documents
    requires s.attempts[b].phase.Embedded? && s.attempts[b].phase.chunks != []
    ensures var after := Step(s, Finish(b));
            && after.locked == s.locked
            && exists r :: r in after.rows && r.width == s.attempts[b].phase.width
  {
    var d, phase := s.attempts[b].document, s.attempts[b].phase;
    var own := RowsFor(d, b, phase.chunks, phase.width);
    hide Without;
    var rest := Without(s.rows, d);
    assert own[0].width == phase.width && (rest + own)[|rest|] == own[0];
    assert Step(s, Finish(b)).rows == rest + own;
    assert own[0] in rest + own;
  }

  lemma InsistingEmbeds(s: State, b: nat)
    requires b in s.attempts && s.attempts[b].phase.Chunked? && s.attempts[b].phase.chunks != []
    requires s.attempts[b].phase.seen.Some?
    ensures var phase := s.attempts[b].phase;
            var widths := seq(|phase.chunks|, _ => phase.seen.value);
            Step(s, Embed(b, widths)) == Moved(s, b, Embedded(phase.chunks, phase.seen.value))
  {
    var phase := s.attempts[b].phase;
    var widths := seq(|phase.chunks|, _ => phase.seen.value);
    assert widths[0] == phase.seen.value;
    assert Settled(widths, phase.seen) == Some(phase.seen.value);
    hide Settled;
  }

  /** Whenever the widths in a chatbot disagree, some continuation stores vectors of two widths. */
  lemma {:induction false} DisagreementCanBeStored(s: State, text: seq<Section>)
    requires Good(s) && !OneWidth(s) && Bodies(text) != []
    ensures exists ops :: TwoWidths(Run(s, ops).rows)
  {
    hide AttemptsGood, DocumentsGood, Owned, Drawn, Bodies, Run, TwoWidths, Insists, Stores;
    if r :| r in s.rows && s.locked != Some(r.width) {
      UncoveredRowMixes(s, r, text);
    } else {
      var b :| b in s.attempts && Insists(s, b).Some? && s.locked != Insists(s, b);
      InsistingStores(s, b);
      var first := Stores(b, s.attempts[b].phase);
      var after := Run(s, first);
      var r :| r in after.rows && Some(r.width) == Insists(s, b);
      UncoveredRowMixes(after, r, text);
      var second :| TwoWidths(Run(after, second).rows);
      RunAppend(s, first, second);
      assert TwoWidths(Run(s, first + second).rows);
    }
  }

  /** So every such step of a run is one that can end in vectors of two widths. */
  lemma {:induction false} DivergingCanMix(ops: seq<Op>, op: Op, text: seq<Section>)
    requires NeverDiverges(ops) && Diverges(Run(NOTHING, ops), op) && Bodies(text) != []
    ensures exists later :: TwoWidths(Run(Step(Run(NOTHING, ops), op), later).rows)
  {
    hide OneWidth, Diverges, NeverDiverges, AttemptsGood, DocumentsGood, Owned, Drawn, Step, Run, Bodies;
    RunKeepsGood(ops);
    RunKeepsOneWidth(ops);
    StepKeepsGood(Run(NOTHING, ops), op);
    StepWidth(Run(NOTHING, ops), op);
    DisagreementCanBeStored(Step(Run(NOTHING, ops), op), text);
  }

  lemma RunTwo(ops: seq<Op>, op: Op, last: Op)
    ensures Run(NOTHING, ops + [op] + [last]) == Step(Step(Run(NOTHING, ops), op), last)
  {
    assert (ops + [op])[..|ops|] == ops;
    assert (ops + [op] + [last])[..|ops| + 1] == ops + [op];
    hide Step;
  }

  /** Two documents ingested at once before the chatbot has a lock. */
  function TwoFirsts(text: seq<Section>): seq<Op> {
    [] + [Upload(1)] + [Upload(2)] + [Begin(1, 1)] + [Begin(2, 2)] + [CutUp(1, text, 1, None)]
    + [CutUp(2, text, 1, None)] + [Embed(1, [3])] + [Embed(2, [2])] + [Finish(1)] + [Finish(2)]
  }

  function BothAt(locked: Option<nat>, one: Phase, two: Phase): State {
    State(map[1 := Document(Pending, 0), 2 := Document(Pending, 0)], [], locked,
          map[1 := Attempt(1, one), 2 := Attempt(2, two)], {1, 2})
  }

  lemma FirstSteps()
    ensures Step(Step(Step(Step(NOTHING, Upload(1)), Upload(2)), Begin(1, 1)), Begin(2, 2))
         == BothAt(None, Begun, Begun)
  {
  }

  lemma {:induction false} CutSteps(text: seq<Section>, chunks: seq<Chunk>)
    requires chunks == Cut(text, 1) && chunks != []
    ensures Step(Step(BothAt(None, Begun, Begun), CutUp(1, text, 1, None)), CutUp(2, text, 1, None))
         == BothAt(None, Chunked(chunks, None), Chunked(chunks, None))
  {
    hide Cut;
  }

  lemma EmbedSteps(chunks: seq<Chunk>)
    requires |chunks| == 1
    ensures Step(Step(BothAt(None, Chunked(chunks, None), Chunked(chunks, None)), Embed(1, [3])), Embed(2, [2]))
         == BothAt(Some(2), Embedded(chunks, 3), Embedded(chunks, 2))
  {
    assert Settled([3], None) == Some(3) && Settled([2], None) == Some(2);
    hide Settled;
  }

  lemma FinishSteps(chunks: seq<Chunk>)
    requires |chunks| == 1
    ensures var s := Step(Step(BothAt(Some(2), Embedded(chunks, 3), Embedded(chunks, 2)), Finish(1)), Finish(2));
            && s.locked == Some(2) && s.rows == RowsFor(1, 1, chunks, 3) + RowsFor(2, 2, chunks, 2)
            && s.documents == map[1 := Document(Ready, 1), 2 := Document(Ready, 1)]
  {
    var one := RowsFor(1, 1, chunks, 3);
    WithoutOthers(one, 2);
    assert [] + one == one;
    hide RowsFor;
  }

  /** The lock is not written once: the second attempt overwrites the first, and both documents
      end up ready with vectors that cannot be compared. */
  lemma {:induction false} TwoFirstsMixWidths(text: seq<Section>)
    requires Bodies(text) != []
    ensures var s := Run(NOTHING, TwoFirsts(text));
            && s.locked == Some(2) && |s.rows| == 2 && s.rows[0].width == 3 && s.rows[1].width == 2
            && s.documents == map[1 := Document(Ready, 1), 2 := Document(Ready, 1)]
  {
    CutShape(text, 1);
    var chunks := Cut(text, 1);
    hide Cut, WellCut, Bodies, Settled, Step;
    var ops := [] + [Upload(1)] + [Upload(2)];
    RunTwo([], Upload(1), Upload(2));
    RunTwo(ops, Begin(1, 1), Begin(2, 2));
    FirstSteps();
    ops := ops + [Begin(1, 1)] + [Begin(2, 2)];
    RunTwo(ops, CutUp(1, text, 1, None), CutUp(2, text, 1, None));
    CutSteps(text, chunks);
    ops := ops + [CutUp(1, text, 1, None)] + [CutUp(2, text, 1, None)];
    RunTwo(ops, Embed(1, [3]), Embed(2, [2]));
    EmbedSteps(chunks);
    ops := ops + [Embed(1, [3])] + [Embed(2, [2])];
    RunTwo(ops, Finish(1), Finish(2));
    FinishSteps(chunks);
  }

  lemma {:induction false} WithoutOthers(rows: seq<Row>, d: nat)
    requires forall r :: r in rows ==> r.document != d
    ensures Without(rows, d) == rows
  {
    if rows != [] {
      assert rows[0] in rows && forall r :: r in rows[1..] ==> r in rows;
      WithoutOthers(rows[1..], d);
      assert rows == [rows[0]] + rows[1..];
    }
  }

  // ---------------------------------------------------------------------------------------
  // One attempt with nothing in between

  datatype Outcome = Missing | Refused | Completed(chunkCount: nat)

  /** What an undisturbed attempt leaves of documents, rows and lock. */
  function Processed(documents: map<nat, Document>, rows: seq<Row>, locked: Option<nat>, a: nat, d: nat,
                     sections: seq<Section>, ceiling: int, widths: seq<nat>)
    : (map<nat, Document>, seq<Row>, Option<nat>)
  {
    if d !in documents then (documents, rows, locked)
    else
      var chunks, settled := Cut(sections, ceiling), Settled(widths, locked);
      if chunks == [] || |widths| != |chunks| || settled.None? then
        (documents[d := Document(Processing, documents[d].chunkCount)], rows, locked)
      else
        (documents[d := Document(Ready, |chunks|)], Without(rows, d) + RowsFor(d, a, chunks, settled.value), settled)
  }

  class Pipeline {
    var documents: map<nat, Document>
    var rows: seq<Row>
    var locked: Option<nat>

    constructor ()
      ensures documents == map[] && rows == [] && locked == None
    {
      documents, rows, locked := map[], [], None;
    }

    /** `_set_status` without a count. */
    method MarkAs(d: nat, status: Status)
      modifies this`documents
      ensures documents == SetStatus(State(old(documents), rows, locked, map[], {}), d, status).documents
      ensures documents == if d !in old(documents) then old(documents)
                           else old(documents)[d := Document(status, old(documents)[d].chunkCount)]
    {
      if d !in documents {
        return;
      }
      documents := documents[d := documents[d].(status := status)];
    }

    /** `process_document`: a retry replaces what an earlier attempt left, and nothing else. */
    method ProcessDocument(a: nat, d: nat, sections: seq<Section>, ceiling: int, widths: seq<nat>)
      returns (outcome: Outcome)
      modifies this
      ensures (documents, rows, locked)
           == Processed(old(documents), old(rows), old(locked), a, d, sections, ceiling, widths)
      ensures outcome == Missing <==> d !in old(documents)
      ensures outcome == Missing ==> documents == old(documents)
      ensures var chunks := Cut(sections, ceiling);
              var unusable := chunks == [] || |widths| != |chunks| || Settled(widths, old(locked)).None?;
              outcome == Refused <==> d in old(documents) && unusable
      ensures !outcome.Completed? ==> rows == old(rows) && locked == old(locked)
      ensures outcome == Refused ==>
                documents == old(documents)[d := Document(Processing, old(documents)[d].chunkCount)]
      ensures outcome.Completed? ==>
                var chunks := Cut(sections, ceiling);
                && outcome.chunkCount == |chunks| >= 1
                && documents == old(documents)[d := Document(Ready, |chunks|)]
                && locked == Settled(widths, old(locked)) && locked.Some?
                && RowsOf(rows, d) == RowsFor(d, a, chunks, locked.value) && |RowsOf(rows, d)| == |chunks|
                && (forall i :: 0 <= i < |chunks| ==>
                      RowsOf(rows, d)[i] == Row(d, i, chunks[i].content, locked.value, a))
                && forall e :: e != d ==> RowsOf(rows, e) == RowsOf(old(rows), e)
    {
      hide Cut, Settled, RowsOf, RowsFor, Without;
      if d !in documents {
        return Missing;
      }
      MarkAs(d, Processing);
      var chunks := ChunkSections(sections, ceiling);
      if chunks == [] || |widths| != |chunks| {
        return Refused;
      }
      var settled := Settled(widths, locked);
      if settled.None? {
        return Refused;
      }
      var width := settled.value;
      if locked.None? {
        locked := Some(width);
      }
      SettledAgrees(widths, old(locked));
      forall e
        ensures RowsOf(Without(rows, d) + RowsFor(d, a, chunks, width), e) ==
                  if e == d then RowsFor(d, a, chunks, width) else RowsOf(rows, e)
      {
        RowsAfterPublish(rows, d, a, chunks, width, e);
      }
      assert settled == Some(width);
      RowsOfCut(d, a, sections, ceiling, width);
      rows := Without(rows, d) + RowsFor(d, a, chunks, width);
      documents := documents[d := Document(Ready, |chunks|)];
      assert documents == old(documents)[d := Document(Ready, |chunks|)];
      return Completed(|chunks|);
    }
  }

  /** Row `i` of an attempt is chunk `i`. */
  lemma RowsOfCut(d: nat, a: nat, sections: seq<Section>, ceiling: int, width: nat)
    ensures var chunks := Cut(sections, ceiling); var rows := RowsFor(d, a, chunks, width);
            && |rows| == |chunks|
            && forall i :: 0 <= i < |chunks| ==> rows[i] == Row(d, i, chunks[i].content, width, a)
  {
    CutShape(sections, ceiling);
    hide Cut;
  }

  lemma SettledAgrees(widths: seq<nat>, locked: Option<nat>)
    ensures locked.Some? && Settled(widths, locked).Some? ==> Settled(widths, locked) == locked
  {
  }

  /** The method is the steps of one attempt, reading the lock as it stands, with nothing in between. */
  lemma {:induction false} AttemptAloneIsProcessed(s: State, a: nat, d: nat, sections: seq<Section>, ceiling: int,
                                                   widths: seq<nat>)
    requires a !in s.attempts
    ensures var after := Run(s, [Begin(a, d)] + [MarkProcessing(a)] + [CutUp(a, sections, ceiling, s.locked)]
                              + [Embed(a, widths)] + [Finish(a)]);
            var left := (after.documents, after.rows, after.locked);
            left == Processed(s.documents, s.rows, s.locked, a, d, sections, ceiling, widths)
  {
    RunFive(s, Begin(a, d), MarkProcessing(a), CutUp(a, sections, ceiling, s.locked), Embed(a, widths), Finish(a));
    hide Run, Cut, Settled, RowsFor, Without;
    if d in s.documents {
      var marked := SetStatus(s.(attempts := s.attempts[a := Attempt(d, Begun)]), d, Processing);
      assert Step(Step(s, Begin(a, d)), MarkProcessing(a)) == marked;
      FromMarked(marked, a, sections, ceiling, widths);
      hide Step;
      assert marked.documents[d := Document(Ready, |Cut(sections, ceiling)|)]
          == s.documents[d := Document(Ready, |Cut(sections, ceiling)|)];
    }
  }

  lemma FromMarked(s: State, a: nat, sections: seq<Section>, ceiling: int, widths: seq<nat>)
    requires a in s.attempts && s.attempts[a].phase.Begun? && s.attempts[a].document in s.documents
    ensures var d := s.attempts[a].document;
            var after := Step(Step(Step(s, CutUp(a, sections, ceiling, s.locked)), Embed(a, widths)), Finish(a));
            var chunks, settled := Cut(sections, ceiling), Settled(widths, s.locked);
            var unusable := chunks == [] || |widths| != |chunks| || settled.None?;
            && (unusable ==> after.documents == s.documents && after.rows == s.rows && after.locked == s.locked)
            && (!unusable ==>
                && after.documents == s.documents[d := Document(Ready, |chunks|)]
                && after.rows == Without(s.rows, d) + RowsFor(d, a, chunks, settled.value)
                && after.locked == settled)
  {
    SettledAgrees(widths, s.locked);
    hide Cut, Settled, RowsFor, Without;
  }
}
