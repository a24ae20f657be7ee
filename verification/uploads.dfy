/** `app/services/document.py`: metering an upload while it streams, and the order in which an
    upload checks, stores, charges and records. */
module Uploads {
  import opened Arithmetic
  import opened Text
  import opened UsageCaps

  type Bytes = seq<bv8>

  /** How `_MeteredStream` ends. */
  datatype Metered = Complete | TooLarge | WrongMagic | Empty

  /** What the settings say: the size limit, and how much is asked for in one read. */
  datatype Limits = Limits(maxBytes: nat, chunkSize: int)

  /** `read(n)`: everything for a negative `n`. */
  function Read(rest: Bytes, n: int): Bytes {
    if n < 0 then rest else rest[..Min(n, |rest|)]
  }

  /** The verdict on a whole file. The magic number is looked for in the first read alone. */
  function Judge(file: Bytes, magic: Bytes, limits: Limits): Metered {
    var first := Read(file, limits.chunkSize);
    if first == [] then Empty
    else if !(magic <= first) then WrongMagic
    else if |file| > limits.maxBytes then TooLarge
    else Complete
  }

  lemma JudgedComplete(file: Bytes, magic: Bytes, limits: Limits)
    ensures Judge(file, magic, limits) == Complete ==> 0 < |file| <= limits.maxBytes && magic <= file
    ensures limits.chunkSize < 0 || (limits.chunkSize > 0 && limits.chunkSize >= |magic|) ==>
              (Judge(file, magic, limits) == Complete <==> 0 < |file| <= limits.maxBytes && magic <= file)
  {
    var first := Read(file, limits.chunkSize);
    assert first == file[..|first|];
    assert |magic| <= |first| ==> file[..|magic|] == first[..|magic|];
  }

  /** `_MeteredStream.__aiter__` */
  method Meter(file: Bytes, magic: Bytes, limits: Limits)
    returns (outcome: Metered, size: nat, forwarded: Bytes)
    ensures outcome == Judge(file, magic, limits)
    ensures forwarded <= file && |forwarded| <= limits.maxBytes
    ensures outcome == Complete ==> size == |file| && forwarded == file
  {
    size, forwarded := 0, [];
    var first := true;
    var chunk := Read(file, limits.chunkSize);
    while chunk != []
      invariant size <= |file| && size <= limits.maxBytes && forwarded == file[..size]
      invariant chunk == Read(file[size..], limits.chunkSize)
      invariant first <==> size == 0
      invariant size > 0 ==> Read(file, limits.chunkSize) != [] && magic <= Read(file, limits.chunkSize)
      decreases |file| - size
    {
      assert file[size..][..|chunk|] == chunk;
      if first {
        assert file[0..] == file;
        if !(magic <= chunk) {
          return WrongMagic, size, forwarded;
        }
        first := false;
      }
      size := size + |chunk|;
      if size > limits.maxBytes {
        return TooLarge, size, forwarded;
      }
      assert file[..size] == forwarded + chunk;
      forwarded := forwarded + chunk;
      chunk := Read(file[size..], limits.chunkSize);
    }
    assert file[0..] == file;
    if size == 0 {
      return Empty, size, forwarded;
    }
    return Complete, size, forwarded;
  }

  // ---------------------------------------------------------------------------------------
  // `upload_document`

  datatype Outcome = Accepted | Refused | Broken

  /** The request, and what the outside world does to it. */
  datatype Upload = Upload(
    id: nat, file: Bytes, magic: Bytes, key: Key, cap: Option<int>,
    shownBefore: Option<Table>,                          // what the first check reads
    countersUp: bool, shownAfter: Option<Table>,         // the charge, and what a refusal reports
    storageFails: bool, rowFails: bool)

  function ChargeOf(u: Upload): Charge {
    Charge(u.key, Ingestion, IngestionUnits(|u.file|), u.cap, u.countersUp, u.shownAfter)
  }

  /** How far an upload has come. `counted` says whether its charge reached the counter: with the
      counters down a deployment that fails open lets it through uncounted. */
  datatype Stage =
    | Cleared                     // the first check passed, the file is on its way
    | Turned                      // refused, by either check or for what it is
    | Lost                        // storage failed before anything was charged
    | Paid(counted: bool)         // charged, the row not yet written
    | Recorded(counted: bool)
    | Orphaned(counted: bool)     // charged, and then the row could not be written

  function AskFor(u: Upload, failClosed: bool): Stage {
    if Room(u.shownBefore, u.key, Ingestion, u.cap, failClosed).allowed then Cleared else Turned
  }

  /** The transfer and the second check, once the size is known. */
  function Settle(table: Table, u: Upload, limits: Limits, failClosed: bool): (Table, Stage) {
    if u.storageFails then (table, Lost)
    else if Judge(u.file, u.magic, limits) != Complete then (table, Turned)
    else
      var (after, verdict) := Charged(table, ChargeOf(u), failClosed);
      (after, if verdict.allowed then Paid(Counts(verdict)) else Turned)
  }

  function Record(u: Upload, counted: bool): Stage {
    if u.rowFails then Orphaned(counted) else Recorded(counted)
  }

  /** All three with nothing in between. */
  function Alone(table: Table, u: Upload, limits: Limits, failClosed: bool): (Table, Stage) {
    if AskFor(u, failClosed) != Cleared then (table, Turned)
    else
      var (after, stage) := Settle(table, u, limits, failClosed);
      (after, if stage.Paid? then Record(u, stage.counted) else stage)
  }

  function OutcomeOf(stage: Stage): Outcome {
    match stage
    case Recorded(_) => Accepted
    case Turned => Refused
    case _ => Broken
  }

  // What the caller can tell of an upload from the request, the settings and the counters

  /** The chatbot is uncapped or seen below its cap; unseen, the deployment fails open. */
  predicate HasHeadroom(u: Upload, failClosed: bool) {
    || u.cap.None?
    || (u.shownBefore.None? && !failClosed)
    || (u.shownBefore.Some? && Used(u.shownBefore.value, u.key, Ingestion) < u.cap.value)
  }

  /** There is something to read, it begins as its type does, and it keeps to the limit. */
  predicate Acceptable(u: Upload, limits: Limits) {
    var head := Read(u.file, limits.chunkSize);
    head != [] && u.magic <= head && |u.file| <= limits.maxBytes
  }

  /** The charge is decided by the counters: it passes any cap on its own, or the statement runs. */
  predicate CarriedOut(u: Upload, used: nat) {
    var units := IngestionUnits(|u.file|);
    || (u.cap.Some? && u.cap.value < units)
    || (u.countersUp && used + units <= INT4_MAX && (u.cap.Some? ==> u.cap.value <= INT4_MAX))
  }

  predicate Fits(u: Upload, used: nat, failClosed: bool) {
    if CarriedOut(u, used) then u.cap.Some? ==> used + IngestionUnits(|u.file|) <= u.cap.value
    else !failClosed
  }

  /** The upload gets as far as its charge, and the charge is let through. */
  predicate IsCharged(u: Upload, used: nat, limits: Limits, failClosed: bool) {
    HasHeadroom(u, failClosed) && !u.storageFails && Acceptable(u, limits) && Fits(u, used, failClosed)
  }

  function WithUnits(table: Table, key: Key, units: nat): Table {
    if key in table then table[key := Row(table[key].ingestion + units, table[key].retrieval)]
    else table[key := Row(units, 0)]
  }

  /** The three steps in these terms. */
  lemma {:induction false} AloneMeans(table: Table, u: Upload, limits: Limits, failClosed: bool)
    ensures var (after, stage) := Alone(table, u, limits, failClosed);
            var used := Used(table, u.key, Ingestion);
            var charged := IsCharged(u, used, limits, failClosed);
            && (OutcomeOf(stage) == Accepted <==> charged && !u.rowFails)
            && (OutcomeOf(stage) == Refused <==>
                  || !HasHeadroom(u, failClosed)
                  || (!u.storageFails && !(Acceptable(u, limits) && Fits(u, used, failClosed))))
            && after == (if charged && CarriedOut(u, used) then WithUnits(table, u.key, IngestionUnits(|u.file|))
                         else table)
  {
    ConsumeRefinesCounter(table, ChargeOf(u), failClosed);
    hide Charged, Execute, IngestionUnits;
  }

  class DocumentService {
    const limits: Limits
    const usage: UsageStore
    var objects: map<nat, Bytes>
    var rows: map<nat, nat>

    constructor (limits: Limits, usage: UsageStore)
      ensures this.limits == limits && this.usage == usage
      ensures objects == map[] && rows == map[]
    {
      this.limits, this.usage := limits, usage;
      objects, rows := map[], map[];
    }

    /** Nothing is left behind by a refusal; an acceptance leaves the object, the row and one
        exact charge; a row that cannot be written leaves the object and the charge; a failing
        storage leaves at most a beginning of the object. */
    method UploadDocument(u: Upload) returns (outcome: Outcome)
      requires u.id !in objects && u.id !in rows
      modifies this, usage
      ensures var (table, stage) := Alone(old(usage.table), u, limits, usage.failClosed);
              outcome == OutcomeOf(stage) && usage.table == table
      ensures var used := Used(old(usage.table), u.key, Ingestion);
              var charged := IsCharged(u, used, limits, usage.failClosed);
              && (outcome == Accepted <==> charged && !u.rowFails)
              && (outcome == Refused <==>
                    || !HasHeadroom(u, usage.failClosed)
                    || (!u.storageFails && !(Acceptable(u, limits) && Fits(u, used, usage.failClosed))))
              && usage.table == (if charged && CarriedOut(u, used)
                                 then WithUnits(old(usage.table), u.key, IngestionUnits(|u.file|))
                                 else old(usage.table))
      ensures outcome == Refused ==> objects == old(objects) && rows == old(rows) && usage.table == old(usage.table)
      ensures outcome == Accepted ==>
                && 0 < |u.file| <= limits.maxBytes && u.magic <= u.file
                && objects == old(objects)[u.id := u.file] && rows == old(rows)[u.id := |u.file|]
      ensures outcome == Broken && !u.storageFails ==> objects == old(objects)[u.id := u.file] && rows == old(rows)
      ensures outcome == Broken && u.storageFails ==>
                && rows == old(rows) && usage.table == old(usage.table)
                && u.id in objects && objects[u.id] <= u.file && objects - {u.id} == old(objects)
    {
      hide Execute, Judge, Room, Charged, IsCharged, HasHeadroom, Acceptable, Fits, CarriedOut, WithUnits;
      AloneMeans(usage.table, u, limits, usage.failClosed);
      var room := usage.Headroom(u.shownBefore, u.key, Ingestion, u.cap);
      if !room.allowed {
        return Refused;
      }
      var metered, size, forwarded := Meter(u.file, u.magic, limits);
      objects := objects[u.id := forwarded];
      if u.storageFails {
        return Broken;
      }
      if metered != Complete {
        objects := objects - {u.id};
        return Refused;
      }
      JudgedComplete(u.file, u.magic, limits);
      var charge := Charge(u.key, Ingestion, IngestionUnits(size), u.cap, u.countersUp, u.shownAfter);
      var spend := usage.Consume(charge);
      if !spend.allowed {
        objects := objects - {u.id};
        RefusedIsFree(old(usage.table), ChargeOf(u), usage.failClosed);
        return Refused;
      }
      if u.rowFails {
        return Broken;
      }
      rows := rows[u.id := size];
      return Accepted;
    }
  }

  lemma RefusedIsFree(table: Table, c: Charge, failClosed: bool)
    requires !Charged(table, c, failClosed).1.allowed
    ensures Charged(table, c, failClosed).0 == table
  {
  }

  // ---------------------------------------------------------------------------------------
  // Many uploads at once, and charges from elsewhere

  datatype Entry = Entry(upload: Upload, stage: Stage)

  /** The counters, the uploads in the order they arrived, and what others were charged. */
  datatype Ledger = Ledger(table: Table, entries: seq<Entry>, others: seq<Charge>)

  datatype Op =
    | Arrive(upload: Upload)
    | Transferred(at: nat)          // positions in the order of arrival
    | Write(at: nat)
    | Elsewhere(charge: Charge)

  function Step(l: Ledger, op: Op, limits: Limits, failClosed: bool): Ledger {
    match op
    case Arrive(u) => l.(entries := l.entries + [Entry(u, AskFor(u, failClosed))])
    case Transferred(k) =>
      if k >= |l.entries| || l.entries[k].stage != Cleared then l
      else
        var u := l.entries[k].upload;
        var (after, stage) := Settle(l.table, u, limits, failClosed);
        l.(table := after, entries := l.entries[k := Entry(u, stage)])
    case Write(k) =>
      if k >= |l.entries| || !l.entries[k].stage.Paid? then l
      else
        var u := l.entries[k].upload;
        l.(entries := l.entries[k := Entry(u, Record(u, l.entries[k].stage.counted))])
    case Elsewhere(c) =>
      var (after, verdict) := Charged(l.table, c, failClosed);
      l.(table := after, others := if Counts(verdict) then l.others + [c] else l.others)
  }

  function RunAll(ops: seq<Op>, limits: Limits, failClosed: bool): Ledger {
    if ops == [] then Ledger(map[], [], [])
    else Step(RunAll(ops[..|ops| - 1], limits, failClosed), ops[|ops| - 1], limits, failClosed)
  }

  /** The units of the uploads to `key` that satisfy `which`. */
  function Units(entries: seq<Entry>, key: Key, which: Stage -> bool): nat {
    if entries == [] then 0
    else
      var last := entries[|entries| - 1];
      Units(entries[..|entries| - 1], key, which) + Weight(last, key, which)
  }

  function Weight(e: Entry, key: Key, which: Stage -> bool): nat {
    if e.upload.key == key && which(e.stage) then IngestionUnits(|e.upload.file|) else 0
  }

  function Sum(charges: seq<Charge>, key: Key, kind: Kind): nat {
    if charges == [] then 0
    else
      var last := charges[|charges| - 1];
      Sum(charges[..|charges| - 1], key, kind) + if last.key == key && last.kind == kind then last.amount else 0
  }

  predicate Counted(stage: Stage) {
    (stage.Paid? || stage.Recorded? || stage.Orphaned?) && stage.counted
  }

  predicate Waiting(stage: Stage) {
    stage.Paid? && stage.counted
  }

  predicate Kept(stage: Stage) {
    stage.Recorded? && stage.counted
  }

  predicate Wasted(stage: Stage) {
    stage.Orphaned? && stage.counted
  }

  lemma {:induction false} UnitsAfterChange(entries: seq<Entry>, k: nat, next: Entry, key: Key, which: Stage -> bool)
    requires k < |entries|
    ensures Units(entries[k := next], key, which) + Weight(entries[k], key, which)
         == Units(entries, key, which) + Weight(next, key, which)
  {
    var n := |entries| - 1;
    if k == n {
      assert entries[k := next][..n] == entries[..n];
    } else {
      assert entries[k := next][..n] == entries[..n][k := next];
      UnitsAfterChange(entries[..n], k, next, key, which);
    }
  }

  lemma UnitsSnoc(entries: seq<Entry>, e: Entry, key: Key, which: Stage -> bool)
    ensures Units(entries + [e], key, which) == Units(entries, key, which) + Weight(e, key, which)
  {
    assert (entries + [e])[..|entries|] == entries;
  }

  lemma SumSnoc(charges: seq<Charge>, c: Charge, key: Key, kind: Kind)
    ensures Sum(charges + [c], key, kind)
         == Sum(charges, key, kind) + if c.key == key && c.kind == kind then c.amount else 0
  {
    assert (charges + [c])[..|charges|] == charges;
  }

  /** Every counter of a chatbot's month is what uploads and others were charged against it. */
  ghost predicate Balanced(l: Ledger, key: Key) {
    && Used(l.table, key, Ingestion) == Units(l.entries, key, Counted) + Sum(l.others, key, Ingestion)
    && Used(l.table, key, Retrieval) == Sum(l.others, key, Retrieval)
  }

  lemma ChargeMoves(table: Table, c: Charge, key: Key, kind: Kind, failClosed: bool)
    ensures var (after, verdict) := Charged(table, c, failClosed);
            Used(after, key, kind) == Used(table, key, kind) +
              if Counts(verdict) && c.key == key && c.kind == kind then c.amount else 0
  {
    ConsumeRefinesCounter(table, c, failClosed);
    hide Charged;
  }

  /** What settling an upload adds to the counter is what its stage then weighs. */
  lemma SettleMoves(table: Table, u: Upload, key: Key, limits: Limits, failClosed: bool)
    ensures var (after, stage) := Settle(table, u, limits, failClosed);
            && Used(after, key, Ingestion) == Used(table, key, Ingestion) + Weight(Entry(u, stage), key, Counted)
            && Used(after, key, Retrieval) == Used(table, key, Retrieval)
            && Weight(Entry(u, Cleared), key, Counted) == 0
  {
    hide Charged, Judge, Used;
    ChargeMoves(table, ChargeOf(u), key, Ingestion, failClosed);
    ChargeMoves(table, ChargeOf(u), key, Retrieval, failClosed);
  }

  lemma TransferBalances(l: Ledger, k: nat, key: Key, limits: Limits, failClosed: bool)
    requires Balanced(l, key) && k < |l.entries| && l.entries[k].stage == Cleared
    ensures Balanced(Step(l, Transferred(k), limits, failClosed), key)
  {
    hide Settle, Units, Sum, Used, Weight;
    var u := l.entries[k].upload;
    assert l.entries[k] == Entry(u, Cleared);
    SettleMoves(l.table, u, key, limits, failClosed);
    UnitsAfterChange(l.entries, k, Entry(u, Settle(l.table, u, limits, failClosed).1), key, Counted);
  }

  lemma WriteBalances(l: Ledger, k: nat, key: Key, limits: Limits, failClosed: bool)
    requires Balanced(l, key) && k < |l.entries| && l.entries[k].stage.Paid?
    ensures Balanced(Step(l, Write(k), limits, failClosed), key)
  {
    hide Units, Sum, Used;
    var u := l.entries[k].upload;
    UnitsAfterChange(l.entries, k, Entry(u, Record(u, l.entries[k].stage.counted)), key, Counted);
  }

  lemma ElsewhereBalances(l: Ledger, c: Charge, key: Key, limits: Limits, failClosed: bool)
    requires Balanced(l, key)
    ensures Balanced(Step(l, Elsewhere(c), limits, failClosed), key)
  {
    hide Charged, Units, Sum, Used;
    ChargeMoves(l.table, c, key, Ingestion, failClosed);
    ChargeMoves(l.table, c, key, Retrieval, failClosed);
    SumSnoc(l.others, c, key, Ingestion);
    SumSnoc(l.others, c, key, Retrieval);
  }

  lemma StepBalances(l: Ledger, op: Op, key: Key, limits: Limits, failClosed: bool)
    requires Balanced(l, key)
    ensures Balanced(Step(l, op, limits, failClosed), key)
  {
    match op
    case Arrive(u) =>
      hide Units, Sum, Used, AskFor;
      UnitsSnoc(l.entries, Entry(u, AskFor(u, failClosed)), key, Counted);
      AskedWeighsNothing(u, key, failClosed);
    case Transferred(k) =>
      hide Balanced, Settle;
      if k < |l.entries| && l.entries[k].stage == Cleared {
        TransferBalances(l, k, key, limits, failClosed);
      }
    case Write(k) =>
      hide Balanced;
      if k < |l.entries| && l.entries[k].stage.Paid? {
        WriteBalances(l, k, key, limits, failClosed);
      }
    case Elsewhere(c) =>
      hide Balanced, Step;
      ElsewhereBalances(l, c, key, limits, failClosed);
  }

  lemma AskedWeighsNothing(u: Upload, key: Key, failClosed: bool)
    ensures Weight(Entry(u, AskFor(u, failClosed)), key, Counted) == 0
  {
  }

  lemma {:induction false} CountedAre(entries: seq<Entry>, key: Key)
    ensures Units(entries, key, Counted)
         == Units(entries, key, Kept) + Units(entries, key, Wasted) + Units(entries, key, Waiting)
  {
    if entries != [] {
      CountedAre(entries[..|entries| - 1], key);
    }
  }

  lemma {:induction false} RunBalances(ops: seq<Op>, key: Key, limits: Limits, failClosed: bool)
    ensures Balanced(RunAll(ops, limits, failClosed), key)
  {
    if ops != [] {
      RunBalances(ops[..|ops| - 1], key, limits, failClosed);
      hide Balanced, Step;
      StepBalances(RunAll(ops[..|ops| - 1], limits, failClosed), ops[|ops| - 1], key, limits, failClosed);
    }
  }

  /** However uploads interleave with each other and with charges from elsewhere: the ingestion
      counter is the units of the accepted uploads, of those whose row could not be written after
      the charge, of those between the two, and of what others charged. A refusal or a failing
      storage costs nothing. */
  lemma {:induction false} IngestionCounterIsUploads(ops: seq<Op>, key: Key, limits: Limits, failClosed: bool)
    ensures var l := RunAll(ops, limits, failClosed);
            Used(l.table, key, Ingestion) ==
              Units(l.entries, key, Kept) + Units(l.entries, key, Wasted) + Units(l.entries, key, Waiting)
              + Sum(l.others, key, Ingestion)
  {
    RunBalances(ops, key, limits, failClosed);
    CountedAre(RunAll(ops, limits, failClosed).entries, key);
    hide RunAll, Used, Units, Sum;
  }

  ghost predicate OneCap(op: Op, key: Key, cap: nat) {
    && (op.Arrive? && op.upload.key == key ==> op.upload.cap == Some(cap))
    && (op.Elsewhere? && op.charge.key == key && op.charge.kind == Ingestion ==> op.charge.cap == Some(cap))
  }

  ghost predicate UnderCap(l: Ledger, key: Key, cap: nat) {
    && Used(l.table, key, Ingestion) <= cap
    && forall k :: 0 <= k < |l.entries| && l.entries[k].upload.key == key ==> l.entries[k].upload.cap == Some(cap)
  }

  lemma ChargeKeepsCap(table: Table, c: Charge, key: Key, cap: nat, failClosed: bool)
    requires Used(table, key, Ingestion) <= cap
    requires c.key == key && c.kind == Ingestion ==> c.cap == Some(cap)
    ensures Used(Charged(table, c, failClosed).0, key, Ingestion) <= cap
  {
    ConsumeRefinesCounter(table, c, failClosed);
    hide Charged;
  }

  lemma StepKeepsCap(l: Ledger, op: Op, key: Key, cap: nat, limits: Limits, failClosed: bool)
    requires UnderCap(l, key, cap) && OneCap(op, key, cap)
    ensures UnderCap(Step(l, op, limits, failClosed), key, cap)
  {
    hide Charged, Judge, Room, Used;
    match op
    case Transferred(k) =>
      if k < |l.entries| {
        ChargeKeepsCap(l.table, ChargeOf(l.entries[k].upload), key, cap, failClosed);
      }
    case Elsewhere(c) =>
      ChargeKeepsCap(l.table, c, key, cap, failClosed);
    case _ =>
  }

  lemma {:induction false} RunKeepsCap(ops: seq<Op>, key: Key, cap: nat, limits: Limits, failClosed: bool)
    requires forall i :: 0 <= i < |ops| ==> OneCap(ops[i], key, cap)
    ensures UnderCap(RunAll(ops, limits, failClosed), key, cap)
  {
    if ops != [] {
      RunKeepsCap(ops[..|ops| - 1], key, cap, limits, failClosed);
      hide UnderCap, OneCap, Step;
      StepKeepsCap(RunAll(ops[..|ops| - 1], limits, failClosed), ops[|ops| - 1], key, cap, limits, failClosed);
    }
  }

  /** Under one cap no interleaving of uploads passes it, whatever the optimistic first check lets
      start: what was accepted, wasted or is still being written fits. */
  lemma {:induction false} UploadsStayUnderCap(ops: seq<Op>, key: Key, cap: nat, limits: Limits, failClosed: bool)
    requires forall i :: 0 <= i < |ops| ==> OneCap(ops[i], key, cap)
    ensures var l := RunAll(ops, limits, failClosed);
            Units(l.entries, key, Kept) + Units(l.entries, key, Wasted) + Units(l.entries, key, Waiting) <= cap
  {
    IngestionCounterIsUploads(ops, key, limits, failClosed);
    RunKeepsCap(ops, key, cap, limits, failClosed);
  }

  /** An upload the first check cleared is turned away in the end exactly when the file is not
      acceptable, its real cost does not fit what the counter says by then, or the counters are
      down and the deployment fails closed. */
  lemma TurnedAwayExactlyWhen(l: Ledger, k: nat, limits: Limits, failClosed: bool)
    requires k < |l.entries| && l.entries[k].stage == Cleared
    ensures var u := l.entries[k].upload;
            var units, used := IngestionUnits(|u.file|), Used(l.table, u.key, Ingestion);
            var carriedOut := (u.cap.Some? && units > u.cap.value) || Answerable(l.table, ChargeOf(u));
            var tooDear := if carriedOut then !Allows(used, units, u.cap) else failClosed;
            Step(l, Transferred(k), limits, failClosed).entries[k].stage == Turned <==>
              !u.storageFails && (Judge(u.file, u.magic, limits) != Complete || tooDear)
  {
    ConsumeRefinesCounter(l.table, ChargeOf(l.entries[k].upload), failClosed);
    hide Charged, Judge, Answerable;
  }

  /** With nothing in between, the three steps are the upload on its own. */
  lemma AloneIsThreeSteps(l: Ledger, u: Upload, limits: Limits, failClosed: bool)
    ensures var k := |l.entries|;
            var after := Step(Step(Step(l, Arrive(u), limits, failClosed), Transferred(k), limits, failClosed),
                              Write(k), limits, failClosed);
            var (table, stage) := Alone(l.table, u, limits, failClosed);
            after.table == table && after.entries == l.entries + [Entry(u, stage)]
  {
    hide Charged, Judge, Room;
  }
}
