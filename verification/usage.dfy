/** `app/services/usage.py`: monthly counters per chatbot and kind, charged by a guard in Python
    and one atomic upsert in Postgres. */
module UsageCaps {
  import opened Text

  const INGESTION_UNIT_BYTES := 4000
  const INT4_MAX: int := 0x7FFF_FFFF

  datatype Kind = Ingestion | Retrieval

  /** A calendar month in UTC, which is all `period_start` keeps of a moment. */
  datatype Month = Month(year: int, month: int)

  /** One row of `chatbot_usage_period`. */
  datatype Row = Row(ingestion: nat, retrieval: nat) {
    function Used(kind: Kind): nat {
      match kind case Ingestion => ingestion case Retrieval => retrieval
    }
  }

  datatype Key = Key(chatbot: nat, period: Month)

  type Table = map<Key, Row>

  datatype Verdict = Verdict(allowed: bool, used: nat, cap: Option<int>, unavailable: bool)

  /** What a caller asks for, whether the database answers when it does, and what a read-only
      session would show: the counters of a replica, which may lag, or nothing when it fails. */
  datatype Charge = Charge(key: Key, kind: Kind, amount: nat, cap: Option<int>, up: bool, shown: Option<Table>)

  function IngestionUnits(sizeBytes: nat): nat {
    (sizeBytes + INGESTION_UNIT_BYTES - 1) / INGESTION_UNIT_BYTES
  }

  /** The least number of units that covers the bytes; at least one for a non-empty file. */
  lemma UnitsAreLeast(sizeBytes: nat, units: nat)
    ensures IngestionUnits(sizeBytes) <= units <==> sizeBytes <= units * INGESTION_UNIT_BYTES
    ensures sizeBytes > 0 ==> IngestionUnits(sizeBytes) >= 1
  {
  }

  function RowAt(table: Table, key: Key): Row {
    if key in table then table[key] else Row(0, 0)
  }

  function Used(table: Table, key: Key, kind: Kind): nat {
    RowAt(table, key).Used(kind)
  }

  function Add(row: Row, kind: Kind, amount: nat): Row {
    match kind
    case Ingestion => row.(ingestion := row.ingestion + amount)
    case Retrieval => row.(retrieval := row.retrieval + amount)
  }

  // ---------------------------------------------------------------------------------------
  // The statement

  /** What the database says to `_CONSUME`: a row, no row, or an error. The columns are int4, so
      a sum that does not fit raises instead of wrapping. */
  datatype Answer = Returned(row: Row) | NoRow | Failed

  function Execute(table: Table, c: Charge): (Table, Answer) {
    var row := RowAt(table, c.key);
    var raised := Add(row, c.kind, c.amount);
    if !c.up || c.amount > INT4_MAX || (c.cap.Some? && c.cap.value > INT4_MAX) then (table, Failed)
    else if c.key !in table then (table[c.key := raised], Returned(raised))
    else if raised.Used(c.kind) > INT4_MAX then (table, Failed)
    else if c.cap.Some? && raised.Used(c.kind) > c.cap.value then (table, NoRow)
    else (table[c.key := raised], Returned(raised))
  }

  /** `_read_used`, when a failing read only spoils a report. */
  function Reported(shown: Option<Table>, key: Key, kind: Kind): nat {
    if shown.Some? then Used(shown.value, key, kind) else 0
  }

  /** `headroom` as a function of what the read-only session shows. */
  function Room(shown: Option<Table>, key: Key, kind: Kind, cap: Option<int>, failClosed: bool): Verdict {
    match cap
    case None => Verdict(true, 0, None, false)
    case Some(limit) =>
      if shown.None? then Verdict(!failClosed, 0, cap, true)
      else Verdict(Used(shown.value, key, kind) < limit, Used(shown.value, key, kind), cap, false)
  }

  /** `consume` as a function of the table. */
  function Charged(table: Table, c: Charge, failClosed: bool): (Table, Verdict) {
    if c.cap.Some? && c.amount > c.cap.value then
      (table, Verdict(false, Reported(c.shown, c.key, c.kind), c.cap, false))
    else
      var (after, answer) := Execute(table, c);
      match answer
      case Failed => (after, Verdict(!failClosed, 0, c.cap, true))
      case NoRow => (after, Verdict(false, Reported(c.shown, c.key, c.kind), c.cap, false))
      case Returned(row) => (after, Verdict(true, row.Used(c.kind), c.cap, false))
  }

  class UsageStore {
    const failClosed: bool
    var table: Table

    constructor (failClosed: bool)
      ensures this.failClosed == failClosed && table == map[]
    {
      this.failClosed := failClosed;
      table := map[];
    }

    /** Rollover, cap check and increment in one statement. */
    method Upsert(c: Charge) returns (answer: Answer)
      modifies this
      ensures (table, answer) == Execute(old(table), c)
    {
      if !c.up || c.amount > INT4_MAX || (c.cap.Some? && c.cap.value > INT4_MAX) {
        return Failed;
      }
      if c.key !in table {
        var inserted := Row(if c.kind.Ingestion? then c.amount else 0,
                          if c.kind.Retrieval? then c.amount else 0);
        table := table[c.key := inserted];
        return Returned(inserted);
      }
      var row := table[c.key];
      var total := row.Used(c.kind) + c.amount;
      if total > INT4_MAX {
        return Failed;
      }
      if !(c.cap.None? || total <= c.cap.value) {
        return NoRow;
      }
      var next := Row(row.ingestion + (if c.kind.Ingestion? then c.amount else 0),
                      row.retrieval + (if c.kind.Retrieval? then c.amount else 0));
      table := table[c.key := next];
      return Returned(next);
    }

    /** `consume` */
    method Consume(c: Charge) returns (verdict: Verdict)
      modifies this
      ensures (table, verdict) == Charged(old(table), c, failClosed)
    {
      if c.cap.Some? && c.amount > c.cap.value {
        return Verdict(false, Reported(c.shown, c.key, c.kind), c.cap, false);
      }
      var answer := Upsert(c);
      match answer {
        case Failed =>
          return Verdict(!failClosed, 0, c.cap, true);
        case NoRow =>
          return Verdict(false, Reported(c.shown, c.key, c.kind), c.cap, false);
        case Returned(row) =>
          return Verdict(true, row.Used(c.kind), c.cap, false);
      }
    }

    /** `headroom`: asks without charging, and without the table it will be charged to. */
    method Headroom(shown: Option<Table>, key: Key, kind: Kind, cap: Option<int>) returns (verdict: Verdict)
      ensures verdict == Room(shown, key, kind, cap, failClosed)
      ensures cap.None? ==> verdict == Verdict(true, 0, None, false)
      ensures cap.Some? && shown.None? ==> verdict == Verdict(!failClosed, 0, cap, true)
      ensures cap.Some? && shown.Some? ==>
                && (verdict.allowed <==> Used(shown.value, key, kind) < cap.value)
                && verdict.used == Used(shown.value, key, kind) && verdict.cap == cap && !verdict.unavailable
    {
      if cap.None? {
        return Verdict(true, 0, None, false);
      }
      if shown.None? {
        return Verdict(!failClosed, 0, cap, true);
      }
      var used := if key in shown.value then shown.value[key].Used(kind) else 0;
      return Verdict(!(used >= cap.value), used, cap, false);
    }
  }

  // ---------------------------------------------------------------------------------------
  // The one-line specification

  function Allows(used: nat, amount: nat, cap: Option<int>): bool {
    cap.None? || used + amount <= cap.value
  }

  /** Whether the statement can be carried out: the database answers and the numbers fit. */
  predicate Answerable(table: Table, c: Charge) {
    && c.up && Used(table, c.key, c.kind) + c.amount <= INT4_MAX
    && (c.cap.Some? ==> c.cap.value <= INT4_MAX)
  }

  /** Guard and upsert together are the one-line counter exactly when the statement can be
      carried out or the guard makes it unnecessary. Otherwise the answer is the operator's
      fail-open setting, and nothing is counted. */
  lemma ConsumeRefinesCounter(table: Table, c: Charge, failClosed: bool)
    ensures var (after, verdict) := Charged(table, c, failClosed);
            var used := Used(table, c.key, c.kind);
            var guarded := c.cap.Some? && c.amount > c.cap.value;
            && verdict.cap == c.cap
            && (verdict.unavailable <==> !guarded && !Answerable(table, c))
            && (verdict.unavailable ==> verdict.allowed == !failClosed && after == table)
            && (!verdict.unavailable ==>
                && verdict.allowed == Allows(used, c.amount, c.cap)
                && (!verdict.allowed ==>
                    && after == table
                    && verdict.used == if c.shown.Some? then Used(c.shown.value, c.key, c.kind) else 0)
                && (verdict.allowed ==>
                    && verdict.used == used + c.amount
                    && after == table[c.key := Add(RowAt(table, c.key), c.kind, c.amount)]))
  {
  }

  /** A charge that would overflow its counter is let through all the same when the deployment
      fails open, and leaves no trace. */
  lemma OverflowIsLetThrough(table: Table, key: Key, kind: Kind, amount: nat)
    requires Used(table, key, kind) + amount > INT4_MAX
    ensures Charged(table, Charge(key, kind, amount, None, true, None), false) == (table, Verdict(true, 0, None, true))
  {
  }

  /** There is such a table. */
  lemma CountersCanOverflow(key: Key)
    ensures Charged(map[key := Row(0, INT4_MAX)], Charge(key, Retrieval, 1, None, true, None), false)
         == (map[key := Row(0, INT4_MAX)], Verdict(true, 0, None, true))
  {
    OverflowIsLetThrough(map[key := Row(0, INT4_MAX)], key, Retrieval, 1);
  }

  /** Asking for headroom is asking whether one more unit would be let through, when what is shown
      is up to date; when it lags it only ever lets more start. */
  lemma HeadroomIsOneUnit(table: Table, shown: Table, c: Charge, failClosed: bool)
    requires c.amount == 1 && Answerable(table, c)
    ensures var room := Room(Some(shown), c.key, c.kind, c.cap, failClosed).allowed;
            var let := Charged(table, c, failClosed).1.allowed;
            && (Used(shown, c.key, c.kind) == Used(table, c.key, c.kind) ==> room == let)
            && (Used(shown, c.key, c.kind) <= Used(table, c.key, c.kind) && let ==> room)
  {
    ConsumeRefinesCounter(table, c, failClosed);
    hide Charged;
  }

  /** The upload path's two checks disagree, headroom first and refusal of the real cost after,
      exactly when the counter shown is under the cap and the cost does not fit the counter charged;
      a charge the database cannot carry out is refused by the fail-closed setting alone. An upload
      that started under the cap does not carry it past. */
  lemma HeadroomIsNotAdmission(table: Table, shown: Table, c: Charge, failClosed: bool)
    requires c.cap.Some?
    ensures var cap := c.cap.value;
            var carriedOut := c.amount > cap || Answerable(table, c);
            var tooDear := if carriedOut then cap < Used(table, c.key, c.kind) + c.amount else failClosed;
            Room(Some(shown), c.key, c.kind, c.cap, failClosed).allowed && !Charged(table, c, failClosed).1.allowed
            <==> Used(shown, c.key, c.kind) < cap && tooDear
  {
    ConsumeRefinesCounter(table, c, failClosed);
  }

  // ---------------------------------------------------------------------------------------
  // Runs: the statements of all callers, in the order the database runs them

  function Run(charges: seq<Charge>, failClosed: bool): Table {
    if charges == [] then map[]
    else Charged(Run(charges[..|charges| - 1], failClosed), charges[|charges| - 1], failClosed).0
  }

  function VerdictAt(charges: seq<Charge>, i: nat, failClosed: bool): Verdict
    requires i < |charges|
  {
    Charged(Run(charges[..i], failClosed), charges[i], failClosed).1
  }

  function Counts(verdict: Verdict): bool {
    verdict.allowed && !verdict.unavailable
  }

  /** What was let through and counted against one counter. */
  function Admitted(charges: seq<Charge>, key: Key, kind: Kind, failClosed: bool): nat {
    if charges == [] then 0
    else
      var n := |charges| - 1;
      Admitted(charges[..n], key, kind, failClosed) +
      if charges[n].key == key && charges[n].kind == kind && Counts(VerdictAt(charges, n, failClosed))
      then charges[n].amount else 0
  }

  /** Every counter is the sum of the counted charges for its chatbot, month and kind, whatever
      the callers interleave. */
  lemma {:induction false} CounterIsSum(charges: seq<Charge>, key: Key, kind: Kind, failClosed: bool)
    ensures Used(Run(charges, failClosed), key, kind) == Admitted(charges, key, kind, failClosed)
  {
    hide Charged;
    if charges == [] {
    } else {
      var n := |charges| - 1;
      CounterIsSum(charges[..n], key, kind, failClosed);
      ConsumeRefinesCounter(Run(charges[..n], failClosed), charges[n], failClosed);
    }
  }

  /** Counters only grow, so a replica showing any earlier state never turns away what would fit. */
  lemma {:induction false} CountersGrow(charges: seq<Charge>, i: nat, key: Key, kind: Kind, failClosed: bool)
    requires i <= |charges|
    ensures Used(Run(charges[..i], failClosed), key, kind) <= Used(Run(charges, failClosed), key, kind)
  {
    hide Charged;
    var n := |charges| - 1;
    if i == |charges| {
      assert charges[..i] == charges;
    } else {
      assert charges[..n][..i] == charges[..i];
      CountersGrow(charges[..n], i, key, kind, failClosed);
      ConsumeRefinesCounter(Run(charges[..n], failClosed), charges[n], failClosed);
    }
  }

  lemma {:induction false} LaggingHeadroomIsGenerous(charges: seq<Charge>, i: nat, c: Charge, failClosed: bool)
    requires i <= |charges| && c.amount == 1 && Answerable(Run(charges, failClosed), c)
    requires Charged(Run(charges, failClosed), c, failClosed).1.allowed
    ensures Room(Some(Run(charges[..i], failClosed)), c.key, c.kind, c.cap, failClosed).allowed
  {
    CountersGrow(charges, i, c.key, c.kind, failClosed);
    HeadroomIsOneUnit(Run(charges, failClosed), Run(charges[..i], failClosed), c, failClosed);
    hide Charged, Room, Run;
  }

  /** If every charge against a counter carries the same cap, the counter never passes it. */
  lemma {:induction false} CapIsNeverPassed(charges: seq<Charge>, key: Key, kind: Kind, cap: nat,
                                           failClosed: bool)
    requires forall i :: 0 <= i < |charges| && charges[i].key == key && charges[i].kind == kind ==>
               charges[i].cap == Some(cap)
    ensures Used(Run(charges, failClosed), key, kind) <= cap
  {
    hide Charged;
    if charges == [] {
    } else {
      var n := |charges| - 1;
      CapIsNeverPassed(charges[..n], key, kind, cap, failClosed);
      ConsumeRefinesCounter(Run(charges[..n], failClosed), charges[n], failClosed);
    }
  }

  /** Counters fit their column in every reachable state, so what fails to fit is refused
      rather than wrapped. */
  lemma {:induction false} CountersFit(charges: seq<Charge>, key: Key, kind: Kind, failClosed: bool)
    ensures Used(Run(charges, failClosed), key, kind) <= INT4_MAX
  {
    hide Charged;
    if charges == [] {
    } else {
      var n := |charges| - 1;
      CountersFit(charges[..n], key, kind, failClosed);
      ConsumeRefinesCounter(Run(charges[..n], failClosed), charges[n], failClosed);
    }
  }
}
