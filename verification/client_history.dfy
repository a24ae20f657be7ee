/** What callers of the client cache can rely on, in terms of what calls returned and when, not of
    what the dictionary holds: `app/services/ai/clients.py`. */
module ClientHistory {
  import opened Text
  import opened ClientCaches

  /** What call `i` of a run hands out. */
  function Returned(ops: seq<Op>, i: nat): Option<nat>
    requires i < |ops| && ops[i].Acquire?
  {
    var before, op := Run(ops[..i]), ops[i];
    Take(before.rows, op.key, op.owner, op.now, if op.builds then Some(before.built) else None).client
  }

  /** Call `i` handed out `client`. */
  predicate Hands(ops: seq<Op>, i: int, client: nat) {
    0 <= i < |ops| && ops[i].Acquire? && Returned(ops, i) == Some(client)
  }

  /** Call `i` handed out `client`, and it was new. */
  predicate Builds(ops: seq<Op>, i: int, client: nat) {
    Hands(ops, i, client) && Run(ops[..i]).built == client
  }

  predicate HandsTo(ops: seq<Op>, i: int, client: nat, owner: Owner) {
    Hands(ops, i, client) && ops[i].owner == owner
  }

  lemma HandsInPrefix(ops: seq<Op>, i: int, client: nat)
    requires ops != [] && i < |ops| - 1
    ensures Hands(ops[..|ops| - 1], i, client) <==> Hands(ops, i, client)
    ensures Builds(ops[..|ops| - 1], i, client) <==> Builds(ops, i, client)
  {
    if 0 <= i {
      assert ops[..|ops| - 1][..i] == ops[..i];
    }
    hide Run, Take;
  }

  // ---------------------------------------------------------------------------------------
  // Where a row comes from

  /** `row` is `q`, perhaps with more owners. */
  predicate Grown(q: Row, row: Row) {
    q.key == row.key && q.client == row.client && q.expiresAt == row.expiresAt && q.owners <= row.owners
  }

  ghost predicate FromOld(rows: Rows, row: Row) {
    exists q :: q in rows && Grown(q, row)
  }

  predicate FromBuild(s: State, op: Op, row: Row) {
    && op.Acquire? && op.builds && row.key == op.key && row.client == s.built
    && row.expiresAt == op.now + 3600.0 && op.owner in row.owners
    && Take(s.rows, op.key, op.owner, op.now, Some(s.built)).client == Some(s.built)
  }

  /** What `_take` leaves: rows it found under other keys, and the one it puts last. */
  lemma TakenRows(rows: Rows, key: string, owner: Owner, now: real, made: Option<nat>, row: Row)
    requires row in Take(rows, key, owner, now, made).rows
    ensures var at := IndexOf(rows, key);
            || row in rows
            || (Live(rows, key, now) && row == rows[at.value].(owners := rows[at.value].owners + {owner}))
            || (!Live(rows, key, now) && made.Some? && row == Row(key, made.value, now + TTL_SECONDS, {owner}))
  {
    hide IndexOf;
    assert forall r :: r in Without(rows, key) ==> r in rows;
    hide Without;
    var rest := Without(rows, key);
    forall last: Row | row in Fit(rest + [last])
      ensures row in rest || row == last
    {
      assert row in rest + [last];
    }
    hide Fit;
  }

  lemma TakenRow(s: State, op: Op, row: Row)
    requires op.Acquire? && row in Step(s, op).rows
    ensures FromOld(s.rows, row) || FromBuild(s, op, row)
  {
    var made := if op.builds then Some(s.built) else None;
    AcquireStep(s, op);
    TakenRows(s.rows, op.key, op.owner, op.now, made, row);
    NewIsReturned(s.rows, op.key, op.owner, op.now, made);
    hide Take, Step;
    if row in s.rows {
      assert Grown(row, row);
    } else if Live(s.rows, op.key, op.now) {
      assert Grown(s.rows[IndexOf(s.rows, op.key).value], row);
    }
  }

  lemma NewIsReturned(rows: Rows, key: string, owner: Owner, now: real, made: Option<nat>)
    ensures !Live(rows, key, now) ==> Take(rows, key, owner, now, made).client == made
  {
    hide IndexOf;
  }

  lemma RowStep(s: State, op: Op, row: Row)
    requires row in Step(s, op).rows
    ensures FromOld(s.rows, row) || FromBuild(s, op, row)
  {
    if op.Acquire? {
      TakenRow(s, op, row);
      hide *;
    } else {
      if op.Invalidate? {
        KeptFacts(s.rows, op.owner);
      }
      hide Kept, Doomed;
      assert row in s.rows && Grown(row, row);
    }
  }

  lemma {:induction false} BuiltGrows(ops: seq<Op>, i: nat)
    requires i <= |ops|
    ensures Run(ops[..i]).built <= Run(ops).built
  {
    hide *;
    if i == |ops| {
      assert ops[..i] == ops;
    } else {
      var front, last := ops[..|ops| - 1], ops[|ops| - 1];
      assert front[..i] == ops[..i];
      BuiltGrows(front, i);
      assert Run(ops[..i]).built <= Run(front).built;
      RunLast(ops);
      NewOnly(Run(front), last);
    }
  }

  lemma RunLast(ops: seq<Op>)
    requires ops != []
    ensures Run(ops) == Step(Run(ops[..|ops| - 1]), ops[|ops| - 1])
  {
    hide Step;
  }

  /** A client handed out is one that has been built; a new one is built by that very call. */
  lemma HandedIsBuilt(ops: seq<Op>, i: int, client: nat)
    requires Hands(ops, i, client)
    ensures client < Run(ops).built && client <= Run(ops[..i]).built
    ensures Builds(ops, i, client) ==> Run(ops[..i + 1]).built == client + 1
  {
    hide *;
    HandsMeans(ops, i, client);
    var before := ops[..i];
    assert ops[..i + 1] == before + [ops[i]];
    RunSnoc(before, ops[i]);
    RunKeepsInv(before + [ops[i]]);
    HandedByStep(Run(before), ops[i], client);
    BuiltGrows(ops, i + 1);
  }

  lemma HandsMeans(ops: seq<Op>, i: int, client: nat)
    requires Hands(ops, i, client)
    ensures 0 <= i < |ops| && ops[i].Acquire?
    ensures var s, op := Run(ops[..i]), ops[i];
            var made := if op.builds then Some(s.built) else None;
            Take(s.rows, op.key, op.owner, op.now, made).client == Some(client)
    ensures Builds(ops, i, client) <==> Run(ops[..i]).built == client
  {
    hide Run, Take;
  }

  lemma HandedByStep(s: State, op: Op, client: nat)
    requires op.Acquire? && Inv(Step(s, op))
    requires var made := if op.builds then Some(s.built) else None;
             Take(s.rows, op.key, op.owner, op.now, made).client == Some(client)
    ensures client < Step(s, op).built && client <= s.built
    ensures s.built == client ==> Step(s, op).built == client + 1
  {
    hide *;
    TakenIsResident(s, op);
    OneRow(Step(s, op), client);
    NewOnly(s, op);
  }

  lemma NewOnly(s: State, op: Op)
    ensures s.built <= Step(s, op).built <= s.built + 1
  {
    hide Take, Live, Kept, Doomed;
  }

  lemma BuiltByOne(ops: seq<Op>, i: int, j: int, client: nat)
    requires Builds(ops, i, client) && Builds(ops, j, client)
    ensures i == j
  {
    if i < j {
      NotBuiltBefore(ops, i, j, client);
    } else if j < i {
      NotBuiltBefore(ops, j, i, client);
    }
  }

  lemma HandsInRange(ops: seq<Op>, i: int, client: nat)
    requires Builds(ops, i, client)
    ensures Hands(ops, i, client) && 0 <= i < |ops| && ops[i].Acquire?
  {
  }

  lemma NotBuiltBefore(ops: seq<Op>, i: int, j: int, client: nat)
    requires Builds(ops, i, client) && i < j < |ops|
    ensures client < Run(ops[..j]).built
  {
    hide *;
    HandsInRange(ops, i, client);
    HandedIsBuilt(ops, i, client);
    assert ops[..j][..i + 1] == ops[..i + 1];
    BuiltGrows(ops[..j], i + 1);
  }

  /** The call a resident row was built by: its key, its client, and an hour's lease from then. */
  ghost predicate BornAt(ops: seq<Op>, i: int, row: Row) {
    Builds(ops, i, row.client) && ops[i].key == row.key && row.expiresAt == ops[i].now + 3600.0
  }

  lemma {:induction false} RowIsBorn(ops: seq<Op>, row: Row)
    requires row in Run(ops).rows
    ensures exists i :: BornAt(ops, i, row)
  {
    hide *;
    RunOfRows(ops, row);
    var n := |ops| - 1;
    var before := Run(ops[..n]);
    RowStep(before, ops[n], row);
    if FromBuild(before, ops[n], row) {
      BuildIsBorn(ops, row);
      assert BornAt(ops, n, row);
    } else {
      var q := OldRow(before.rows, row);
      RowIsBorn(ops[..n], q);
      var i :| BornAt(ops[..n], i, q);
      BornGrows(ops, i, q, row);
      assert BornAt(ops, i, row);
    }
  }

  lemma RunOfRows(ops: seq<Op>, row: Row)
    requires row in Run(ops).rows
    ensures ops != [] && Run(ops) == Step(Run(ops[..|ops| - 1]), ops[|ops| - 1])
  {
    hide Step;
  }

  lemma OldRow(rows: Rows, row: Row) returns (q: Row)
    requires FromOld(rows, row)
    ensures q in rows && Grown(q, row)
  {
    q :| q in rows && Grown(q, row);
  }

  lemma BornGrows(ops: seq<Op>, i: int, q: Row, row: Row)
    requires ops != [] && BornAt(ops[..|ops| - 1], i, q) && Grown(q, row)
    ensures BornAt(ops, i, row)
  {
    HandsInRange(ops[..|ops| - 1], i, q.client);
    HandsInPrefix(ops, i, q.client);
    hide Builds, Hands;
  }

  lemma BuildIsBorn(ops: seq<Op>, row: Row)
    requires ops != [] && FromBuild(Run(ops[..|ops| - 1]), ops[|ops| - 1], row)
    ensures BornAt(ops, |ops| - 1, row)
  {
    BuildIsBuilds(ops, row);
    hide Builds, Run, Take;
  }

  lemma BuildIsBuilds(ops: seq<Op>, row: Row)
    requires ops != [] && FromBuild(Run(ops[..|ops| - 1]), ops[|ops| - 1], row)
    ensures Builds(ops, |ops| - 1, row.client)
  {
    hide Run, Take;
  }

  // ---------------------------------------------------------------------------------------
  // Who is still using a client

  /** Every chatbot that was handed a client still resident is among the owners of its row. */
  lemma {:induction false} OwnersRemember(ops: seq<Op>, i: int, client: nat, row: Row)
    requires Hands(ops, i, client) && row in Run(ops).rows && row.client == client
    ensures ops[i].owner in row.owners
  {
    hide Take, Kept, Doomed;
    var n := |ops| - 1;
    if i == n {
      LastTakenOwned(ops, row);
    } else {
      var before := Run(ops[..n]);
      HandsInPrefix(ops, i, client);
      HandedIsBuilt(ops[..n], i, client);
      RowStep(before, ops[n], row);
      hide Run;
      var q :| q in before.rows && Grown(q, row);
      OwnersRemember(ops[..n], i, client, q);
    }
  }

  lemma LastTakenOwned(ops: seq<Op>, row: Row)
    requires ops != [] && Hands(ops, |ops| - 1, row.client) && row in Run(ops).rows
    ensures ops[|ops| - 1].owner in row.owners
  {
    var n := |ops| - 1;
    var before, op := Run(ops[..n]), ops[n];
    var after := Run(ops);
    RunKeepsInv(ops);
    LastOfTake(before.rows, op.key, op.owner, op.now, if op.builds then Some(before.built) else None);
    AcquireStep(before, op);
    assert after == Step(before, op);
    hide Take, Inv, Run, Step;
    var last := |after.rows| - 1;
    var k :| 0 <= k < |after.rows| && after.rows[k] == row;
    assert Clients(after.rows)[k] == row.client;
    OneRow(after, row.client);
    assert k == last;
  }

  ghost predicate OwnedBefore(rows: Rows, row: Row, owner: Owner) {
    exists q :: q in rows && q.client == row.client && owner in q.owners
  }

  lemma TakenOwner(s: State, op: Op, row: Row, owner: Owner)
    requires op.Acquire? && row in Step(s, op).rows && owner in row.owners
    ensures var made := if op.builds then Some(s.built) else None;
            || OwnedBefore(s.rows, row, owner)
            || (owner == op.owner && Take(s.rows, op.key, op.owner, op.now, made).client == Some(row.client))
  {
    var made := if op.builds then Some(s.built) else None;
    AcquireStep(s, op);
    TakenRows(s.rows, op.key, op.owner, op.now, made, row);
    NewIsReturned(s.rows, op.key, op.owner, op.now, made);
    LiveIsReturned(s.rows, op.key, op.owner, op.now, made);
    hide Take, Step;
    if row !in s.rows && Live(s.rows, op.key, op.now) {
      var q := s.rows[IndexOf(s.rows, op.key).value];
      assert q in s.rows && q.client == row.client;
    }
  }

  lemma LiveIsReturned(rows: Rows, key: string, owner: Owner, now: real, made: Option<nat>)
    ensures Live(rows, key, now) ==>
              Take(rows, key, owner, now, made).client == Some(rows[IndexOf(rows, key).value].client)
  {
    hide IndexOf;
  }

  lemma {:induction false} OwnersWereHanded(ops: seq<Op>, row: Row, owner: Owner)
    requires row in Run(ops).rows && owner in row.owners
    ensures exists i :: HandsTo(ops, i, row.client, owner)
  {
    hide *;
    RunOfRows(ops, row);
    var n := |ops| - 1;
    var before := Run(ops[..n]);
    if ops[n].Acquire? {
      TakenOwner(before, ops[n], row, owner);
    } else {
      KeptOwner(before, ops[n], row, owner);
    }
    if OwnedBefore(before.rows, row, owner) {
      var q := OwnedRow(before.rows, row, owner);
      OwnersWereHanded(ops[..n], q, owner);
      var i :| HandsTo(ops[..n], i, q.client, owner);
      StillHanded(ops, i, q.client, owner);
      assert HandsTo(ops, i, row.client, owner);
    } else {
      LastHands(ops, row.client);
      assert HandsTo(ops, n, row.client, owner);
    }
  }

  lemma KeptOwner(s: State, op: Op, row: Row, owner: Owner)
    requires !op.Acquire? && row in Step(s, op).rows && owner in row.owners
    ensures OwnedBefore(s.rows, row, owner)
  {
    if op.Invalidate? {
      KeptFacts(s.rows, op.owner);
    }
    hide Kept, Doomed;
    assert row in s.rows;
  }

  lemma OwnedRow(rows: Rows, row: Row, owner: Owner) returns (q: Row)
    requires OwnedBefore(rows, row, owner)
    ensures q in rows && q.client == row.client && owner in q.owners
  {
    q :| q in rows && q.client == row.client && owner in q.owners;
  }

  lemma StillHanded(ops: seq<Op>, i: int, client: nat, owner: Owner)
    requires ops != [] && HandsTo(ops[..|ops| - 1], i, client, owner)
    ensures HandsTo(ops, i, client, owner)
  {
    HandsInPrefix(ops, i, client);
    hide Run, Take;
  }

  lemma LastHands(ops: seq<Op>, client: nat)
    requires ops != [] && ops[|ops| - 1].Acquire?
    requires var before, op := Run(ops[..|ops| - 1]), ops[|ops| - 1];
             var made := if op.builds then Some(before.built) else None;
             Take(before.rows, op.key, op.owner, op.now, made).client == Some(client)
    ensures HandsTo(ops, |ops| - 1, client, ops[|ops| - 1].owner)
  {
    hide Run, Take;
  }

  /** And nobody else loses anything: a resident client never handed to that chatbot stays. */
  lemma {:induction false} OthersKeepTheirs(ops: seq<Op>, owner: Owner, client: nat)
    requires Resident(Run(ops).rows, client)
    requires forall i :: !HandsTo(ops, i, client, owner)
    ensures Resident(Run(ops + [Invalidate(owner)]).rows, client)
  {
    var rows := Run(ops).rows;
    RunSnoc(ops, Invalidate(owner));
    var k :| 0 <= k < |rows| && Clients(rows)[k] == client;
    var row := rows[k];
    if owner in row.owners {
      OwnersWereHanded(ops, row, owner);
      assert false;
    }
    KeptFacts(rows, owner);
    var kept := Kept(rows, owner);
    hide Run, Kept;
    assert row in kept;
    var j :| 0 <= j < |kept| && kept[j] == row;
    assert Clients(kept)[j] == client;
  }

  /** After a chatbot's configuration changes, no client that any earlier call handed it is resident,
      shared with others or not. */
  lemma {:induction false} InvalidatedIsGone(ops: seq<Op>, i: int, client: nat)
    requires Hands(ops, i, client)
    ensures !Resident(Run(ops + [Invalidate(ops[i].owner)]).rows, client)
  {
    var owner := ops[i].owner;
    RunSnoc(ops, Invalidate(owner));
    KeptFacts(Run(ops).rows, owner);
    var kept := Kept(Run(ops).rows, owner);
    assert Run(ops + [Invalidate(owner)]).rows == kept;
    forall k | 0 <= k < |kept|
      ensures kept[k].client != client
    {
      assert kept[k] in kept;
      if kept[k].client == client {
        OwnersRemember(ops, i, client, kept[k]);
      }
    }
    hide Run, Kept, Hands;
  }

  // ---------------------------------------------------------------------------------------
  // What a call returns

  /** A client is only handed out for the key it was built for, and within an hour of that. */
  lemma {:induction false} HandedWasBuiltForKey(ops: seq<Op>, i: int, client: nat)
    requires Hands(ops, i, client)
    ensures exists j :: j <= i && Builds(ops, j, client) && ops[j].key == ops[i].key
              && (j < i ==> ops[i].now < ops[j].now + 3600.0)
  {
    hide Builds;
    if Run(ops[..i]).built == client {
      assert Builds(ops, i, client) by { NewIsBuilds(ops, i, client); }
    } else {
      var row := HitRow(ops, i, client);
      RowIsBorn(ops[..i], row);
      var j :| BornAt(ops[..i], j, row);
      HandsInRange(ops[..i], j, client);
      BuildsExtends(ops, i, j, client);
    }
  }

  lemma NewIsBuilds(ops: seq<Op>, i: int, client: nat)
    requires Hands(ops, i, client) && Run(ops[..i]).built == client
    ensures Builds(ops, i, client)
  {
  }

  lemma BuildsExtends(ops: seq<Op>, i: nat, j: int, client: nat)
    requires i <= |ops| && Builds(ops[..i], j, client)
    ensures Builds(ops, j, client)
  {
    assert ops[..i][..j] == ops[..j];
    hide Run, Take;
  }

  /** A client that is not new was found under the key, its lease still running. */
  lemma HitRow(ops: seq<Op>, i: int, client: nat) returns (row: Row)
    requires Hands(ops, i, client) && Run(ops[..i]).built != client
    ensures row in Run(ops[..i]).rows && row.client == client
    ensures row.key == ops[i].key && ops[i].now < row.expiresAt
  {
    var rows := Run(ops[..i]).rows;
    hide Run, IndexOf;
    row := rows[IndexOf(rows, ops[i].key).value];
  }

  /** And while its hour lasts and it is resident, it is what every call for its key gets: nothing
      is built twice without need. */
  lemma {:induction false} ResidentIsReused(ops: seq<Op>, i: nat, j: int, client: nat)
    requires i < |ops| && ops[i].Acquire? && j < i && Builds(ops, j, client)
    requires Resident(Run(ops[..i]).rows, client)
    requires ops[i].key == ops[j].key && ops[i].now < ops[j].now + 3600.0
    ensures Returned(ops, i) == Some(client)
  {
    var s := Run(ops[..i]);
    var k :| 0 <= k < |s.rows| && Clients(s.rows)[k] == client;
    RowIsBorn(ops[..i], s.rows[k]);
    var b :| BornAt(ops[..i], b, s.rows[k]);
    BuildsExtends(ops, i, b, client);
    HandsInRange(ops[..i], b, client);
    BuiltByOne(ops, b, j, client);
    RunKeepsInv(ops[..i]);
    hide Run, Builds;
    FoundLive(s, k, ops[i]);
  }

  lemma FoundLive(s: State, k: nat, op: Op)
    requires DistinctKeys(s.rows) && k < |s.rows| && op.Acquire?
    requires s.rows[k].key == op.key && op.now < s.rows[k].expiresAt
    ensures Take(s.rows, op.key, op.owner, op.now, if op.builds then Some(s.built) else None).client
         == Some(s.rows[k].client)
  {
    var at := IndexOf(s.rows, op.key);
    hide IndexOf;
    assert at == Some(k);
  }

  /** A call comes back empty-handed only when its build raises; otherwise it hands something out. */
  lemma BuildAlwaysHands(ops: seq<Op>, i: nat)
    requires i < |ops| && ops[i].Acquire? && ops[i].builds
    ensures Returned(ops, i).Some?
  {
    hide Run, IndexOf;
  }
}
