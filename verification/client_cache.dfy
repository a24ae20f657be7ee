/** `app/services/ai/clients.py`: one provider client per configuration, bounded in number, kept
    for an hour, and closed some time after it has left the cache. */
module ClientCaches {
  import opened Text

  const CAPACITY: nat := 256
  const TTL_SECONDS: real := 3600.0

  type Owner = nat

  /** One entry of the ordered dictionary. Clients are numbered in the order they are built. */
  datatype Row = Row(key: string, client: nat, expiresAt: real, owners: set<Owner>)

  /** Front to back is least to most recently acquired. */
  type Rows = seq<Row>

  ghost predicate DistinctKeys(rows: Rows) {
    forall i, j :: 0 <= i < j < |rows| ==> rows[i].key != rows[j].key
  }

  function IndexOf(rows: Rows, key: string): (r: Option<nat>)
    ensures r.Some? ==> r.value < |rows| && rows[r.value].key == key
    ensures r.None? ==> forall i :: 0 <= i < |rows| ==> rows[i].key != key
  {
    if rows == [] then None
    else if rows[0].key == key then Some(0)
    else match IndexOf(rows[1..], key)
      case None => None
      case Some(i) => Some(i + 1)
  }

  /** `pop(key, None)` */
  function Without(rows: Rows, key: string): Rows {
    match IndexOf(rows, key)
    case None => rows
    case Some(i) => rows[..i] + rows[i + 1..]
  }

  function Clients(rows: Rows): (r: seq<nat>)
    ensures |r| == |rows| && forall i :: 0 <= i < |r| ==> r[i] == rows[i].client
  {
    seq(|rows|, i requires 0 <= i < |rows| => rows[i].client)
  }

  lemma ClientsSnoc(rows: Rows, n: nat)
    requires n < |rows|
    ensures Clients(rows[..n + 1]) == Clients(rows[..n]) + [rows[n].client]
  {
  }

  function Bag(rows: Rows): multiset<nat> {
    multiset(Clients(rows))
  }

  // ---------------------------------------------------------------------------------------
  // What each operation does to the dictionary

  /** The outcome of `_take`. `dropped` is what an exception from `build` takes down with it. */
  datatype Taken = Taken(rows: Rows, client: Option<nat>, victims: seq<nat>, dropped: seq<nat>)

  function Live(rows: Rows, key: string, now: real): bool {
    var at := IndexOf(rows, key);
    at.Some? && rows[at.value].expiresAt > now
  }

  function ExpiredClients(rows: Rows, key: string, now: real): seq<nat> {
    var at := IndexOf(rows, key);
    if at.Some? && rows[at.value].expiresAt <= now then [rows[at.value].client] else []
  }

  /** `made` is what `build()` returns, or nothing when it raises. */
  function Take(rows: Rows, key: string, owner: Owner, now: real, made: Option<nat>): Taken {
    var at := IndexOf(rows, key);
    if Live(rows, key, now) then
      var row := rows[at.value];
      var moved := Without(rows, key) + [row.(owners := row.owners + {owner})];
      Taken(Fit(moved), Some(row.client), Overflow(moved), [])
    else match made
      case None => Taken(Without(rows, key), None, [], ExpiredClients(rows, key, now))
      case Some(client) =>
        var grown := Without(rows, key) + [Row(key, client, now + TTL_SECONDS, {owner})];
        Taken(Fit(grown), Some(client), ExpiredClients(rows, key, now) + Overflow(grown), [])
  }

  function Excess(rows: Rows): nat {
    if |rows| > CAPACITY then |rows| - CAPACITY else 0
  }

  function Fit(rows: Rows): Rows {
    rows[Excess(rows)..]
  }

  function Overflow(rows: Rows): seq<nat> {
    Clients(rows[..Excess(rows)])
  }

  /** What a scan for `owner` leaves, and what it takes out, both in the order they stood. */
  function Kept(rows: Rows, owner: Owner): Rows {
    if rows == [] then []
    else
      var last := rows[|rows| - 1];
      Kept(rows[..|rows| - 1], owner) + if owner in last.owners then [] else [last]
  }

  function Doomed(rows: Rows, owner: Owner): Rows {
    if rows == [] then []
    else
      var last := rows[|rows| - 1];
      Doomed(rows[..|rows| - 1], owner) + if owner in last.owners then [last] else []
  }

  lemma NothingScanned(rows: Rows, owner: Owner)
    ensures Kept(rows[..0], owner) == [] && Clients(Doomed(rows[..0], owner)) == []
  {
  }

  lemma ScanOneMore(rows: Rows, i: nat, owner: Owner)
    requires i < |rows|
    ensures Kept(rows[..i + 1], owner) ==
            if owner in rows[i].owners then Kept(rows[..i], owner) else Kept(rows[..i], owner) + [rows[i]]
    ensures Clients(Doomed(rows[..i + 1], owner)) ==
            if owner in rows[i].owners then Clients(Doomed(rows[..i], owner)) + [rows[i].client]
            else Clients(Doomed(rows[..i], owner))
  {
    hide Clients;
    assert rows[..i + 1][..i] == rows[..i];
    ClientsAppend(Doomed(rows[..i], owner), rows[i]);
  }

  lemma ClientsAppend(rows: Rows, row: Row)
    ensures Clients(rows + [row]) == Clients(rows) + [row.client]
  {
  }

  // ---------------------------------------------------------------------------------------
  // The module as written

  class ClientCache {
    var entries: Rows

    constructor ()
      ensures entries == []
    {
      entries := [];
    }

    /** `_take`: lookup, construction and insertion without a single await. */
    method TakeClient(key: string, owner: Owner, now: real, made: Option<nat>)
      returns (client: Option<nat>, victims: seq<nat>)
      modifies this
      ensures var taken := Take(old(entries), key, owner, now, made);
              entries == taken.rows && client == taken.client && victims == taken.victims
    {
      hide IndexOf, Clients;
      victims := [];
      ghost var expired := ExpiredClients(entries, key, now);
      var at := IndexOf(entries, key);
      if at.Some? && entries[at.value].expiresAt <= now {
        victims := [entries[at.value].client];
        entries := Without(entries, key);
        at := None;
      }
      var row: Row;
      if at.None? {
        if made.None? {
          return None, [];
        }
        row := Row(key, made.value, now + TTL_SECONDS, {});
      } else {
        row := entries[at.value];
        entries := Without(entries, key);
      }
      assert {} + {owner} == {owner};
      row := row.(owners := row.owners + {owner});
      entries := entries + [row];
      var evicted := EvictOverflow();
      victims := victims + evicted;
      client := Some(row.client);
      assert [] + evicted == evicted;
    }

    /** The `while` at the end of `_take`. */
    method EvictOverflow() returns (evicted: seq<nat>)
      modifies this
      ensures entries == Fit(old(entries)) && evicted == Overflow(old(entries))
    {
      hide Clients;
      evicted := [];
      ghost var full, out := entries, 0;
      while |entries| > CAPACITY
        invariant 0 <= out <= |full| && entries == full[out..]
        invariant out == 0 || |full| - out >= CAPACITY
        invariant evicted == Clients(full[..out])
        decreases |entries|
      {
        evicted := evicted + [entries[0].client];
        ClientsSnoc(full, out);
        entries := entries[1..];
        out := out + 1;
      }
      assert out == Excess(full);
    }

    /** `invalidate`, up to the point where it starts closing. */
    method Invalidate(owner: Owner) returns (victims: seq<nat>)
      modifies this
      ensures entries == Kept(old(entries), owner)
      ensures victims == Clients(Doomed(old(entries), owner))
    {
      hide Kept, Doomed, Clients;
      var kept: Rows := [];
      victims := [];
      NothingScanned(entries, owner);
      for i := 0 to |entries|
        invariant entries == old(entries)
        invariant kept == Kept(entries[..i], owner)
        invariant victims == Clients(Doomed(entries[..i], owner))
      {
        ScanOneMore(entries, i, owner);
        if owner in entries[i].owners {
          victims := victims + [entries[i].client];
        } else {
          kept := kept + [entries[i]];
        }
      }
      assert entries[..|entries|] == entries;
      entries := kept;
    }

    method CloseAll() returns (victims: seq<nat>)
      modifies this
      ensures entries == [] && victims == Clients(old(entries))
    {
      victims := Clients(entries);
      entries := [];
    }
  }

  // ---------------------------------------------------------------------------------------
  // Runs: operations and closes interleaved in any order

  datatype Op =
    | Acquire(key: string, owner: Owner, now: real, builds: bool)
    | Invalidate(owner: Owner)
    | Shutdown
    | Close(client: nat)
    | CutShort(clients: multiset<nat>)   // a task cancelled while it was closing these

  /** The dictionary, the clients waiting to be closed, those closed, those nobody holds any
      more, and how many have ever been built. */
  datatype State = State(rows: Rows, awaiting: multiset<nat>, closed: multiset<nat>,
                         lost: multiset<nat>, built: nat)

  function Step(s: State, op: Op): State {
    match op
    case Acquire(key, owner, now, builds) =>
      var taken := Take(s.rows, key, owner, now, if builds then Some(s.built) else None);
      State(taken.rows, s.awaiting + multiset(taken.victims), s.closed,
            s.lost + multiset(taken.dropped),
            if !Live(s.rows, key, now) && builds then s.built + 1 else s.built)
    case Invalidate(owner) =>
      s.(rows := Kept(s.rows, owner),
         awaiting := s.awaiting + Bag(Doomed(s.rows, owner)))
    case Shutdown =>
      s.(rows := [], awaiting := s.awaiting + Bag(s.rows))
    case Close(client) =>
      if client in s.awaiting then
        s.(awaiting := s.awaiting - multiset{client}, closed := s.closed + multiset{client})
      else s
    case CutShort(clients) =>
      s.(awaiting := s.awaiting - clients * s.awaiting, lost := s.lost + clients * s.awaiting)
  }

  const EMPTY := State([], multiset{}, multiset{}, multiset{}, 0)

  function Run(ops: seq<Op>): State {
    if ops == [] then EMPTY else Step(Run(ops[..|ops| - 1]), ops[|ops| - 1])
  }

  /** Clients `0` to `n - 1`, once each. */
  function Built(n: nat): multiset<nat> {
    if n == 0 then multiset{} else Built(n - 1) + multiset{n - 1}
  }

  lemma {:induction false} BuiltOnce(n: nat, client: nat)
    ensures Built(n)[client] == if client < n then 1 else 0
  {
    if n > 0 {
      BuiltOnce(n - 1, client);
    }
  }

  ghost predicate Inv(s: State) {
    && |s.rows| <= CAPACITY
    && DistinctKeys(s.rows)
    && Bag(s.rows) + s.awaiting + s.closed + s.lost == Built(s.built)
  }

  lemma {:induction false} WithoutFacts(rows: Rows, key: string)
    requires DistinctKeys(rows)
    ensures var rest := Without(rows, key); var at := IndexOf(rows, key);
            && DistinctKeys(rest) && |rest| <= |rows|
            && (forall i :: 0 <= i < |rest| ==> rest[i].key != key)
            && Bag(rows) == Bag(rest) +
               (if at.Some? then multiset{rows[at.value].client} else multiset{})
  {
    hide IndexOf, Bag;
    var at := IndexOf(rows, key);
    if at.Some? {
      RemoveClient(rows, at.value);
    }
  }

  lemma RemoveClient(rows: Rows, i: nat)
    requires i < |rows|
    ensures Bag(rows) == Bag(rows[..i] + rows[i + 1..]) + multiset{rows[i].client}
  {
    hide Bag;
    var front, back := rows[..i], rows[i + 1..];
    assert rows == (front + [rows[i]]) + back;
    AppendClient(front, rows[i]);
    BagOfConcat(front + [rows[i]], back);
    BagOfConcat(front, back);
    MoveOver(Bag(front), multiset{rows[i].client}, Bag(back));
  }

  lemma BagOfConcat(a: Rows, b: Rows)
    ensures Bag(a + b) == Bag(a) + Bag(b)
  {
    assert Clients(a + b) == Clients(a) + Clients(b);
  }

  lemma MoveOver(a: multiset<nat>, b: multiset<nat>, c: multiset<nat>)
    ensures (a + b) + c == (a + c) + b && (a + b) + c == a + (b + c)
  {
  }

  lemma FitFacts(rows: Rows)
    ensures |Fit(rows)| <= CAPACITY && (DistinctKeys(rows) ==> DistinctKeys(Fit(rows)))
    ensures Bag(rows) == Bag(Fit(rows)) + multiset(Overflow(rows))
  {
    var e := Excess(rows);
    assert rows == rows[..e] + rows[e..];
    BagOfConcat(rows[..e], rows[e..]);
  }

  lemma AppendClient(rows: Rows, row: Row)
    ensures Bag(rows + [row]) == Bag(rows) + multiset{row.client}
  {
    assert Clients(rows + [row]) == Clients(rows) + [row.client];
  }

  /** `_take` conserves clients: what was resident or has just been built is resident, a victim,
      or dropped. */
  lemma {:induction false} TakeConserves(rows: Rows, key: string, owner: Owner, now: real, made: Option<nat>)
    requires DistinctKeys(rows)
    ensures var taken := Take(rows, key, owner, now, made);
            && |taken.rows| <= (if |rows| <= CAPACITY then CAPACITY else |rows|)
            && DistinctKeys(taken.rows)
            && Bag(rows) +
                 (if !Live(rows, key, now) && made.Some? then multiset{made.value} else multiset{})
               == Bag(taken.rows) + multiset(taken.victims) + multiset(taken.dropped)
  {
    hide IndexOf, Without, Fit, Overflow, DistinctKeys, Bag;
    WithoutFacts(rows, key);
    var rest, at := Without(rows, key), IndexOf(rows, key);
    var expired := ExpiredClients(rows, key, now);
    if Live(rows, key, now) {
      PlacingConserves(rest, rows[at.value].(owners := rows[at.value].owners + {owner}));
    } else {
      assert Bag(rows) == Bag(rest) + multiset(expired);
      if made.Some? {
        var row := Row(key, made.value, now + TTL_SECONDS, {owner});
        PlacingConserves(rest, row);
        PlacedAfterExpiry(Bag(rest), expired, made.value, Bag(Fit(rest + [row])), Overflow(rest + [row]));
      }
    }
  }

  lemma PlacedAfterExpiry(rest: multiset<nat>, expired: seq<nat>, client: nat,
                          kept: multiset<nat>, overflow: seq<nat>)
    requires rest + multiset{client} == kept + multiset(overflow)
    ensures rest + multiset(expired) + multiset{client}
         == kept + multiset(expired + overflow) + multiset([])
  {
    forall c
      ensures (rest + multiset(expired) + multiset{client})[c]
           == (kept + multiset(expired + overflow) + multiset([]))[c]
    {
      assert (rest + multiset{client})[c] == (kept + multiset(overflow))[c];
    }
  }

  lemma PlacingConserves(rest: Rows, row: Row)
    requires DistinctKeys(rest) && forall i :: 0 <= i < |rest| ==> rest[i].key != row.key
    ensures var grown := rest + [row];
            && DistinctKeys(Fit(grown)) && |Fit(grown)| <= CAPACITY
            && Bag(rest) + multiset{row.client} == Bag(Fit(grown)) + multiset(Overflow(grown))
  {
    hide DistinctKeys, Fit, Overflow, Bag;
    AppendClient(rest, row);
    StillDistinct(rest, row);
    FitFacts(rest + [row]);
  }

  lemma StillDistinct(rows: Rows, row: Row)
    requires DistinctKeys(rows) && forall i :: 0 <= i < |rows| ==> rows[i].key != row.key
    ensures DistinctKeys(rows + [row])
  {
  }

  lemma {:induction false} InvalidateConserves(rows: Rows, owner: Owner)
    ensures Bag(rows) == Bag(Kept(rows, owner)) + Bag(Doomed(rows, owner))
  {
    hide Bag;
    if rows == [] {
      NothingInBag();
    } else {
      var front, last := rows[..|rows| - 1], rows[|rows| - 1];
      InvalidateConserves(front, owner);
      assert rows == front + [last];
      AppendClient(front, last);
      if owner in last.owners {
        assert Kept(rows, owner) == Kept(front, owner);
        AppendClient(Doomed(front, owner), last);
        MoveOver(Bag(Kept(front, owner)), Bag(Doomed(front, owner)), multiset{last.client});
      } else {
        assert Doomed(rows, owner) == Doomed(front, owner);
        AppendClient(Kept(front, owner), last);
        MoveOver(Bag(Kept(front, owner)), multiset{last.client}, Bag(Doomed(front, owner)));
      }
    }
  }

  lemma NothingInBag()
    ensures Bag([]) == multiset{} && Clients([]) == []
  {
  }

  /** What is kept is exactly what does not list the owner, in the same order. */
  lemma {:induction false} KeptFacts(rows: Rows, owner: Owner)
    ensures var kept := Kept(rows, owner);
            && |kept| <= |rows|
            && (forall row :: row in kept <==> row in rows && owner !in row.owners)
            && (DistinctKeys(rows) ==> DistinctKeys(kept))
  {
    if rows != [] {
      var front, last := rows[..|rows| - 1], rows[|rows| - 1];
      KeptFacts(front, owner);
      var kept := Kept(front, owner);
      assert rows == front + [last];
      forall row
        ensures row in Kept(rows, owner) <==> row in rows && owner !in row.owners
      {
        assert row in rows <==> row in front || row == last;
      }
      if DistinctKeys(rows) {
        assert DistinctKeys(front);
        forall i | 0 <= i < |kept|
          ensures kept[i].key != last.key
        {
          assert kept[i] in front;
        }
        StillDistinct(kept, last);
      }
    }
  }

  lemma {:induction false} AcquireKeepsInv(s: State, key: string, owner: Owner, now: real, builds: bool)
    requires Inv(s)
    ensures Inv(Step(s, Acquire(key, owner, now, builds)))
  {
    hide DistinctKeys, Take, Live, Bag;
    var made := if builds then Some(s.built) else None;
    TakeConserves(s.rows, key, owner, now, made);
    var taken := Take(s.rows, key, owner, now, made);
    var added := if !Live(s.rows, key, now) && builds then multiset{s.built} else multiset{};
    assert Bag(s.rows) + added == Bag(taken.rows) + multiset(taken.victims) + multiset(taken.dropped);
    Reassemble(Bag(s.rows), s.awaiting, s.closed, s.lost, added,
               Bag(taken.rows), multiset(taken.victims), multiset(taken.dropped));
  }

  lemma Reassemble(resident: multiset<nat>, awaiting: multiset<nat>, closed: multiset<nat>,
                   lost: multiset<nat>, added: multiset<nat>, resident': multiset<nat>,
                   victims: multiset<nat>, dropped: multiset<nat>)
    requires resident + added == resident' + victims + dropped
    ensures resident + awaiting + closed + lost + added
         == resident' + (awaiting + victims) + closed + (lost + dropped)
  {
    forall c
      ensures (resident + awaiting + closed + lost + added)[c]
           == (resident' + (awaiting + victims) + closed + (lost + dropped))[c]
    {
      assert (resident + added)[c] == (resident' + victims + dropped)[c];
    }
  }

  lemma {:induction false} StepKeepsInv(s: State, op: Op)
    requires Inv(s)
    ensures Inv(Step(s, op))
  {
    hide DistinctKeys, Take, Kept, Doomed, Bag;
    match op {
      case Acquire(key, owner, now, builds) =>
        AcquireKeepsInv(s, key, owner, now, builds);
      case Invalidate(owner) =>
        KeptFacts(s.rows, owner);
        InvalidateConserves(s.rows, owner);
      case Shutdown =>
        NoRowsDistinct();
        NothingInBag();
      case Close(client) =>
      case CutShort(clients) =>
        CutShortConserves(Bag(s.rows), s.awaiting, s.closed, s.lost, clients);
    }
  }

  lemma CutShortConserves(resident: multiset<nat>, awaiting: multiset<nat>, closed: multiset<nat>,
                          lost: multiset<nat>, clients: multiset<nat>)
    ensures resident + (awaiting - clients * awaiting) + closed + (lost + clients * awaiting)
         == resident + awaiting + closed + lost
  {
  }

  lemma NoRowsDistinct()
    ensures DistinctKeys([])
  {
  }

  lemma {:induction false} RunKeepsInv(ops: seq<Op>)
    ensures Inv(Run(ops))
  {
    if ops == [] {
      assert Clients([]) == [];
    } else {
      RunKeepsInv(ops[..|ops| - 1]);
      StepKeepsInv(Run(ops[..|ops| - 1]), ops[|ops| - 1]);
    }
  }

  // ---------------------------------------------------------------------------------------
  // Where a client can be

  /** Whether `op`, taken in `s`, drops clients nobody else holds: an acquire finds its entry
      expired and fails to rebuild it, or a task is cancelled with victims still to close. */
  predicate Loses(s: State, op: Op) {
    match op
    case Acquire(key, _, now, builds) => !builds && IndexOf(s.rows, key).Some? && !Live(s.rows, key, now)
    case CutShort(clients) => clients * s.awaiting != multiset{}
    case _ => false
  }

  /** In every reachable state each client ever built is in exactly one place: resident, waiting
      to be closed, closed (once), or lost; and no other client is anywhere. */
  lemma EachClientOnce(ops: seq<Op>, client: nat)
    ensures var s := Run(ops);
            && |s.rows| <= CAPACITY
            && Bag(s.rows)[client] + s.awaiting[client] + s.closed[client] + s.lost[client]
               == if client < s.built then 1 else 0
  {
    RunKeepsInv(ops);
    var s := Run(ops);
    BuiltOnce(s.built, client);
    var sum := Bag(s.rows) + s.awaiting + s.closed + s.lost;
    assert sum[client] == Built(s.built)[client];
  }

  ghost predicate SomethingLoses(ops: seq<Op>) {
    exists i :: 0 <= i < |ops| && Loses(Run(ops[..i]), ops[i])
  }

  /** Clients are lost exactly when a rebuild fails, because the expired client has already been
      popped and the exception discards the list of victims it was in, or when the closing of
      victims is cut short, because that list is all that still held them. */
  lemma {:induction false} LostExactlyWhen(ops: seq<Op>)
    ensures Run(ops).lost != multiset{} <==> SomethingLoses(ops)
  {
    hide Loses, Step;
    if ops == [] {
    } else {
      var n := |ops| - 1;
      LostExactlyWhen(ops[..n]);
      LostByStep(Run(ops[..n]), ops[n]);
      LosesInPrefix(ops);
    }
  }

  lemma {:induction false} LosesInPrefix(ops: seq<Op>)
    requires ops != []
    ensures var n := |ops| - 1;
            SomethingLoses(ops) <==> SomethingLoses(ops[..n]) || Loses(Run(ops[..n]), ops[n])
  {
    hide Loses, Run;
    var n := |ops| - 1;
    assert forall i :: 0 <= i < n ==> ops[..n][..i] == ops[..i] && ops[..n][i] == ops[i];
  }

  /** A concrete loss: the entry has expired, its client is popped, and the rebuild raises. */
  lemma FailedRebuildLosesClient(key: string, owner: Owner)
    ensures Run([Acquire(key, owner, 0.0, true), Acquire(key, owner, 3600.0, false)]).lost == multiset{0}
  {
    var ops := [Acquire(key, owner, 0.0, true), Acquire(key, owner, 3600.0, false)];
    var row := Row(key, 0, 3600.0, {owner});
    assert ops[..1] == [ops[0]] && [ops[0]][..0] == [];
    assert Without([], key) + [row] == [row] && Excess([row]) == 0;
    assert Run(ops[..1]).rows == [row];
    assert IndexOf([row], key) == Some(0);
  }

  /** And another: the configuration changes, and the task closing its client is cancelled. */
  lemma CancelledCloseLosesClient(key: string, owner: Owner)
    ensures Run([Acquire(key, owner, 0.0, true), Invalidate(owner), CutShort(multiset{0})]).lost == multiset{0}
  {
    var ops := [Acquire(key, owner, 0.0, true), Invalidate(owner), CutShort(multiset{0})];
    var row := Row(key, 0, 3600.0, {owner});
    assert ops[..2] == [ops[0], ops[1]] && ops[..2][..1] == [ops[0]] && [ops[0]][..0] == [];
    assert Without([], key) + [row] == [row] && Excess([row]) == 0;
    assert Run([ops[0]]).rows == [row] && Run([ops[0]]).awaiting == multiset{};
    assert [row][..0] == [] && Doomed([row], owner) == [row];
    assert Clients([row]) == [0];
    assert Run(ops[..2]).awaiting == multiset{0} && Run(ops[..2]).lost == multiset{};
  }

  lemma LostByStep(s: State, op: Op)
    ensures Step(s, op).lost != multiset{} <==> s.lost != multiset{} || Loses(s, op)
  {
    if op.Acquire? {
      var dropped := Take(s.rows, op.key, op.owner, op.now, if op.builds then Some(s.built) else None).dropped;
      assert Loses(s, op) <==> dropped != [];
      assert dropped != [] ==> dropped[0] in multiset(dropped);
    }
  }

  /** At the end of `_take`, what `acquire` is going to hand out is resident with a lease not yet
      over; it is none of the victims of that very call, and neither closed nor waiting to be. */
  lemma AcquiredIsLive(ops: seq<Op>, key: string, owner: Owner, now: real, builds: bool)
    ensures var before := Run(ops);
            var taken := Take(before.rows, key, owner, now, if builds then Some(before.built) else None);
            var after := Step(before, Acquire(key, owner, now, builds));
            taken.client.Some? ==>
              var client := taken.client.value;
              && client !in taken.victims
              && client !in after.awaiting && client !in after.closed && client !in after.lost
              && taken.rows != []
              && var row := taken.rows[|taken.rows| - 1];
                 row.key == key && row.client == client && row.expiresAt > now && owner in row.owners
  {
    hide Inv, Take, Step;
    var op := Acquire(key, owner, now, builds);
    var before := Run(ops);
    var made := if builds then Some(before.built) else None;
    RunKeepsInv(ops);
    StepKeepsInv(before, op);
    AcquireStep(before, op);
    LastOfTake(before.rows, key, owner, now, made);
    if Take(before.rows, key, owner, now, made).client.Some? {
      var after := Step(before, op);
      ResidentNowhereElse(after, |after.rows| - 1);
    }
  }

  lemma AcquireStep(s: State, op: Op)
    requires op.Acquire?
    ensures var taken := Take(s.rows, op.key, op.owner, op.now, if op.builds then Some(s.built) else None);
            && Step(s, op).rows == taken.rows
            && forall c :: c in taken.victims ==> c in Step(s, op).awaiting
  {
    hide Take;
    var victims := Take(s.rows, op.key, op.owner, op.now, if op.builds then Some(s.built) else None).victims;
    forall c | c in victims
      ensures c in s.awaiting + multiset(victims)
    {
      assert c in multiset(victims);
    }
  }

  lemma ResidentNowhereElse(s: State, i: nat)
    requires Inv(s) && i < |s.rows|
    ensures var client := s.rows[i].client;
            client !in s.awaiting && client !in s.closed && client !in s.lost
  {
    var client := s.rows[i].client;
    assert client == Clients(s.rows)[i];
    assert client in Bag(s.rows);
    BuiltOnce(s.built, client);
    var sum := Bag(s.rows) + s.awaiting + s.closed + s.lost;
    assert sum[client] == Built(s.built)[client] <= 1;
  }

  lemma LastOfTake(rows: Rows, key: string, owner: Owner, now: real, made: Option<nat>)
    ensures var taken := Take(rows, key, owner, now, made);
            taken.client.Some? ==>
              && taken.rows != []
              && var row := taken.rows[|taken.rows| - 1];
                 row.key == key && row.client == taken.client.value && row.expiresAt > now
                 && owner in row.owners
  {
  }

  // ---------------------------------------------------------------------------------------
  // Between `_take` and the return of `acquire`

  predicate Resident(rows: Rows, client: nat) {
    client in Clients(rows)
  }

  /** Whether `op` takes row `i` out: an invalidation of one of its owners, a shutdown, its own
      key found expired, or a new key when it is the oldest of a full cache. */
  predicate TakesOut(rows: Rows, op: Op, i: nat)
    requires i < |rows|
  {
    match op
    case Invalidate(owner) => owner in rows[i].owners
    case Shutdown => true
    case Close(_) => false
    case CutShort(_) => false
    case Acquire(key, _, now, builds) =>
      if rows[i].key == key then rows[i].expiresAt <= now
      else builds && i == 0 && |rows| == CAPACITY && IndexOf(rows, key).None?
  }

  predicate Removes(s: State, op: Op, client: nat) {
    exists i | 0 <= i < |s.rows| :: s.rows[i].client == client && TakesOut(s.rows, op, i)
  }

  /** A resident client is in one row only, and is not yet to be built. */
  lemma OneRow(s: State, client: nat)
    requires Inv(s) && Resident(s.rows, client)
    ensures Bag(s.rows)[client] == 1 && client < s.built
    ensures forall i, j :: 0 <= i < |s.rows| && 0 <= j < |s.rows| && s.rows[i].client == s.rows[j].client == client ==>
              i == j
  {
    hide Built, DistinctKeys, Clients;
    BuiltOnce(s.built, client);
    var sum := Bag(s.rows) + s.awaiting + s.closed + s.lost;
    assert sum[client] == Built(s.built)[client];
    assert client in Bag(s.rows);
    OnceMeansOneIndex(Clients(s.rows), client);
  }

  lemma OnceMeansOneIndex(clients: seq<nat>, client: nat)
    requires multiset(clients)[client] == 1
    ensures forall i, j :: 0 <= i < |clients| && 0 <= j < |clients| && clients[i] == clients[j] == client ==> i == j
  {
    forall i, j | 0 <= i < |clients| && 0 <= j < |clients| && clients[i] == clients[j] == client
      ensures i == j
    {
      assert clients == clients[..i] + [client] + clients[i + 1..];
      assert client in multiset(clients[..i]) <==> client in clients[..i];
      assert client in multiset(clients[i + 1..]) <==> client in clients[i + 1..];
      OnlyThere(clients, i, j);
    }
  }

  lemma OnlyThere(clients: seq<nat>, i: nat, j: nat)
    requires i < |clients| && j < |clients| && clients[i] == clients[j]
    requires clients[i] !in clients[..i] && clients[i] !in clients[i + 1..]
    ensures i == j
  {
    assert forall k :: 0 <= k < i ==> clients[k] == clients[..i][k];
    assert forall k :: i < k < |clients| ==> clients[k] == clients[i + 1..][k - i - 1];
  }

  /** Who leaves in a `_take`: the client of an expired entry, and the oldest when a new key
      finds the cache full. */
  lemma LeavesInTake(rows: Rows, key: string, owner: Owner, now: real, made: Option<nat>)
    requires |rows| <= CAPACITY
    ensures var taken := Take(rows, key, owner, now, made);
            var oldest := if made.Some? && IndexOf(rows, key).None? && |rows| == CAPACITY
                          then [rows[0].client] else [];
            taken.victims + taken.dropped == ExpiredClients(rows, key, now) + oldest
  {
    hide IndexOf, Clients;
    var at, rest := IndexOf(rows, key), Without(rows, key);
    forall row: Row
      ensures Overflow(rest + [row]) == if at.None? && |rows| == CAPACITY then [rows[0].client] else []
    {
      OverflowOf(rest + [row]);
    }
    if made.Some? && !Live(rows, key, now) {
      assert forall xs: seq<nat> :: xs + [] == xs;
    }
  }

  lemma OverflowOf(grown: Rows)
    requires grown != [] && |grown| <= CAPACITY + 1
    ensures Overflow(grown) == if |grown| == CAPACITY + 1 then [grown[0].client] else []
  {
    if |grown| == CAPACITY + 1 {
      assert grown[..1] == [grown[0]] && Clients([grown[0]]) == [grown[0].client];
    } else {
      assert grown[..0] == [] && Clients([]) == [];
    }
  }

  lemma AcquireResidence(s: State, op: Op, i: nat)
    requires Inv(s) && op.Acquire? && i < |s.rows|
    ensures Resident(Step(s, op).rows, s.rows[i].client) <==> !TakesOut(s.rows, op, i)
  {
    var client, made := s.rows[i].client, if op.builds then Some(s.built) else None;
    var taken := Take(s.rows, op.key, op.owner, op.now, made);
    assert client == Clients(s.rows)[i];
    OneRow(s, client);
    LeavesInTake(s.rows, op.key, op.owner, op.now, made);
    TakeConserves(s.rows, op.key, op.owner, op.now, made);
    var added := if !Live(s.rows, op.key, op.now) && made.Some? then multiset{made.value} else multiset{};
    CountAfter(Bag(s.rows), added, Bag(taken.rows), taken.victims, taken.dropped, client);
    assert client in taken.victims + taken.dropped <==> TakesOut(s.rows, op, i) by {
      hide Inv, Take, Bag, Clients;
      LeavingIsTaking(s, op, i);
    }
    assert Step(s, op).rows == taken.rows;
  }

  /** A client there once, and not added, is still there exactly when it is among none that left. */
  lemma CountAfter(before: multiset<nat>, added: multiset<nat>, after: multiset<nat>, victims: seq<nat>,
                   dropped: seq<nat>, client: nat)
    requires before + added == after + multiset(victims) + multiset(dropped)
    requires before[client] == 1 && client !in added
    ensures client in after <==> client !in victims + dropped
  {
    assert (before + added)[client] == (after + multiset(victims) + multiset(dropped))[client];
    assert client in victims <==> client in multiset(victims);
    assert client in dropped <==> client in multiset(dropped);
  }

  lemma LeavingIsTaking(s: State, op: Op, i: nat)
    requires op.Acquire? && i < |s.rows| && DistinctKeys(s.rows)
    requires forall j :: 0 <= j < |s.rows| && s.rows[j].client == s.rows[i].client ==> j == i
    ensures var oldest := if op.builds && IndexOf(s.rows, op.key).None? && |s.rows| == CAPACITY
                          then [s.rows[0].client] else [];
            s.rows[i].client in ExpiredClients(s.rows, op.key, op.now) + oldest <==> TakesOut(s.rows, op, i)
  {
    var at := IndexOf(s.rows, op.key);
    hide IndexOf;
    assert at.Some? ==> (s.rows[i].key == op.key <==> i == at.value);
  }

  lemma StepResidence(s: State, op: Op, client: nat)
    requires Inv(s) && Resident(s.rows, client)
    ensures Resident(Step(s, op).rows, client) <==> !Removes(s, op, client)
  {
    var i :| 0 <= i < |s.rows| && Clients(s.rows)[i] == client;
    OneRow(s, client);
    assert Removes(s, op, client) <==> TakesOut(s.rows, op, i);
    match op
    case Acquire(_, _, _, _) =>
      AcquireResidence(s, op, i);
      hide *;
    case Invalidate(owner) =>
      InvalidateResidence(s, owner, i);
      hide *;
    case _ =>
      hide Inv;
  }

  lemma InvalidateResidence(s: State, owner: Owner, i: nat)
    requires Inv(s) && i < |s.rows|
    ensures Resident(Kept(s.rows, owner), s.rows[i].client) <==> owner !in s.rows[i].owners
    ensures Step(s, Invalidate(owner)).rows == Kept(s.rows, owner)
  {
    var client, kept := s.rows[i].client, Kept(s.rows, owner);
    assert client == Clients(s.rows)[i];
    OneRow(s, client);
    KeptFacts(s.rows, owner);
    hide Inv, Kept;
    if owner !in s.rows[i].owners {
      var k :| 0 <= k < |kept| && kept[k] == s.rows[i];
      assert Clients(kept)[k] == client;
    } else {
      forall k | 0 <= k < |kept|
        ensures kept[k].client != client
      {
        assert kept[k] in s.rows;
      }
    }
  }

  lemma AcquireAddsNew(s: State, op: Op, client: nat)
    requires Inv(s) && op.Acquire? && client < s.built
    ensures Bag(Step(s, op).rows)[client] <= Bag(s.rows)[client]
  {
    var made := if op.builds then Some(s.built) else None;
    var taken := Take(s.rows, op.key, op.owner, op.now, made);
    TakeConserves(s.rows, op.key, op.owner, op.now, made);
    hide Inv, Take, Bag;
    var added := if !Live(s.rows, op.key, op.now) && made.Some? then multiset{made.value} else multiset{};
    assert (Bag(s.rows) + added)[client]
        == (Bag(taken.rows) + multiset(taken.victims) + multiset(taken.dropped))[client];
  }

  /** Client numbers are not used twice, so a client that has left does not come back. */
  lemma GoneStaysGone(s: State, op: Op, client: nat)
    requires Inv(s) && client < s.built
    ensures client < Step(s, op).built
    ensures Resident(Step(s, op).rows, client) ==> Resident(s.rows, client)
  {
    hide Inv;
    var after := Step(s, op).rows;
    assert Resident(after, client) <==> client in Bag(after);
    assert Resident(s.rows, client) <==> client in Bag(s.rows);
    hide Resident;
    if op.Acquire? {
      AcquireAddsNew(s, op, client);
      hide Take, Bag;
    } else if op.Invalidate? {
      InvalidateConserves(s.rows, op.owner);
      hide Kept, Doomed, Bag;
      assert Bag(s.rows)[client] == Bag(after)[client] + Bag(Doomed(s.rows, op.owner))[client];
    } else {
      hide Bag;
      NothingInBag();
    }
  }

  lemma ResidentByStep(s: State, op: Op, client: nat)
    requires Inv(s) && client < s.built
    ensures client < Step(s, op).built
    ensures Resident(Step(s, op).rows, client) <==> Resident(s.rows, client) && !Removes(s, op, client)
  {
    GoneStaysGone(s, op, client);
    if Resident(s.rows, client) {
      StepResidence(s, op, client);
    }
    hide *;
  }

  lemma RunSnoc(ops: seq<Op>, op: Op)
    ensures Run(ops + [op]) == Step(Run(ops), op)
  {
    assert (ops + [op])[..|ops|] == ops;
    hide Step;
  }

  /** Nothing in `meanwhile`, starting from the run of `started`, takes `client` out. */
  ghost predicate Undisturbed(started: seq<Op>, meanwhile: seq<Op>, client: nat) {
    forall i :: 0 <= i < |meanwhile| ==> !Removes(Run(started + meanwhile[..i]), meanwhile[i], client)
  }

  lemma UndisturbedSnoc(started: seq<Op>, meanwhile: seq<Op>, op: Op, client: nat)
    ensures Undisturbed(started, meanwhile + [op], client) <==>
            Undisturbed(started, meanwhile, client) && !Removes(Run(started + meanwhile), op, client)
  {
    hide Removes, Run;
    var all, n := meanwhile + [op], |meanwhile|;
    assert all[..n] == meanwhile && all[n] == op;
    assert forall i :: 0 <= i < n ==> all[..i] == meanwhile[..i] && all[i] == meanwhile[i];
  }

  lemma UndisturbedByNothing(started: seq<Op>, client: nat)
    ensures Undisturbed(started, [], client)
  {
  }

  lemma {:induction false} ResidentWhileUndisturbed(started: seq<Op>, meanwhile: seq<Op>, client: nat)
    requires Resident(Run(started).rows, client)
    ensures client < Run(started + meanwhile).built
    ensures Resident(Run(started + meanwhile).rows, client) <==> Undisturbed(started, meanwhile, client)
  {
    hide *;
    if meanwhile == [] {
      assert started + [] == started;
      RunKeepsInv(started);
      OneRow(Run(started), client);
      UndisturbedByNothing(started, client);
    } else {
      var n := |meanwhile| - 1;
      var front, op := meanwhile[..n], meanwhile[n];
      ResidentWhileUndisturbed(started, front, client);
      assert started + meanwhile == (started + front) + [op] && meanwhile == front + [op];
      RunKeepsInv(started + front);
      ResidentByStep(Run(started + front), op, client);
      RunSnoc(started + front, op);
      UndisturbedSnoc(started, front, op, client);
    }
  }

  /** `acquire` closes the victims before it returns, and others run meanwhile: what it returns is
      still resident, and then neither closed nor about to be, exactly when nothing in between has
      taken its row out. */
  lemma {:induction false} ReturnedIsResident(ops: seq<Op>, key: string, owner: Owner, now: real, builds: bool,
                                              meanwhile: seq<Op>)
    ensures var made := if builds then Some(Run(ops).built) else None;
            var taken := Take(Run(ops).rows, key, owner, now, made);
            var started := ops + [Acquire(key, owner, now, builds)];
            var returned := Run(started + meanwhile);
            taken.client.Some? ==>
              var client := taken.client.value;
              && (Resident(returned.rows, client) <==> Undisturbed(started, meanwhile, client))
              && (Resident(returned.rows, client) <==>
                  client !in returned.awaiting && client !in returned.closed && client !in returned.lost)
  {
    hide *;
    var made := if builds then Some(Run(ops).built) else None;
    var taken := Take(Run(ops).rows, key, owner, now, made);
    var started := ops + [Acquire(key, owner, now, builds)];
    if taken.client.Some? {
      var client := taken.client.value;
      RunSnoc(ops, Acquire(key, owner, now, builds));
      TakenIsResident(Run(ops), Acquire(key, owner, now, builds));
      ResidentWhileUndisturbed(started, meanwhile, client);
      RunKeepsInv(started + meanwhile);
      ResidentOrGone(Run(started + meanwhile), client);
    }
  }

  lemma ResidentOrGone(s: State, client: nat)
    requires Inv(s) && client < s.built
    ensures Resident(s.rows, client) <==> client !in s.awaiting && client !in s.closed && client !in s.lost
  {
    BuiltOnce(s.built, client);
    hide Built, DistinctKeys, Clients;
    var sum := Bag(s.rows) + s.awaiting + s.closed + s.lost;
    assert sum[client] == Built(s.built)[client] == 1;
    assert Resident(s.rows, client) <==> client in Bag(s.rows);
  }

  lemma TakenIsResident(s: State, op: Op)
    requires op.Acquire?
    ensures var taken := Take(s.rows, op.key, op.owner, op.now, if op.builds then Some(s.built) else None);
            taken.client.Some? ==> Resident(Step(s, op).rows, taken.client.value)
  {
    LastOfTake(s.rows, op.key, op.owner, op.now, if op.builds then Some(s.built) else None);
    hide Take;
  }

  /** After a configuration change no entry lists the chatbot, the others have not moved, and
      everything it was using is waiting to be closed. */
  lemma InvalidateIsExact(s: State, owner: Owner)
    ensures var after := Step(s, Invalidate(owner));
            && (forall row :: row in after.rows <==> row in s.rows && owner !in row.owners)
            && after.awaiting == s.awaiting + Bag(Doomed(s.rows, owner))
            && (forall row :: row in Doomed(s.rows, owner) <==> row in s.rows && owner in row.owners)
  {
    KeptFacts(s.rows, owner);
    DoomedFacts(s.rows, owner);
  }

  lemma {:induction false} DoomedFacts(rows: Rows, owner: Owner)
    ensures forall row :: row in Doomed(rows, owner) <==> row in rows && owner in row.owners
  {
    if rows != [] {
      DoomedFacts(rows[..|rows| - 1], owner);
      assert rows == rows[..|rows| - 1] + [rows[|rows| - 1]];
    }
  }

  // ---------------------------------------------------------------------------------------
  // Least recently acquired

  /** When `key` was last asked for, as a position in the history; -1 for never. */
  function LastAcquired(ops: seq<Op>, key: string): int {
    if ops == [] then -1
    else
      var n := |ops| - 1;
      if ops[n].Acquire? && ops[n].key == key then n else LastAcquired(ops[..n], key)
  }

  ghost predicate OrderedByUse(ops: seq<Op>, rows: Rows) {
    forall i, j :: 0 <= i < j < |rows| ==>
      LastAcquired(ops, rows[i].key) < LastAcquired(ops, rows[j].key)
  }

  lemma LastAcquiredBound(ops: seq<Op>, key: string)
    ensures LastAcquired(ops, key) < |ops|
  {
    if ops != [] {
      LastAcquiredBound(ops[..|ops| - 1], key);
    }
  }

  /** The order of the dictionary is the order of last acquisition, in every reachable state. */
  lemma {:induction false} OrderIsLastUse(ops: seq<Op>)
    ensures OrderedByUse(ops, Run(ops).rows)
  {
    hide Take, Kept, Doomed, DistinctKeys;
    if ops == [] {
    } else {
      var n := |ops| - 1;
      var before, op := Run(ops[..n]), ops[n];
      OrderIsLastUse(ops[..n]);
      RunKeepsInv(ops[..n]);
      match op {
        case Acquire(key, owner, now, builds) =>
          AcquireKeepsOrder(ops, before.rows, if builds then Some(before.built) else None);
        case Invalidate(owner) =>
          KeptKeepsOrder(ops[..n], before.rows, owner);
        case Shutdown =>
        case Close(_) =>
        case CutShort(_) =>
      }
    }
  }

  lemma WithoutKeepsOrder(ops: seq<Op>, rows: Rows, key: string)
    requires OrderedByUse(ops, rows)
    ensures OrderedByUse(ops, Without(rows, key))
  {
    hide LastAcquired;
  }

  lemma AcquireKeepsOrder(ops: seq<Op>, rows: Rows, made: Option<nat>)
    requires ops != [] && ops[|ops| - 1].Acquire?
    requires DistinctKeys(rows) && OrderedByUse(ops[..|ops| - 1], rows)
    ensures var op := ops[|ops| - 1];
            OrderedByUse(ops, Take(rows, op.key, op.owner, op.now, made).rows)
  {
    hide IndexOf, Without, DistinctKeys;
    var n := |ops| - 1;
    var op := ops[n];
    var rest := Without(rows, op.key);
    WithoutKeepsOrder(ops[..n], rows, op.key);
    WithoutFacts(rows, op.key);
    forall i | 0 <= i < |rest|
      ensures LastAcquired(ops, rest[i].key) == LastAcquired(ops[..n], rest[i].key) < n
    {
      LastAcquiredBound(ops[..n], rest[i].key);
    }
    assert OrderedByUse(ops, rest);
    forall row: Row | row.key == op.key
      ensures OrderedByUse(ops, rest + [row]) && OrderedByUse(ops, Fit(rest + [row]))
    {
    }
  }

  lemma {:induction false} KeptKeepsOrder(ops: seq<Op>, rows: Rows, owner: Owner)
    requires OrderedByUse(ops, rows)
    ensures OrderedByUse(ops, Kept(rows, owner))
  {
    if rows != [] {
      var front, last := rows[..|rows| - 1], rows[|rows| - 1];
      KeptKeepsOrder(ops, front, owner);
      KeptFacts(front, owner);
      var kept := Kept(front, owner);
      forall i | 0 <= i < |kept|
        ensures LastAcquired(ops, kept[i].key) < LastAcquired(ops, last.key)
      {
        assert kept[i] in front;
      }
    }
  }

  /** When an acquire overflows the cache, the entry that goes is the one least recently acquired
      of all that were resident. */
  lemma EvictsLeastRecent(ops: seq<Op>, key: string, owner: Owner, now: real)
    requires |Run(ops).rows| == CAPACITY && IndexOf(Run(ops).rows, key).None?
    ensures var rows := Run(ops).rows;
            var taken := Take(rows, key, owner, now, Some(Run(ops).built));
            && taken.victims == [rows[0].client] && taken.rows[..CAPACITY - 1] == rows[1..]
            && forall i :: 0 < i < CAPACITY ==>
                 LastAcquired(ops, rows[0].key) < LastAcquired(ops, rows[i].key)
  {
    OrderIsLastUse(ops);
    var rows := Run(ops).rows;
    var grown := rows + [Row(key, Run(ops).built, now + TTL_SECONDS, {owner})];
    assert Excess(grown) == 1;
    assert grown[..1] == [rows[0]] && Clients(grown[..1]) == [rows[0].client];
    assert [] + [rows[0].client] == [rows[0].client];
    assert grown[1..][..CAPACITY - 1] == rows[1..];
  }
}
