/** `held_lock` in `app/services/redis_client.py`: a lock that expires by itself, taken with
    SET NX EX and given back with a compare-and-delete. */
module HeldLocks {
  import opened Text

  /** What Redis stores under the lock's key. */
  datatype Stored = Stored(token: nat, deadline: real)

  /** The key, and the runs that are inside their `with` block: each token with the moment its
      lease ends. `spent` is every token ever generated; `latest` the last to be granted. */
  datatype Lock = Lock(stored: Option<Stored>, holders: map<nat, real>, spent: set<nat>,
                       latest: Option<nat>)

  const FREE := Lock(None, map[], {}, None)

  /** An expired key reads as missing. */
  function Live(stored: Option<Stored>, now: real): Option<Stored> {
    if stored.Some? && now < stored.value.deadline then stored else None
  }

  /** `SET key token NX EX ttl`, with the token entering the `with` block if it was granted. */
  function Acquire(lock: Lock, token: nat, ttl: real, now: real): Lock {
    if Live(lock.stored, now).Some? then lock.(spent := lock.spent + {token})
    else Lock(Some(Stored(token, now + ttl)), lock.holders[token := now + ttl],
              lock.spent + {token}, Some(token))
  }

  function Granted(lock: Lock, now: real): bool {
    Live(lock.stored, now).None?
  }

  /** `_RELEASE_IF_HELD`, at the end of the `with` block. */
  function Release(lock: Lock, token: nat, now: real): Lock {
    var live := Live(lock.stored, now);
    lock.(stored := if live.Some? && live.value.token == token then None else lock.stored,
          holders := lock.holders - {token})
  }

  /** A holder whose lease has not run out. */
  predicate Leased(lock: Lock, token: nat, now: real) {
    token in lock.holders && now < lock.holders[token]
  }

  // ---------------------------------------------------------------------------------------
  // The commands against a keyspace

  class RedisLocks {
    var store: map<string, Stored>

    constructor ()
      ensures store == map[]
    {
      store := map[];
    }

    function At(key: string): Option<Stored>
      reads this
    {
      if key in store then Some(store[key]) else None
    }

    method SetNx(key: string, token: nat, ttl: real, now: real) returns (acquired: bool)
      modifies this
      ensures acquired <==> !(key in old(store) && now < old(store)[key].deadline)
      ensures acquired == Live(old(At(key)), now).None?
      ensures store == if acquired then old(store)[key := Stored(token, now + ttl)] else old(store)
    {
      acquired := !(key in store && now < store[key].deadline);
      if acquired {
        store := store[key := Stored(token, now + ttl)];
      }
    }

    method ReleaseIfHeld(key: string, token: nat, now: real) returns (deleted: bool)
      modifies this
      ensures deleted <==> key in old(store) && old(store)[key].token == token && now < old(store)[key].deadline
      ensures var live := Live(old(At(key)), now); deleted == (live.Some? && live.value.token == token)
      ensures store == if deleted then old(store) - {key} else old(store)
    {
      deleted := key in store && now < store[key].deadline && store[key].token == token;
      if deleted {
        store := store - {key};
      }
    }
  }

  // ---------------------------------------------------------------------------------------
  // Runs

  datatype Op = Enter(token: nat, ttl: real) | Leave(token: nat) | Wait(seconds: real)

  /** The lock and the clock. A token is generated once; entering with a spent one, or leaving
      without having entered, does not happen. */
  datatype State = State(lock: Lock, now: real)

  function Step(s: State, op: Op): State {
    match op
    case Enter(token, ttl) =>
      if token in s.lock.spent || ttl <= 0.0 then s
      else s.(lock := Acquire(s.lock, token, ttl, s.now))
    case Leave(token) =>
      if token !in s.lock.holders then s
      else s.(lock := Release(s.lock, token, s.now))
    case Wait(seconds) => if seconds <= 0.0 then s else s.(now := s.now + seconds)
  }

  function Run(ops: seq<Op>): State {
    if ops == [] then State(FREE, 0.0) else Step(Run(ops[..|ops| - 1]), ops[|ops| - 1])
  }

  /** Whoever is within the lease owns the stored token, and a stored token is always the last
      one granted. */
  ghost predicate Inv(lock: Lock, now: real) {
    && (forall t :: t in lock.holders ==> t in lock.spent)
    && (forall t :: Leased(lock, t, now) ==> lock.stored == Some(Stored(t, lock.holders[t])))
    && (lock.stored.Some? ==> lock.latest == Some(lock.stored.value.token))
    && (lock.stored.Some? ==> lock.stored.value.token in lock.spent)
    && (lock.stored.Some? && now < lock.stored.value.deadline ==> lock.stored.value.token in lock.holders)
    && (lock.stored.Some? && lock.stored.value.token in lock.holders ==>
        lock.holders[lock.stored.value.token] == lock.stored.value.deadline)
  }

  lemma AcquireKeepsInv(lock: Lock, token: nat, ttl: real, now: real)
    requires Inv(lock, now) && token !in lock.spent
    ensures Inv(Acquire(lock, token, ttl, now), now)
  {
    var after := Acquire(lock, token, ttl, now);
    forall t | Leased(after, t, now)
      ensures after.stored == Some(Stored(t, after.holders[t]))
    {
      assert t != token ==> Leased(lock, t, now);
    }
  }

  lemma ReleaseKeepsInv(lock: Lock, token: nat, now: real)
    requires Inv(lock, now)
    ensures Inv(Release(lock, token, now), now)
  {
    var after := Release(lock, token, now);
    forall t | Leased(after, t, now)
      ensures after.stored == Some(Stored(t, after.holders[t]))
    {
      assert Leased(lock, t, now);
    }
  }

  lemma WaitKeepsInv(lock: Lock, now: real, later: real)
    requires Inv(lock, now) && now <= later
    ensures Inv(lock, later)
  {
    forall t | Leased(lock, t, later)
      ensures lock.stored == Some(Stored(t, lock.holders[t]))
    {
      assert Leased(lock, t, now);
    }
  }

  lemma {:induction false} RunKeepsInv(ops: seq<Op>)
    ensures Inv(Run(ops).lock, Run(ops).now)
  {
    if ops == [] {
    } else {
      var before, op := Run(ops[..|ops| - 1]), ops[|ops| - 1];
      RunKeepsInv(ops[..|ops| - 1]);
      match op {
        case Enter(token, ttl) =>
          if token !in before.lock.spent {
            AcquireKeepsInv(before.lock, token, ttl, before.now);
          }
        case Leave(token) => ReleaseKeepsInv(before.lock, token, before.now);
        case Wait(seconds) =>
          if seconds > 0.0 {
            WaitKeepsInv(before.lock, before.now, before.now + seconds);
          }
      }
    }
  }

  /** In every reachable state at most one holder is within its lease, and the stored token, if
      any, belongs to the latest to have been granted the lock. */
  lemma AtMostOneLeased(ops: seq<Op>, a: nat, b: nat)
    ensures var s := Run(ops);
            && (Leased(s.lock, a, s.now) && Leased(s.lock, b, s.now) ==> a == b)
            && (s.lock.stored.Some? ==> s.lock.latest == Some(s.lock.stored.value.token))
  {
    RunKeepsInv(ops);
  }

  /** A run is let in exactly when nobody is within a lease, and then for as long as it asked; the
      others keep what they have. */
  lemma EntersExactlyWhen(ops: seq<Op>, token: nat, ttl: real)
    requires token !in Run(ops).lock.spent && ttl > 0.0
    ensures var s := Run(ops); var after := Step(s, Enter(token, ttl));
            && (Leased(after.lock, token, s.now) <==> forall t :: !Leased(s.lock, t, s.now))
            && (Leased(after.lock, token, s.now) ==> after.lock.holders[token] == s.now + ttl)
            && (forall t :: t != token ==> (Leased(after.lock, t, s.now) <==> Leased(s.lock, t, s.now)))
  {
    RunKeepsInv(ops);
    var s := Run(ops);
    if Live(s.lock.stored, s.now).Some? {
      assert Leased(s.lock, s.lock.stored.value.token, s.now);
    }
  }

  /** Leaving late is harmless: a holder that overran its lease leaves the key, and every other
      holder's lease, exactly as they were. Leaving in time frees the lock at once. */
  lemma LeavingIsSafe(ops: seq<Op>, token: nat)
    ensures var s := Run(ops); var after := Step(s, Leave(token));
            && (forall t :: t != token ==> (Leased(after.lock, t, s.now) <==> Leased(s.lock, t, s.now)))
            && (!Leased(s.lock, token, s.now) ==> after.lock.stored == s.lock.stored)
            && (Leased(s.lock, token, s.now) ==> Granted(after.lock, s.now))
  {
    RunKeepsInv(ops);
  }

  /** Without the comparison it would not be: a plain DEL by a run that overran lets a third run
      in while the second is still within its lease. */
  lemma PlainDeleteBreaksExclusion()
    ensures var second := Acquire(Acquire(FREE, 1, 10.0, 0.0), 2, 10.0, 10.0);
            var deleted := second.(stored := None, holders := second.holders - {1});
            var third := Acquire(deleted, 3, 10.0, 11.0);
            Leased(third, 2, 11.0) && Leased(third, 3, 11.0)
  {
  }
}
