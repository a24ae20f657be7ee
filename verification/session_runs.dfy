/** Sessions and what they descend from: log-ins, renewals and revocations over whole runs of
    `app/services/auth.py`. A renewal hands out a new token, so cutting a user off is worth
    something only if no chain of renewals leads around it. */
module SessionRuns {
  import opened Text
  import opened Sessions

  /** A refresh token handed out, and the log-in its chain of renewals started from. */
  datatype Session = Session(token: Token, root: real)

  datatype Chain = Chain(store: Store, sessions: seq<Session>)

  datatype Event =
    | LogIn(user: nat, jti: nat, at: real)
    | Renew(session: nat, jti: nat, at: real)    // a position among the sessions
    | Do(op: Op)

  function When(e: Event): real {
    match e
    case LogIn(_, _, at) => at
    case Renew(_, _, at) => at
    case Do(op) => op.at
  }

  /** `authenticate`, `refresh_tokens`, and everything else that changes the store. */
  function Next(c: Chain, e: Event, ttl: nat): Chain {
    match e
    case LogIn(user, jti, at) =>
      if user in c.store.inactive then c
      else c.(sessions := c.sessions + [Session(Mint(user, Refresh, jti, at, ttl), at)])
    case Renew(k, jti, at) =>
      if k >= |c.sessions| || Answered(c.store, c.sessions[k].token, at) != Renewed then c
      else
        var parent := c.sessions[k];
        c.(sessions := c.sessions + [Session(Mint(parent.token.user, Refresh, jti, at, ttl), parent.root)])
    case Do(op) => c.(store := Step(c.store, op, ttl))
  }

  function History(events: seq<Event>, ttl: nat): Chain {
    if events == [] then Chain(EMPTY, [])
    else Next(History(events[..|events| - 1], ttl), events[|events| - 1], ttl)
  }

  /** The operations on the store among the events. */
  function Ops(events: seq<Event>): seq<Op> {
    if events == [] then []
    else
      var last := events[|events| - 1];
      Ops(events[..|events| - 1]) + if last.Do? then [last.op] else []
  }

  ghost predicate Timed(events: seq<Event>, now: real) {
    && (forall i, j :: 0 <= i < j < |events| ==> When(events[i]) <= When(events[j]))
    && (forall i :: 0 <= i < |events| ==> When(events[i]) <= now)
  }

  lemma TimedInit(events: seq<Event>, now: real)
    requires Timed(events, now) && events != []
    ensures Timed(events[..|events| - 1], When(events[|events| - 1]))
  {
  }

  lemma {:induction false} OpsTimed(events: seq<Event>, now: real)
    requires Timed(events, now)
    ensures WellTimed(Ops(events), now)
  {
    if events != [] {
      TimedInit(events, now);
      var last := events[|events| - 1];
      OpsTimed(events[..|events| - 1], When(last));
      assert When(last) <= now;
    }
  }

  /** Renewals and log-ins leave the store alone. */
  lemma {:induction false} StoreIsRun(events: seq<Event>, ttl: nat)
    ensures History(events, ttl).store == Run(EMPTY, Ops(events), ttl)
  {
    if events != [] {
      hide Answered, Step;
      var front, last := events[..|events| - 1], events[|events| - 1];
      StoreIsRun(front, ttl);
      if last.Do? {
        RunSnoc(Ops(front), last.op, ttl);
      } else {
        assert Ops(front) + [] == Ops(front);
      }
    }
  }

  lemma RunSnoc(ops: seq<Op>, op: Op, ttl: nat)
    ensures Run(EMPTY, ops + [op], ttl) == Step(Run(EMPTY, ops, ttl), op, ttl)
  {
    assert (ops + [op])[..|ops|] == ops;
    hide Step;
  }

  /** What a server-issued token says, and how it stands to the log-in behind it. */
  ghost predicate Issued(s: Session, now: real, ttl: nat) {
    && s.token.kind == Refresh && s.token.iat.Some? && s.token.exp == s.token.iat.value + ttl
    && s.root.Floor <= s.token.iat.value <= now.Floor
  }

  lemma {:induction false} AllIssued(events: seq<Event>, ttl: nat, now: real)
    requires Timed(events, now)
    ensures forall s :: s in History(events, ttl).sessions ==> Issued(s, now, ttl)
  {
    if events != [] {
      hide Answered, Step;
      var front, last := events[..|events| - 1], events[|events| - 1];
      TimedInit(events, now);
      AllIssued(front, ttl, When(last));
      FloorIsMonotone(When(last), now);
      var c := History(front, ttl);
      if last.Renew? && last.session < |c.sessions| {
        assert c.sessions[last.session] in c.sessions;
      }
    }
  }

  /** The event at `p` revokes everything `user` holds. */
  ghost predicate CutAt(events: seq<Event>, user: nat, p: int) {
    0 <= p < |events| && events[p].Do? && events[p].op.RevokeAll? && events[p].op.user == user
  }

  lemma {:induction false} CutIsInOps(events: seq<Event>, user: nat, p: int)
    requires CutAt(events, user, p)
    ensures exists k :: 0 <= k < |Ops(events)| && Ops(events)[k] == events[p].op
  {
    var n := |events| - 1;
    var front := Ops(events[..n]);
    if p == n {
      assert Ops(events)[|front|] == events[p].op;
    } else {
      CutIsInOps(events[..n], user, p);
      var k :| 0 <= k < |front| && front[k] == events[..n][p].op;
      assert Ops(events)[k] == events[p].op;
    }
  }

  /** A token issued up to the second of a past revocation is not renewed: `RevokedForGood`, in
      these runs. */
  lemma CutTokensFail(events: seq<Event>, p: int, s: Session, ttl: nat, now: real)
    requires Timed(events, now) && CutAt(events, s.token.user, p) && Issued(s, now, ttl)
    requires s.token.iat.value <= events[p].op.at.Floor
    ensures Answered(History(events, ttl).store, s.token, now) != Renewed
  {
    CutIsInOps(events, s.token.user, p);
    var k :| 0 <= k < |Ops(events)| && Ops(events)[k] == events[p].op;
    OpsTimed(events, now);
    StoreIsRun(events, ttl);
    RevokedForGood(Ops(events), k, s.token, ttl, now);
  }

  /** A deactivated account gains no session, by logging in or by renewing; an active one gains one
      from every log-in, good for its lifetime. */
  lemma InactiveGainsNothing(c: Chain, e: Event, ttl: nat, user: nat)
    ensures user in c.store.inactive ==>
              forall s :: s in Next(c, e, ttl).sessions && s.token.user == user ==> s in c.sessions
    ensures e.LogIn? && e.user !in c.store.inactive ==>
              Next(c, e, ttl) == c.(sessions := c.sessions + [Session(
                Token(e.user, Refresh, Some(e.jti), Some(e.at.Floor), e.at.Floor + ttl), e.at)])
  {
  }

  /** Whatever was issued after the second of the revocation descends from a log-in after it. */
  ghost predicate Rooted(sessions: seq<Session>, user: nat, second: int) {
    forall s :: s in sessions && s.token.user == user && s.token.iat.Some? && s.token.iat.value > second ==>
      s.root.Floor > second
  }

  lemma {:induction false} LaterIsRooted(events: seq<Event>, p: int, user: nat, ttl: nat, now: real)
    requires Timed(events, now) && CutAt(events, user, p)
    ensures Rooted(History(events, ttl).sessions, user, events[p].op.at.Floor)
  {
    hide Answered, Step, CutAt;
    var n := |events| - 1;
    InRange(events, user, p);
    var front, last := events[..n], events[n];
    TimedInit(events, now);
    AllIssued(front, ttl, When(last));
    var c := History(front, ttl);
    if p == n {
      NothingLaterYet(c.sessions, user, last.op.at, ttl);
    } else {
      Shorter(events, user, p);
      LaterIsRooted(front, p, user, ttl, When(last));
      if last.Renew? && last.session < |c.sessions| {
        var parent := c.sessions[last.session];
        assert parent in c.sessions;
        if parent.token.user == user && parent.token.iat.value <= events[p].op.at.Floor {
          CutTokensFail(front, p, parent, ttl, last.at);
        }
      }
    }
  }

  lemma InRange(events: seq<Event>, user: nat, p: int)
    requires CutAt(events, user, p)
    ensures 0 <= p < |events| && events[p].Do? && events[p].op.RevokeAll? && events[p].op.user == user
  {
  }

  lemma Shorter(events: seq<Event>, user: nat, p: int)
    requires CutAt(events, user, p) && p < |events| - 1
    ensures CutAt(events[..|events| - 1], user, p)
  {
  }

  lemma NothingLaterYet(sessions: seq<Session>, user: nat, at: real, ttl: nat)
    requires forall s :: s in sessions ==> Issued(s, at, ttl)
    ensures Rooted(sessions, user, at.Floor)
  {
  }

  /** After `revoke_all_for_user` at T, in every run and however sessions are renewed: a session of
      that user that can still be renewed descends from a log-in after the second of T. No chain of
      renewals leads around the cut-off. */
  lemma {:induction false} RenewableDescendsFromLaterLogIn(events: seq<Event>, p: int, k: nat, ttl: nat, now: real)
    requires Timed(events, now) && k < |History(events, ttl).sessions|
    requires CutAt(events, History(events, ttl).sessions[k].token.user, p)
    ensures var s := History(events, ttl).sessions[k];
            Answered(History(events, ttl).store, s.token, now) == Renewed ==> s.root.Floor > events[p].op.at.Floor
  {
    hide Answered, Step, CutAt, History;
    var c := History(events, ttl);
    var s := c.sessions[k];
    assert s in c.sessions;
    AllIssued(events, ttl, now);
    LaterIsRooted(events, p, s.token.user, ttl, now);
    InRange(events, s.token.user, p);
    if s.token.iat.value <= events[p].op.at.Floor {
      CutTokensFail(events, p, s, ttl, now);
    }
  }
}
