/** Refresh tokens and their deny-list: `app/services/revocation.py`, `app/services/auth.py`
    and the claims in `app/core/security.py`. The clock is a real number of seconds and does not
    run backwards; tokens carry whole seconds (section 4.1 of RFC 7519). */
module Sessions {
  import opened Arithmetic
  import opened Text

  // ---------------------------------------------------------------------------------------
  // Claims

  datatype Kind = Access | Refresh

  /** The claims of a token whose signature checked out. Old tokens may lack `jti` or `iat`. */
  datatype Token = Token(user: nat, kind: Kind, jti: Option<nat>, iat: Option<int>, exp: int)

  /** `create_token`: both stamps lose their fraction when they are written. */
  function Mint(user: nat, kind: Kind, jti: nat, now: real, ttl: nat): Token {
    Token(user, kind, Some(jti), Some(now.Floor), now.Floor + ttl)
  }

  /** `decode_token`: on or after `exp` a token is refused (section 4.1.4 of RFC 7519). */
  predicate Decodes(t: Token, kind: Kind, now: real) {
    now < t.exp as real && t.kind == kind
  }

  // ---------------------------------------------------------------------------------------
  // The two kinds of expiring key

  /** A key set with EX holds until its time has passed. */
  datatype CutOff = CutOff(at: int, until: real)

  datatype Store = Store(denied: map<nat, real>, cutOffs: map<nat, CutOff>, inactive: set<nat>)

  const EMPTY := Store(map[], map[], {})

  /** `int()` rounds toward zero. */
  function Truncate(x: real): int {
    if x >= 0.0 then x.Floor else -((-x).Floor)
  }

  /** `_seconds_until` */
  function SecondsUntil(expiresAt: Option<int>, now: real, ttl: nat): int {
    match expiresAt
    case None => ttl
    case Some(exp) =>
      var remaining := Min(Truncate(exp as real - now), ttl);
      if remaining < 1 then 1 else remaining
  }

  predicate IsDenied(s: Store, jti: Option<nat>, now: real) {
    jti.Some? && jti.value in s.denied && now < s.denied[jti.value]
  }

  /** `issued_before_cutoff` */
  predicate BeforeCutOff(s: Store, user: nat, iat: Option<int>, now: real) {
    && user in s.cutOffs && now < s.cutOffs[user].until
    && (iat.Some? ==> iat.value <= s.cutOffs[user].at)
  }

  datatype Answer = Unreadable | SignedOut | NoLongerValid | Deactivated | Renewed

  /** `refresh_tokens` up to the new pair. */
  function Answered(s: Store, t: Token, now: real): Answer {
    if !Decodes(t, Refresh, now) then Unreadable
    else if IsDenied(s, t.jti, now) then SignedOut
    else if BeforeCutOff(s, t.user, t.iat, now) then NoLongerValid
    else if t.user in s.inactive then Deactivated
    else Renewed
  }

  // ---------------------------------------------------------------------------------------
  // Steps

  datatype Op =
    | Logout(token: Token, at: real)
    | RevokeAll(user: nat, at: real)
    | SetActive(user: nat, active: bool, at: real)

  function Step(s: Store, op: Op, ttl: nat): Store {
    match op
    case Logout(t, now) =>
      if !Decodes(t, Refresh, now) || t.jti.None? then s
      else s.(denied := s.denied[t.jti.value := now + SecondsUntil(Some(t.exp), now, ttl) as real])
    case RevokeAll(user, now) =>
      s.(cutOffs := s.cutOffs[user := CutOff(now.Floor, now + ttl as real)])
    case SetActive(user, active, _) =>
      s.(inactive := if active then s.inactive - {user} else s.inactive + {user})
  }

  function Run(s: Store, ops: seq<Op>, ttl: nat): Store {
    if ops == [] then s else Step(Run(s, ops[..|ops| - 1], ttl), ops[|ops| - 1], ttl)
  }

  /** The clock does not run backwards, and `now` is not before the last step. */
  ghost predicate WellTimed(ops: seq<Op>, now: real) {
    && (forall i, j :: 0 <= i < j < |ops| ==> ops[i].at <= ops[j].at)
    && (forall i :: 0 <= i < |ops| ==> ops[i].at <= now)
  }

  lemma WellTimedInit(ops: seq<Op>, now: real)
    requires WellTimed(ops, now) && ops != []
    ensures WellTimed(ops[..|ops| - 1], ops[|ops| - 1].at)
  {
  }

  // ---------------------------------------------------------------------------------------
  // Signing a user out everywhere

  /** Some `revoke_all_for_user` in the history came in or after the second the token was issued. */
  ghost predicate Retired(ops: seq<Op>, t: Token) {
    exists i :: 0 <= i < |ops| && Retires(ops[i], t)
  }

  predicate Retires(op: Op, t: Token) {
    op.RevokeAll? && op.user == t.user && t.iat.Some? && t.iat.value <= op.at.Floor
  }

  predicate Sets(op: Op, user: nat, second: int) {
    op.RevokeAll? && op.user == user && op.at.Floor == second
  }

  /** The one key per user remembers the latest cut-off and outlives every token it covers. */
  ghost predicate Remembers(s: Store, ops: seq<Op>, user: nat, ttl: nat) {
    && (user in s.cutOffs ==> exists i :: 0 <= i < |ops| && Sets(ops[i], user, s.cutOffs[user].at))
    && (forall i :: 0 <= i < |ops| && ops[i].RevokeAll? && ops[i].user == user ==>
          && user in s.cutOffs && ops[i].at.Floor <= s.cutOffs[user].at
          && ops[i].at + ttl as real <= s.cutOffs[user].until)
  }

  lemma FloorIsMonotone(a: real, b: real)
    requires a <= b
    ensures a.Floor <= b.Floor
  {
  }

  lemma {:induction false} RunRemembers(ops: seq<Op>, user: nat, ttl: nat, now: real)
    requires WellTimed(ops, now)
    ensures Remembers(Run(EMPTY, ops, ttl), ops, user, ttl)
  {
    if ops != [] {
      var before, op := ops[..|ops| - 1], ops[|ops| - 1];
      WellTimedInit(ops, now);
      RunRemembers(before, user, ttl, op.at);
      StepRemembers(Run(EMPTY, before, ttl), before, op, user, ttl, now);
      assert before + [op] == ops;
    }
  }

  lemma StepRemembers(s: Store, before: seq<Op>, op: Op, user: nat, ttl: nat, now: real)
    requires Remembers(s, before, user, ttl) && WellTimed(before + [op], now)
    ensures Remembers(Step(s, op, ttl), before + [op], user, ttl)
  {
    hide SecondsUntil;
    var ops := before + [op];
    if op.RevokeAll? && op.user == user {
      assert ops[|before|] == op;
      forall i | 0 <= i < |ops|
        ensures ops[i].at.Floor <= op.at.Floor
      {
        assert ops[i].at <= ops[|before|].at;
        FloorIsMonotone(ops[i].at, op.at);
      }
      assert Sets(ops[|before|], user, op.at.Floor);
    } else if user in s.cutOffs {
      var i :| 0 <= i < |before| && Sets(before[i], user, s.cutOffs[user].at);
      assert Sets(ops[i], user, s.cutOffs[user].at);
    }
  }

  /** While a token has not expired, the expiring cut-off key answers as the whole history would. */
  lemma {:induction false} CutOffIsHistory(ops: seq<Op>, t: Token, ttl: nat, now: real)
    requires WellTimed(ops, now) && t.iat.Some? && t.exp <= t.iat.value + ttl && now < t.exp as real
    ensures BeforeCutOff(Run(EMPTY, ops, ttl), t.user, t.iat, now) <==> Retired(ops, t)
  {
    RunRemembers(ops, t.user, ttl, now);
    var s := Run(EMPTY, ops, ttl);
    hide Run;
    if Retired(ops, t) {
      var i :| 0 <= i < |ops| && Retires(ops[i], t);
      assert ops[i].at.Floor as real <= ops[i].at;
    }
  }

  /** After `revoke_all_for_user` no token issued up to that second is renewed again: while the
      key lives it is refused, and the key outlives it. */
  lemma RevokedForGood(ops: seq<Op>, k: nat, t: Token, ttl: nat, now: real)
    requires WellTimed(ops, now) && k < |ops| && ops[k].RevokeAll? && ops[k].user == t.user
    requires t.iat.Some? && t.exp <= t.iat.value + ttl && t.iat.value <= ops[k].at.Floor
    ensures Answered(Run(EMPTY, ops, ttl), t, now) != Renewed
  {
    if now < t.exp as real {
      assert Retires(ops[k], t);
      CutOffIsHistory(ops, t, ttl, now);
    }
  }

  /** A session issued later in that very second is refused as well. */
  lemma SameSecondIsRefused(user: nat, jti: nat, revoked: real, issued: real, ttl: nat, now: real)
    requires revoked <= issued <= now && issued.Floor == revoked.Floor
    ensures Answered(Run(EMPTY, [RevokeAll(user, revoked)], ttl), Mint(user, Refresh, jti, issued, ttl), now)
         != Renewed
  {
    RevokedForGood([RevokeAll(user, revoked)], 0, Mint(user, Refresh, jti, issued, ttl), ttl, now);
  }

  // ---------------------------------------------------------------------------------------
  // Signing one session out

  /** The second-resolution TTL ends before the token does exactly when more than a second, but
      not a whole number of seconds, was left; the hole is shorter than a second. */
  lemma {:induction false} EntryLapsesEarly(exp: int, now: real, ttl: nat)
    requires now < exp as real <= now + ttl as real
    ensures var until := now + SecondsUntil(Some(exp), now, ttl) as real;
            && (exp as real > until <==> exp as real - now > 1.0 && now != (now.Floor as real))
            && exp as real - until < 1.0
  {
    WholeTogether(exp, now);
  }

  lemma {:induction false} WholeTogether(exp: int, now: real)
    ensures var left := exp as real - now;
            now == (now.Floor as real) <==> left == (left.Floor as real)
  {
    var left := exp as real - now;
    if now == (now.Floor as real) {
      assert left == (exp - now.Floor) as real;
    }
    if left == (left.Floor as real) {
      assert now == (exp - left.Floor) as real;
    }
  }

  /** A concrete hole: signed out at 0.5, the entry is gone at 9.5, the token lives until 10. */
  lemma SignedOutThenRenewed()
    ensures var t := Token(7, Refresh, Some(1), Some(0), 10);
            var s := Run(EMPTY, [Logout(t, 0.5)], 10);
            Answered(s, t, 9.4) == SignedOut && Answered(s, t, 9.6) == Renewed
  {
    var t := Token(7, Refresh, Some(1), Some(0), 10);
    assert (10.0 - 0.5).Floor == 9;
    assert Run(EMPTY, [], 10) == EMPTY;
    assert [Logout(t, 0.5)][..0] == [];
  }

  predicate SignsOut(op: Op, t: Token) {
    op.Logout? && op.token == t && Decodes(t, Refresh, op.at)
  }

  ghost predicate SignedOutIn(ops: seq<Op>, t: Token) {
    exists i :: 0 <= i < |ops| && SignsOut(ops[i], t)
  }

  /** Nobody else carries this token's identifier. */
  ghost predicate OwnIdentifier(ops: seq<Op>, t: Token) {
    forall i :: 0 <= i < |ops| && ops[i].Logout? && ops[i].token.jti == t.jti ==> ops[i].token == t
  }

  lemma {:induction false} DeniedIsHistory(ops: seq<Op>, t: Token, ttl: nat, now: real)
    requires WellTimed(ops, now) && OwnIdentifier(ops, t) && t.jti.Some?
    requires forall i :: 0 <= i < |ops| && ops[i].Logout? && ops[i].token == t ==>
               t.exp as real <= ops[i].at + ttl as real
    ensures var denied := Run(EMPTY, ops, ttl).denied;
            && (t.jti.value in denied <==> SignedOutIn(ops, t))
            && (t.jti.value in denied ==> (t.exp - 1) as real < denied[t.jti.value])
  {
    if ops != [] {
      var before, op := ops[..|ops| - 1], ops[|ops| - 1];
      WellTimedInit(ops, now);
      DeniedIsHistory(before, t, ttl, op.at);
      SignedOutSnoc(ops, t);
      var s := Run(EMPTY, before, ttl);
      hide Run;
      if SignsOut(op, t) {
        EntryLapsesEarly(t.exp, op.at, ttl);
      }
      hide SecondsUntil, SignedOutIn;
    }
  }

  lemma SignedOutSnoc(ops: seq<Op>, t: Token)
    requires ops != []
    ensures SignedOutIn(ops, t) <==> SignedOutIn(ops[..|ops| - 1], t) || SignsOut(ops[|ops| - 1], t)
  {
    var before := ops[..|ops| - 1];
    if SignedOutIn(before, t) {
      var i :| 0 <= i < |before| && SignsOut(before[i], t);
      assert ops[i] == before[i];
    }
    if SignedOutIn(ops, t) && !SignsOut(ops[|ops| - 1], t) {
      var i :| 0 <= i < |ops| && SignsOut(ops[i], t);
      assert before[i] == ops[i];
    }
  }

  // ---------------------------------------------------------------------------------------
  // The deny-list as a whole

  /** The account as the history left it. */
  predicate ActiveAfter(ops: seq<Op>, user: nat) {
    if ops == [] then true
    else
      var op := ops[|ops| - 1];
      if op.SetActive? && op.user == user then op.active else ActiveAfter(ops[..|ops| - 1], user)
  }

  lemma {:induction false} ActiveIsHistory(ops: seq<Op>, user: nat, ttl: nat)
    ensures user in Run(EMPTY, ops, ttl).inactive <==> !ActiveAfter(ops, user)
  {
    if ops != [] {
      ActiveIsHistory(ops[..|ops| - 1], user, ttl);
    }
  }

  /** Until the last second of its life a token is renewed exactly when, over the whole history,
      it was never signed out, its user never revoked in or after its second, and the account is
      active. Nothing is lost by letting the keys expire. */
  lemma {:induction false} RenewalIsHistory(ops: seq<Op>, t: Token, issued: real, ttl: nat, now: real)
    requires WellTimed(ops, now) && OwnIdentifier(ops, t)
    requires t.jti.Some? && t == Mint(t.user, Refresh, t.jti.value, issued, ttl)
    requires forall i :: 0 <= i < |ops| && ops[i].Logout? && ops[i].token == t ==> issued <= ops[i].at
    requires now <= (t.exp - 1) as real
    ensures Answered(Run(EMPTY, ops, ttl), t, now) == Renewed <==>
              !SignedOutIn(ops, t) && !Retired(ops, t) && ActiveAfter(ops, t.user)
  {
    assert issued.Floor as real <= issued;
    DeniedIsHistory(ops, t, ttl, now);
    CutOffIsHistory(ops, t, ttl, now);
    ActiveIsHistory(ops, t.user, ttl);
    hide Run, SignedOutIn, Retired, ActiveAfter;
  }

  /** A session nobody has ended is renewed for its whole lifetime, counted from the second it was
      issued in, and not a moment longer; an access token never is. */
  lemma FreshSessionLasts(user: nat, jti: nat, issued: real, ttl: nat, now: real)
    requires issued <= now
    ensures Answered(EMPTY, Mint(user, Refresh, jti, issued, ttl), now) == Renewed <==>
              now < issued.Floor as real + ttl as real
    ensures Answered(EMPTY, Mint(user, Access, jti, issued, ttl), now) == Unreadable
  {
    assert (issued.Floor + ttl) as real == issued.Floor as real + ttl as real;
  }

  // ---------------------------------------------------------------------------------------
  // The service

  class TokenService {
    const accessTtl: nat
    const ttl: nat
    var denied: map<nat, real>
    var cutOffs: map<nat, CutOff>
    var inactive: set<nat>

    constructor (accessTtl: nat, ttl: nat)
      ensures this.accessTtl == accessTtl && this.ttl == ttl && Contents() == EMPTY
    {
      this.accessTtl, this.ttl := accessTtl, ttl;
      denied, cutOffs, inactive := map[], map[], {};
    }

    function Contents(): Store
      reads this
    {
      Store(denied, cutOffs, inactive)
    }

    /** `revoke_token` */
    method RevokeToken(jti: nat, expiresAt: Option<int>, now: real)
      modifies this`denied
      ensures jti in denied && denied == old(denied)[jti := denied[jti]]
      ensures denied[jti] >= now + 1.0 || ttl == 0
      ensures expiresAt.Some? && now < expiresAt.value as real <= now + ttl as real ==>
                && (expiresAt.value - 1) as real < denied[jti]
                && denied[jti] == now + SecondsUntil(expiresAt, now, ttl) as real
      ensures expiresAt.None? ==> denied[jti] == now + ttl as real
    {
      denied := denied[jti := now + SecondsUntil(expiresAt, now, ttl) as real];
      if expiresAt.Some? && now < expiresAt.value as real <= now + ttl as real {
        EntryLapsesEarly(expiresAt.value, now, ttl);
      }
    }

    /** `revoke_all_for_user` */
    method RevokeAllForUser(user: nat, now: real)
      modifies this`cutOffs
      ensures Contents() == Step(old(Contents()), RevokeAll(user, now), ttl)
      ensures cutOffs == old(cutOffs)[user := CutOff(now.Floor, now + ttl as real)]
    {
      cutOffs := cutOffs[user := CutOff(now.Floor, now + ttl as real)];
    }

    /** `logout`: silent about a token it cannot read. */
    method SignOut(t: Token, now: real)
      modifies this`denied
      ensures Contents() == Step(old(Contents()), Logout(t, now), ttl)
      ensures t.kind == Refresh && now < t.exp as real && t.jti.Some? ==>
                && t.jti.value in denied && denied == old(denied)[t.jti.value := denied[t.jti.value]]
                && (t.exp as real <= now + ttl as real ==> (t.exp - 1) as real < denied[t.jti.value])
      ensures t.kind != Refresh || t.exp as real <= now || t.jti.None? ==> denied == old(denied)
    {
      if !Decodes(t, Refresh, now) {
        return;
      }
      if t.jti.Some? {
        denied := denied[t.jti.value := now + SecondsUntil(Some(t.exp), now, ttl) as real];
        if t.exp as real <= now + ttl as real {
          EntryLapsesEarly(t.exp, now, ttl);
        }
      }
    }

    /** `refresh_tokens`. The pair is issued now, each with its own lifetime; unless the old token
        claims to come from the future, no cut-off in force covers the new one. */
    method RefreshTokens(t: Token, accessId: nat, refreshId: nat, now: real)
      returns (answer: Answer, pair: seq<Token>)
      ensures answer == Answered(Contents(), t, now)
      ensures answer == Unreadable <==> t.kind != Refresh || t.exp as real <= now
      ensures var out := t.jti.Some? && t.jti.value in denied && now < denied[t.jti.value];
              var cut := && t.user in cutOffs && now < cutOffs[t.user].until
                         && (t.iat.Some? ==> t.iat.value <= cutOffs[t.user].at);
              answer != Unreadable ==>
                && (answer == SignedOut <==> out) && (answer == NoLongerValid <==> !out && cut)
                && (answer == Deactivated <==> !out && !cut && t.user in inactive)
      ensures answer != Renewed ==> pair == []
      ensures answer == Renewed ==>
                pair == [Token(t.user, Access, Some(accessId), Some(now.Floor), now.Floor + accessTtl),
                         Token(t.user, Refresh, Some(refreshId), Some(now.Floor), now.Floor + ttl)]
      ensures answer == Renewed && (t.iat.Some? ==> t.iat.value <= now.Floor) ==>
                !BeforeCutOff(Contents(), t.user, pair[1].iat, now)
    {
      pair := [];
      if !Decodes(t, Refresh, now) {
        return Unreadable, pair;
      }
      if IsDenied(Contents(), t.jti, now) {
        return SignedOut, pair;
      }
      if BeforeCutOff(Contents(), t.user, t.iat, now) {
        return NoLongerValid, pair;
      }
      if t.user in inactive {
        return Deactivated, pair;
      }
      return Renewed, [Mint(t.user, Access, accessId, now, accessTtl), Mint(t.user, Refresh, refreshId, now, ttl)];
    }
  }
}
