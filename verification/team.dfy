/** Members of an organisation and who may change them: `app/services/team.py`, `signup` in
    `app/services/auth.py` and `count_active_owners` in `app/repositories/identity.py`.
    One service call is one step; the actor is the record the request was authenticated with. */
module Teams {
  import opened Text

  datatype Role = Member | Admin | Owner

  function Rank(role: Role): nat {
    match role
    case Member => 0
    case Admin => 1
    case Owner => 2
  }

  /** `can_act_as` */
  predicate CanActAs(actor: Role, required: Role): (allowed: bool)
    ensures allowed <==> actor == Owner || actor == required || required == Member
  {
    Rank(actor) >= Rank(required)
  }

  datatype User = User(org: nat, email: string, role: Role, active: bool)

  datatype InvitationStatus = Pending | Accepted | Revoked

  datatype Invitation = Invitation(org: nat, email: string, role: Role, status: InvitationStatus, expiresAt: int)

  datatype Db = Db(users: map<nat, User>, invitations: map<nat, Invitation>, orgs: set<nat>)

  const NOBODY := Db(map[], map[], {})

  datatype Actor = Actor(id: nat, org: nat, role: Role)

  datatype Op =
    | Signup(user: nat, org: nat, email: string)
    | Invite(actor: Actor, invitation: nat, email: string, role: Role, expiresAt: int)
    | RevokeInvitation(actor: Actor, invitation: nat)
    | Accept(invitation: nat, user: nat, now: int)
    | Update(actor: Actor, user: nat, newRole: Option<Role>, activate: Option<bool>)
    | Remove(actor: Actor, user: nat)

  datatype Verdict = Done | Invalid | Denied | Missing | Conflict

  /** `count_active_owners` counts these. */
  function Owners(users: map<nat, User>, org: nat): set<nat> {
    set u | u in users && users[u].org == org && users[u].role == Owner && users[u].active
  }

  predicate EmailTaken(users: map<nat, User>, email: string) {
    exists u | u in users :: users[u].email == email
  }

  predicate HasPending(invitations: map<nat, Invitation>, org: nat, email: string) {
    exists i | i in invitations ::
      invitations[i].org == org && invitations[i].email == email && invitations[i].status == Pending
  }

  /** `_apply_role_change` */
  function RoleVerdict(users: map<nat, User>, actor: Actor, member: User, role: Role): Verdict {
    if !CanActAs(actor.role, role) || !CanActAs(actor.role, member.role) then Denied
    else if member.role == Owner && role != Owner && |Owners(users, actor.org)| <= 1 then Conflict
    else Done
  }

  /** `_apply_activation_change`, on the member as the role change left it. */
  function ActivationVerdict(actor: Actor, id: nat, member: User, active: bool): Verdict {
    if actor.id == id && !active then Denied
    else if !CanActAs(actor.role, member.role) then Denied
    else Done
  }

  function Changed(member: User, op: Op): User
    requires op.Update?
  {
    var placed := if op.newRole.Some? then member.(role := op.newRole.value) else member;
    if op.activate.Some? then placed.(active := op.activate.value) else placed
  }

  function UpdateVerdict(db: Db, op: Op): Verdict
    requires op.Update?
  {
    if op.newRole.None? && op.activate.None? then Invalid
    else if op.user !in db.users || db.users[op.user].org != op.actor.org then Missing
    else
      var member := db.users[op.user];
      var first := if op.newRole.Some? then RoleVerdict(db.users, op.actor, member, op.newRole.value) else Done;
      if first != Done then first
      else if op.activate.None? then Done
      else
        var placed := if op.newRole.Some? then member.(role := op.newRole.value) else member;
        ActivationVerdict(op.actor, op.user, placed, op.activate.value)
  }

  function RemoveVerdict(db: Db, actor: Actor, id: nat): Verdict {
    if actor.id == id then Denied
    else if id !in db.users || db.users[id].org != actor.org then Missing
    else if !CanActAs(actor.role, db.users[id].role) then Denied
    else if db.users[id].role == Owner && |Owners(db.users, actor.org)| <= 1 then Conflict
    else Done
  }

  function AcceptVerdict(db: Db, id: nat, now: int): Verdict {
    if id !in db.invitations || db.invitations[id].status != Pending || db.invitations[id].expiresAt <= now then Missing
    else if EmailTaken(db.users, db.invitations[id].email) then Conflict
    else if db.invitations[id].org !in db.orgs then Missing
    else Done
  }

  /** What the call answers. Ids are drawn fresh; one already taken is refused. */
  function Verdicts(db: Db, op: Op): Verdict {
    match op
    case Signup(u, org, email) =>
      if EmailTaken(db.users, email) || u in db.users || org in db.orgs then Conflict else Done
    case Invite(actor, i, email, role, _) =>
      if !CanActAs(actor.role, role) then Denied
      else if EmailTaken(db.users, email) || HasPending(db.invitations, actor.org, email) || i in db.invitations
      then Conflict else Done
    case RevokeInvitation(actor, i) =>
      if i !in db.invitations || db.invitations[i].org != actor.org then Missing
      else if db.invitations[i].status != Pending then Conflict else Done
    case Accept(i, u, now) => if u in db.users then Conflict else AcceptVerdict(db, i, now)
    case Update(_, _, _, _) => UpdateVerdict(db, op)
    case Remove(actor, u) => RemoveVerdict(db, actor, u)
  }

  /** A refused call rolls back. */
  function Step(db: Db, op: Op): Db {
    if Verdicts(db, op) != Done then db else
      match op
      case Signup(u, org, email) =>
        db.(users := db.users[u := User(org, email, Owner, true)], orgs := db.orgs + {org})
      case Invite(actor, i, email, role, expiresAt) =>
        db.(invitations := db.invitations[i := Invitation(actor.org, email, role, Pending, expiresAt)])
      case RevokeInvitation(_, i) =>
        db.(invitations := db.invitations[i := db.invitations[i].(status := Revoked)])
      case Accept(i, u, _) =>
        var invitation := db.invitations[i];
        db.(users := db.users[u := User(invitation.org, invitation.email, invitation.role, true)],
            invitations := db.invitations[i := invitation.(status := Accepted)])
      case Update(_, u, _, _) => db.(users := db.users[u := Changed(db.users[u], op)])
      case Remove(_, u) => db.(users := db.users - {u})
  }

  function Run(db: Db, ops: seq<Op>): Db {
    if ops == [] then db else Step(Run(db, ops[..|ops| - 1]), ops[|ops| - 1])
  }

  // ---------------------------------------------------------------------------------------
  // An organisation keeps an owner

  ghost predicate Owned(db: Db) {
    forall org :: org in db.orgs ==> Owners(db.users, org) != {}
  }

  /** The actor's record is still what the database says, and active. */
  predicate Current(db: Db, actor: Actor) {
    && actor.id in db.users
    && db.users[actor.id].org == actor.org && db.users[actor.id].role == actor.role && db.users[actor.id].active
  }

  /** Suspending the only active owner, as somebody else who was an owner when the request began. */
  predicate SuspendsLastOwner(db: Db, op: Op) {
    && op.Update? && op.activate == Some(false) && (op.newRole.None? || op.newRole == Some(Owner))
    && op.actor.role == Owner && op.actor.id != op.user
    && Owners(db.users, op.actor.org) == {op.user} && op.actor.org in db.orgs
  }

  lemma OwnersAfterChange(users: map<nat, User>, id: nat, next: User, org: nat)
    requires id in users && users[id].org == next.org
    ensures var after := Owners(users[id := next], org);
            && after - {id} == Owners(users, org) - {id}
            && (id in after <==> next.org == org && next.role == Owner && next.active)
  {
  }

  lemma TwoLeaveOne(s: set<nat>, id: nat)
    requires |s| > 1
    ensures s - {id} != {}
  {
    assert |{id}| == 1;
    if s - {id} == {} {
      SubsetSize(s, {id});
    }
  }

  lemma SubsetSize(a: set<nat>, b: set<nat>)
    requires a <= b
    ensures |a| <= |b|
  {
    assert b == a + (b - a);
  }

  /** The verdict allows no demotion of the only active owner. */
  lemma OnlyOwnerKeepsRole(db: Db, op: Op)
    requires op.Update? && UpdateVerdict(db, op) == Done && Owners(db.users, op.actor.org) == {op.user}
    ensures op.newRole.None? || op.newRole == Some(Owner)
    ensures op.activate == Some(false) ==> op.actor.id != op.user && op.actor.role == Owner
  {
    assert op.user in Owners(db.users, op.actor.org);
  }

  lemma LostBy(db: Db, op: Op)
    requires op.Update? && UpdateVerdict(db, op) == Done && Owners(db.users, op.actor.org) != {}
    requires op.actor.org in db.orgs
    ensures var users := db.users[op.user := Changed(db.users[op.user], op)];
            Owners(users, op.actor.org) == {} <==> SuspendsLastOwner(db, op)
  {
    var id, org := op.user, op.actor.org;
    var next := Changed(db.users[id], op);
    var before, after := Owners(db.users, org), Owners(db.users[id := next], org);
    OwnersAfterChange(db.users, id, next, org);
    if before - {id} != {} {
      var other :| other in before - {id};
      assert other in after - {id};
    } else {
      assert before == {id};
      assert id in Owners(db.users, org);
      OnlyOwnerKeepsRole(db, op);
      assert after == {} <==> id !in after by { assert after - {id} == {}; }
    }
  }

  /** An accepted update leaves the organisation without an owner exactly when it suspends the last. */
  lemma UpdateOwned(db: Db, op: Op)
    requires Owned(db) && op.Update? && Verdicts(db, op) == Done
    ensures Owned(Step(db, op)) <==> !SuspendsLastOwner(db, op)
  {
    var id, org := op.user, op.actor.org;
    var next := Changed(db.users[id], op);
    forall o | o != org
      ensures Owners(db.users[id := next], o) == Owners(db.users, o)
    {
      OwnersAfterChange(db.users, id, next, o);
    }
    if org in db.orgs {
      LostBy(db, op);
    }
    hide Owners, UpdateVerdict;
  }

  lemma RemoveOwned(db: Db, op: Op)
    requires Owned(db) && op.Remove? && Verdicts(db, op) == Done
    ensures Owned(Step(db, op))
  {
    var id, org := op.user, op.actor.org;
    forall o | o in db.orgs
      ensures Owners(db.users - {id}, o) != {}
    {
      assert Owners(db.users - {id}, o) == Owners(db.users, o) - {id};
      if id in Owners(db.users, o) {
        TwoLeaveOne(Owners(db.users, o), id);
      }
    }
  }

  lemma AddedOwned(users: map<nat, User>, id: nat, user: User, org: nat)
    requires id !in users
    ensures Owners(users[id := user], org) >= Owners(users, org)
    ensures user == User(org, user.email, Owner, true) ==> id in Owners(users[id := user], org)
  {
  }

  /** In every state: a call costs an organisation its last active owner if and only if it
      suspends that owner. Nothing else does, whoever calls. */
  lemma LosesOwnerExactlyWhen(db: Db, op: Op)
    requires Owned(db)
    ensures !Owned(Step(db, op)) <==> Verdicts(db, op) == Done && SuspendsLastOwner(db, op)
  {
    if Verdicts(db, op) == Done {
      match op
      case Signup(u, org, email) =>
        forall o { AddedOwned(db.users, u, User(org, email, Owner, true), o); }
        hide Owners, Verdicts;
      case Accept(i, u, _) =>
        var invitation := db.invitations[i];
        forall o { AddedOwned(db.users, u, User(invitation.org, invitation.email, invitation.role, true), o); }
        hide Owners, AcceptVerdict;
      case Update(_, _, _, _) => UpdateOwned(db, op);
      case Remove(_, _) => RemoveOwned(db, op);
      case _ =>
    }
  }

  /** An actor whose record is current is an active owner besides the one suspended. */
  lemma CurrentActorsKeepOwner(db: Db, op: Op)
    requires Owned(db) && (op.Update? ==> Current(db, op.actor))
    ensures Owned(Step(db, op))
  {
    LosesOwnerExactlyWhen(db, op);
    if op.Update? && op.actor.role == Owner {
      assert op.actor.id in Owners(db.users, op.actor.org);
    }
  }

  ghost predicate ActorsCurrent(ops: seq<Op>) {
    forall i :: 0 <= i < |ops| && ops[i].Update? ==> Current(Run(NOBODY, ops[..i]), ops[i].actor)
  }

  /** As long as every update is made by a currently active actor, over whole runs. */
  lemma {:induction false} RunKeepsOwner(ops: seq<Op>)
    requires ActorsCurrent(ops)
    ensures Owned(Run(NOBODY, ops))
  {
    if ops != [] {
      var before := ops[..|ops| - 1];
      forall i | 0 <= i < |before| && before[i].Update?
        ensures Current(Run(NOBODY, before[..i]), before[i].actor)
      {
        assert before[..i] == ops[..i];
      }
      RunKeepsOwner(before);
      hide Owned;
      CurrentActorsKeepOwner(Run(NOBODY, before), ops[|ops| - 1]);
    }
  }

  /** Two owners suspending each other, both authenticated before either call ran. */
  lemma MutualSuspension(db: Db, a: nat, b: nat, org: nat)
    requires a != b && org in db.orgs && Owners(db.users, org) == {a, b}
    ensures var first := Update(Actor(a, org, Owner), b, None, Some(false));
            var second := Update(Actor(b, org, Owner), a, None, Some(false));
            Owners(Run(db, [first, second]).users, org) == {}
  {
    var first := Update(Actor(a, org, Owner), b, None, Some(false));
    var second := Update(Actor(b, org, Owner), a, None, Some(false));
    assert a in Owners(db.users, org) && b in Owners(db.users, org);
    assert [first, second][..1] == [first] && [first][..0] == [];
    var middle := Step(db, first);
    assert Run(db, []) == db && Run(db, [first]) == middle && Run(db, [first, second]) == Step(middle, second);
    SuspendsOwner(db, a, b, org);
    SuspendsOwner(middle, b, a, org);
  }

  /** One owner suspends another, whatever has become of the first since. */
  lemma SuspendsOwner(db: Db, a: nat, b: nat, org: nat)
    requires a != b && b in db.users && db.users[b].org == org && db.users[b].role == Owner
    ensures var next := Step(db, Update(Actor(a, org, Owner), b, None, Some(false)));
            && next == db.(users := db.users[b := db.users[b].(active := false)])
            && Owners(next.users, org) == Owners(db.users, org) - {b}
  {
  }

  // ---------------------------------------------------------------------------------------
  // Nobody reaches above their own rank

  lemma {:induction false} NobodyAboveIsTouched(db: Db, op: Op)
    requires op.Update? || op.Remove?
    ensures var next := Step(db, op);
            && next.invitations == db.invitations && next.orgs == db.orgs && next.users.Keys <= db.users.Keys
            && (forall u :: u in db.users && Rank(db.users[u].role) > Rank(op.actor.role) ==>
                  u in next.users && next.users[u] == db.users[u])
            && (forall u :: u in next.users && next.users[u] != db.users[u] ==>
                  u == op.user && db.users[u].org == op.actor.org && Rank(next.users[u].role) <= Rank(op.actor.role))
  {
    hide Owners;
  }

  ghost predicate Took(ops: seq<Op>, k: nat) {
    k < |ops| && Verdicts(Run(NOBODY, ops[..k]), ops[k]) == Done
  }

  /** Call `j` invited whoever holds `i`, by an actor who could act as the role offered. */
  ghost predicate Offered(ops: seq<Op>, j: nat, i: nat, org: nat, email: string, role: Role) {
    && Took(ops, j) && ops[j].Invite? && ops[j].invitation == i
    && ops[j].actor.org == org && ops[j].email == email && ops[j].role == role
    && CanActAs(ops[j].actor.role, role)
  }

  /** Call `k` gave `u` the role they hold: by founding the organisation, by an invitation still open that was
      sent to their address, or by a colleague's change. */
  ghost predicate Granted(ops: seq<Op>, k: nat, u: nat, user: User) {
    && Took(ops, k)
    && match ops[k]
       case Signup(id, org, email) =>
         && id == u && user.org == org && user.email == email && user.role == Owner
         && org !in Run(NOBODY, ops[..k]).orgs
       case Accept(i, id, now) =>
         && id == u
         && exists j: nat :: j < k && Offered(ops, j, i, user.org, user.email, user.role) && now < ops[j].expiresAt
       case Update(actor, id, newRole, _) =>
         id == u && newRole == Some(user.role) && actor.org == user.org && CanActAs(actor.role, user.role)
       case _ => false
  }

  ghost predicate HoldsGranted(ops: seq<Op>, u: nat, user: User) {
    exists k: nat :: Granted(ops, k, u, user)
  }

  ghost predicate WasOffered(ops: seq<Op>, i: nat, v: Invitation) {
    exists j: nat :: Offered(ops, j, i, v.org, v.email, v.role) && ops[j].expiresAt == v.expiresAt
  }

  lemma TookEarlier(ops: seq<Op>, n: nat, k: nat)
    requires n <= |ops| && Took(ops[..n], k)
    ensures Took(ops, k) && ops[..n][k] == ops[k] && ops[..n][..k] == ops[..k]
  {
    assert ops[..n][..k] == ops[..k];
  }

  lemma OfferedEarlier(ops: seq<Op>, n: nat, i: nat, v: Invitation)
    requires n <= |ops| && WasOffered(ops[..n], i, v)
    ensures WasOffered(ops, i, v)
  {
    hide Run;
    var j: nat :| Offered(ops[..n], j, i, v.org, v.email, v.role) && ops[..n][j].expiresAt == v.expiresAt;
    TookEarlier(ops, n, j);
    assert Offered(ops, j, i, v.org, v.email, v.role);
  }

  lemma GrantedEarlier(ops: seq<Op>, n: nat, u: nat, user: User)
    requires n <= |ops| && HoldsGranted(ops[..n], u, user)
    ensures HoldsGranted(ops, u, user)
  {
    hide Took;
    var k: nat :| Granted(ops[..n], k, u, user);
    TookInside(ops[..n], k);
    TookEarlier(ops, n, k);
    if ops[k].Accept? {
      var i := ops[k].invitation;
      var j: nat :| j < k && Offered(ops[..n], j, i, user.org, user.email, user.role)
                 && ops[k].now < ops[..n][j].expiresAt;
      TookInside(ops[..n], j);
      TookEarlier(ops, n, j);
      assert Offered(ops, j, i, user.org, user.email, user.role);
    }
    assert Granted(ops, k, u, user);
  }

  lemma RunLast(ops: seq<Op>)
    requires ops != []
    ensures Run(NOBODY, ops) == Step(Run(NOBODY, ops[..|ops| - 1]), ops[|ops| - 1])
  {
  }

  /** What a call may do to the row of `u`. */
  lemma StepUser(db: Db, op: Op, u: nat)
    requires u in Step(db, op).users
    ensures var user := Step(db, op).users[u];
            || (u in db.users && user == db.users[u].(active := user.active))
            || (Verdicts(db, op) == Done && match op
                case Signup(id, org, email) => id == u && user == User(org, email, Owner, true) && org !in db.orgs
                case Accept(i, id, now) =>
                  && id == u && i in db.invitations && now < db.invitations[i].expiresAt
                  && user == User(db.invitations[i].org, db.invitations[i].email, db.invitations[i].role, true)
                case Update(actor, id, newRole, _) =>
                  id == u && newRole == Some(user.role) && actor.org == user.org && CanActAs(actor.role, user.role)
                case _ => false)
  {
    hide Owners, EmailTaken, HasPending;
  }

  lemma StepInvitation(db: Db, op: Op, i: nat)
    requires i in Step(db, op).invitations
    ensures var v := Step(db, op).invitations[i];
            || (i in db.invitations && v == db.invitations[i].(status := v.status))
            || (Verdicts(db, op) == Done && op.Invite? && op.invitation == i && CanActAs(op.actor.role, op.role)
                && v == Invitation(op.actor.org, op.email, op.role, Pending, op.expiresAt))
  {
    hide Owners, EmailTaken, HasPending, UpdateVerdict, RemoveVerdict;
  }

  /** The last call gives no rank but in one of the three ways. */
  lemma LastGrants(ops: seq<Op>, u: nat)
    requires ops != []
    requires var before := Run(NOBODY, ops[..|ops| - 1]);
             && (forall v :: v in before.users ==> HoldsGranted(ops, v, before.users[v]))
             && (forall i :: i in before.invitations ==> WasOffered(ops, i, before.invitations[i]))
    requires u in Run(NOBODY, ops).users
    ensures HoldsGranted(ops, u, Run(NOBODY, ops).users[u])
  {
    var n := |ops| - 1;
    var before, op := Run(NOBODY, ops[..n]), ops[n];
    RunLast(ops);
    var user := Run(NOBODY, ops).users[u];
    StepUser(before, op, u);
    hide Run, Step, Verdicts;
    if u in before.users && user == before.users[u].(active := user.active) {
      OnlyActivation(ops, u, before.users[u], user);
    } else if op.Accept? {
      LastAccepts(ops, u, user);
    } else {
      assert Granted(ops, n, u, user);
    }
  }

  lemma LastAccepts(ops: seq<Op>, u: nat, user: User)
    requires ops != [] && Took(ops, |ops| - 1) && ops[|ops| - 1].Accept? && ops[|ops| - 1].user == u
    requires var op, before := ops[|ops| - 1], Run(NOBODY, ops[..|ops| - 1]);
             && op.invitation in before.invitations && op.now < before.invitations[op.invitation].expiresAt
             && WasOffered(ops, op.invitation, before.invitations[op.invitation])
             && user.org == before.invitations[op.invitation].org
             && user.email == before.invitations[op.invitation].email
             && user.role == before.invitations[op.invitation].role
    ensures HoldsGranted(ops, u, user)
  {
    hide Run;
    var n := |ops| - 1;
    var v := Run(NOBODY, ops[..n]).invitations[ops[n].invitation];
    var j: nat :| Offered(ops, j, ops[n].invitation, v.org, v.email, v.role) && ops[j].expiresAt == v.expiresAt;
    assert Granted(ops, n, u, user);
  }

  lemma TookInside(ops: seq<Op>, k: nat)
    requires Took(ops, k)
    ensures k < |ops|
  {
  }

  lemma OnlyActivation(ops: seq<Op>, u: nat, was: User, now: User)
    requires HoldsGranted(ops, u, was) && was.(active := true) == now.(active := true)
    ensures HoldsGranted(ops, u, now)
  {
    var k: nat :| Granted(ops, k, u, was);
    hide Took;
    assert Granted(ops, k, u, now);
  }

  lemma LastOffers(ops: seq<Op>, i: nat)
    requires ops != []
    requires var before := Run(NOBODY, ops[..|ops| - 1]);
             forall v :: v in before.invitations ==> WasOffered(ops, v, before.invitations[v])
    requires i in Run(NOBODY, ops).invitations
    ensures WasOffered(ops, i, Run(NOBODY, ops).invitations[i])
  {
    var n := |ops| - 1;
    var before := Run(NOBODY, ops[..n]);
    RunLast(ops);
    var v := Run(NOBODY, ops).invitations[i];
    StepInvitation(before, ops[n], i);
    hide Run, Step, Verdicts;
    if i in before.invitations && v == before.invitations[i].(status := v.status) {
      assert WasOffered(ops, i, before.invitations[i]);
    } else {
      assert Offered(ops, n, i, v.org, v.email, v.role);
    }
  }

  /** Everything in `db` was granted or offered in the course of `ops`. */
  ghost predicate AllGranted(ops: seq<Op>, db: Db) {
    && (forall u :: u in db.users ==> HoldsGranted(ops, u, db.users[u]))
    && (forall i :: i in db.invitations ==> WasOffered(ops, i, db.invitations[i]))
  }

  lemma AllGrantedLonger(ops: seq<Op>, n: nat, db: Db)
    requires n <= |ops| && AllGranted(ops[..n], db)
    ensures AllGranted(ops, db)
  {
    forall u | u in db.users
      ensures HoldsGranted(ops, u, db.users[u])
    {
      GrantedEarlier(ops, n, u, db.users[u]);
    }
    forall i | i in db.invitations
      ensures WasOffered(ops, i, db.invitations[i])
    {
      OfferedEarlier(ops, n, i, db.invitations[i]);
    }
  }

  lemma AllGrantedAfter(ops: seq<Op>)
    requires ops != [] && AllGranted(ops, Run(NOBODY, ops[..|ops| - 1]))
    ensures AllGranted(ops, Run(NOBODY, ops))
  {
    var after := Run(NOBODY, ops);
    hide Run, HoldsGranted, WasOffered;
    forall u | u in after.users
      ensures HoldsGranted(ops, u, after.users[u])
    {
      LastGrants(ops, u);
    }
    forall i | i in after.invitations
      ensures WasOffered(ops, i, after.invitations[i])
    {
      LastOffers(ops, i);
    }
  }

  /** Over whole runs: everybody's role, organisation and address came from one of three calls,
      the signup that founded the organisation, the acceptance of an open invitation from somebody
      who could act as that role, or a change by such a colleague. */
  lemma {:induction false} RanksAreGranted(ops: seq<Op>)
    ensures AllGranted(ops, Run(NOBODY, ops))
  {
    hide HoldsGranted, WasOffered;
    if ops != [] {
      RanksAreGranted(ops[..|ops| - 1]);
      AllGrantedLonger(ops, |ops| - 1, Run(NOBODY, ops[..|ops| - 1]));
      AllGrantedAfter(ops);
    }
  }

  // ---------------------------------------------------------------------------------------
  // Invitations

  predicate SamePending(a: Invitation, b: Invitation) {
    a.status == Pending && b.status == Pending && a.org == b.org && a.email == b.email
  }

  ghost predicate InvitationsGood(db: Db) {
    && (forall u, v :: u in db.users && v in db.users && db.users[u].email == db.users[v].email ==> u == v)
    && (forall i, j :: i in db.invitations && j in db.invitations ==>
          (SamePending(db.invitations[i], db.invitations[j]) ==> i == j))
  }

  lemma StepKeepsInvitations(db: Db, op: Op)
    requires InvitationsGood(db)
    ensures InvitationsGood(Step(db, op))
  {
    hide UpdateVerdict, RemoveVerdict;
    if Verdicts(db, op) == Done {
      match op
      case Update(_, u, _, _) => UpdateTarget(db, op);
      case Invite(actor, i, email, _, _) =>
      case _ =>
    }
  }

  lemma UpdateTarget(db: Db, op: Op)
    requires op.Update? && UpdateVerdict(db, op) == Done
    ensures op.user in db.users
  {
  }

  /** Addresses stay unique across the platform, and an organisation has at most one pending
      invitation to each. */
  lemma {:induction false} RunKeepsInvitations(ops: seq<Op>)
    ensures InvitationsGood(Run(NOBODY, ops))
  {
    if ops != [] {
      RunKeepsInvitations(ops[..|ops| - 1]);
      hide InvitationsGood;
      StepKeepsInvitations(Run(NOBODY, ops[..|ops| - 1]), ops[|ops| - 1]);
    }
  }

  /** An invitation accepted or revoked stays so, and admits nobody any more. */
  lemma {:induction false} SpentForGood(db: Db, ops: seq<Op>, i: nat)
    requires i in db.invitations && db.invitations[i].status != Pending
    ensures var after := Run(db, ops);
            && i in after.invitations && after.invitations[i] == db.invitations[i]
            && forall u, now :: Verdicts(after, Accept(i, u, now)) != Done
  {
    if ops != [] {
      SpentForGood(db, ops[..|ops| - 1], i);
      hide UpdateVerdict, RemoveVerdict, EmailTaken, HasPending;
    }
  }

  // ---------------------------------------------------------------------------------------
  // The service

  predicate ActiveOwner(user: User, org: nat) {
    user.org == org && user.role == Owner && user.active
  }

  ghost predicate TwoActiveOwners(users: map<nat, User>, org: nat) {
    exists a, b :: a in users && b in users && a != b && ActiveOwner(users[a], org) && ActiveOwner(users[b], org)
  }

  /** The count asks for two active owners. */
  lemma CountMeansTwo(users: map<nat, User>, org: nat)
    ensures |Owners(users, org)| > 1 <==> TwoActiveOwners(users, org)
  {
    var owners := Owners(users, org);
    if |owners| > 1 {
      var a :| a in owners;
      TwoLeaveOne(owners, a);
      var b :| b in owners - {a};
      assert ActiveOwner(users[a], org) && ActiveOwner(users[b], org);
    }
    if TwoActiveOwners(users, org) {
      var a, b :| a in users && b in users && a != b && ActiveOwner(users[a], org) && ActiveOwner(users[b], org);
      SubsetSize({a, b}, owners);
      assert |{a, b}| == 2;
    }
  }

  class TeamService {
    var users: map<nat, User>
    var invitations: map<nat, Invitation>
    var orgs: set<nat>

    constructor ()
      ensures Contents() == NOBODY
    {
      users, invitations, orgs := map[], map[], {};
    }

    function Contents(): Db
      reads this
    {
      Db(users, invitations, orgs)
    }

    /** `invite_member`, for an invitation id not yet in use. */
    method InviteMember(actor: Actor, id: nat, email: string, role: Role, expiresAt: int)
      returns (verdict: Verdict)
      requires id !in invitations
      modifies this`invitations
      ensures verdict == Verdicts(old(Contents()), Invite(actor, id, email, role, expiresAt))
      ensures Contents() == Step(old(Contents()), Invite(actor, id, email, role, expiresAt))
      ensures verdict == Denied <==> !CanActAs(actor.role, role)
      ensures verdict == Done <==>
                && CanActAs(actor.role, role)
                && (forall u :: u in users ==> users[u].email != email)
                && (forall i :: i in old(invitations) && old(invitations)[i].status == Pending ==>
                      !(old(invitations)[i].org == actor.org && old(invitations)[i].email == email))
      ensures invitations == if verdict != Done then old(invitations)
                             else old(invitations)[id := Invitation(actor.org, email, role, Pending, expiresAt)]
    {
      if !CanActAs(actor.role, role) {
        return Denied;
      }
      if EmailTaken(users, email) {
        return Conflict;
      }
      if HasPending(invitations, actor.org, email) {
        return Conflict;
      }
      invitations := invitations[id := Invitation(actor.org, email, role, Pending, expiresAt)];
      return Done;
    }

    /** `revoke_invitation` */
    method Revoke(actor: Actor, id: nat) returns (verdict: Verdict)
      modifies this`invitations
      ensures verdict == Verdicts(old(Contents()), RevokeInvitation(actor, id))
      ensures Contents() == Step(old(Contents()), RevokeInvitation(actor, id))
      ensures verdict == Done <==>
                && id in old(invitations) && old(invitations)[id].org == actor.org
                && old(invitations)[id].status == Pending
      ensures invitations == if verdict != Done then old(invitations)
                             else old(invitations)[id := old(invitations)[id].(status := Revoked)]
    {
      if id !in invitations || invitations[id].org != actor.org {
        return Missing;
      }
      if invitations[id].status != Pending {
        return Conflict;
      }
      invitations := invitations[id := invitations[id].(status := Revoked)];
      return Done;
    }

    /** `update_member`: the row is written only once both changes were allowed. */
    method UpdateMember(actor: Actor, id: nat, newRole: Option<Role>, activate: Option<bool>)
      returns (verdict: Verdict)
      modifies this`users
      ensures verdict == Verdicts(old(Contents()), Update(actor, id, newRole, activate))
      ensures Contents() == Step(old(Contents()), Update(actor, id, newRole, activate))
      ensures verdict == Done <==>
                && (newRole.Some? || activate.Some?)
                && id in old(users) && old(users)[id].org == actor.org
                && var role := old(users)[id].role;
                   && (newRole.Some? ==>
                         && CanActAs(actor.role, newRole.value) && CanActAs(actor.role, role)
                         && (role == Owner && newRole.value != Owner ==> TwoActiveOwners(old(users), actor.org)))
                   && (activate.Some? ==>
                         && CanActAs(actor.role, if newRole.Some? then newRole.value else role)
                         && (actor.id == id ==> activate.value))
      ensures verdict == Done ==>
                var was := old(users)[id];
                users == old(users)[id := User(was.org, was.email,
                                               if newRole.Some? then newRole.value else was.role,
                                               if activate.Some? then activate.value else was.active)]
      ensures verdict != Done ==> users == old(users)
    {
      CountMeansTwo(users, actor.org);
      hide Owners, TwoActiveOwners;
      if newRole.None? && activate.None? {
        return Invalid;
      }
      if id !in users || users[id].org != actor.org {
        return Missing;
      }
      var member := users[id];
      if newRole.Some? {
        if !CanActAs(actor.role, newRole.value) {
          return Denied;
        }
        if !CanActAs(actor.role, member.role) {
          return Denied;
        }
        if member.role == Owner && newRole.value != Owner && |Owners(users, actor.org)| <= 1 {
          return Conflict;
        }
        member := member.(role := newRole.value);
      }
      if activate.Some? {
        if actor.id == id && !activate.value {
          return Denied;
        }
        if !CanActAs(actor.role, member.role) {
          return Denied;
        }
        member := member.(active := activate.value);
      }
      users := users[id := member];
      return Done;
    }

    /** `remove_member` */
    method RemoveMember(actor: Actor, id: nat) returns (verdict: Verdict)
      modifies this`users
      ensures verdict == Verdicts(old(Contents()), Remove(actor, id))
      ensures Contents() == Step(old(Contents()), Remove(actor, id))
      ensures verdict == Done <==>
                && actor.id != id && id in old(users) && old(users)[id].org == actor.org
                && CanActAs(actor.role, old(users)[id].role)
                && (old(users)[id].role == Owner ==> TwoActiveOwners(old(users), actor.org))
      ensures users == if verdict == Done then old(users) - {id} else old(users)
    {
      CountMeansTwo(users, actor.org);
      hide Owners, TwoActiveOwners;
      if actor.id == id {
        return Denied;
      }
      if id !in users || users[id].org != actor.org {
        return Missing;
      }
      if !CanActAs(actor.role, users[id].role) {
        return Denied;
      }
      if users[id].role == Owner && |Owners(users, actor.org)| <= 1 {
        return Conflict;
      }
      users := users - {id};
      return Done;
    }

    /** `accept_invitation`, for a user id not yet in use. */
    method AcceptInvitation(id: nat, newUser: nat, now: int) returns (verdict: Verdict)
      requires newUser !in users
      modifies this`users, this`invitations
      ensures verdict == Verdicts(old(Contents()), Accept(id, newUser, now))
      ensures Contents() == Step(old(Contents()), Accept(id, newUser, now))
      ensures verdict == Done <==>
                && id in old(invitations) && old(invitations)[id].status == Pending
                && now < old(invitations)[id].expiresAt && old(invitations)[id].org in orgs
                && forall u :: u in old(users) ==> old(users)[u].email != old(invitations)[id].email
      ensures verdict == Done ==>
                var offer := old(invitations)[id];
                && users == old(users)[newUser := User(offer.org, offer.email, offer.role, true)]
                && invitations == old(invitations)[id := offer.(status := Accepted)]
      ensures verdict != Done ==> users == old(users) && invitations == old(invitations)
    {
      if id !in invitations || invitations[id].status != Pending || invitations[id].expiresAt <= now {
        return Missing;
      }
      var invitation := invitations[id];
      if EmailTaken(users, invitation.email) {
        return Conflict;
      }
      if invitation.org !in orgs {
        return Missing;
      }
      users := users[newUser := User(invitation.org, invitation.email, invitation.role, true)];
      invitations := invitations[id := invitation.(status := Accepted)];
      return Done;
    }
  }
}
