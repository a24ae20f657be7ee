/** Many extractions of one visitor at once, transaction by transaction: `extract_visitor_memory`
    and `_store` in `app/services/nuvrag_mem/extraction.py` under `held_lock`. A transaction sees
    what is committed plus its own inserts, so two of them side by side would each miss what the
    other is about to write. */
module ExtractionRuns {
  import opened Text
  import opened HeldLocks
  import opened Extraction

  datatype Phase =
    | Waiting                                                        // lock held, nothing begun
    | Storing(own: Notes, held: nat, todo: seq<Candidate>)           // transaction open
    | Finished                                                       // committed or rolled back

  datatype Exec = Exec(conversation: nat, width: nat, candidates: seq<Candidate>, phase: Phase)

  /** Everything about one (chatbot, session) subject. `live` is its conversation, which may be
      deleted and opened again under a new id; locks are keyed by conversation, notes by subject. */
  datatype World = World(now: real, locks: map<nat, Lock>, live: Option<nat>, conversations: nat,
                         notes: Notes, nextId: nat, execs: map<nat, Exec>)

  const START := World(0.0, map[], None, 0, map[], 0, map[])

  datatype Op =
    | Enter(token: nat, conversation: nat, width: nat, candidates: seq<Candidate>)
    | Begin(token: nat)
    | HandleNext(token: nat)
    | Commit(token: nat)
    | Leave(token: nat)
    | Remove(ids: set<nat>)          // a sweep or an erasure
    | DeleteConversation
    | OpenConversation
    | Wait(seconds: real)

  function LockAt(w: World, conversation: nat): Lock {
    if conversation in w.locks then w.locks[conversation] else FREE
  }

  function SetLock(w: World, conversation: nat, lock: Lock): World {
    w.(locks := w.locks[conversation := lock])
  }

  function SetPhase(w: World, token: nat, phase: Phase): World
    requires token in w.execs
  {
    w.(execs := w.execs[token := w.execs[token].(phase := phase)])
  }

  predicate Holding(w: World, token: nat) {
    token in w.execs && w.execs[token].phase.Storing?
  }

  /** Rows a transaction has inserted hold a lock on the conversation they refer to. */
  predicate Referenced(w: World) {
    exists t | t in w.execs ::
      Holding(w, t) && w.execs[t].phase.own != map[] && Some(w.execs[t].conversation) == w.live
  }

  function Step(config: Config, w: World, op: Op): World {
    match op
    case Enter(token, conversation, width, candidates) =>
      if token in w.execs || token in LockAt(w, conversation).spent || conversation >= w.conversations then w
      else
        var lock := LockAt(w, conversation);
        var locked := SetLock(w, conversation, Acquire(lock, token, LOCK_TTL_SECONDS, w.now));
        if Granted(lock, w.now)
        then locked.(execs := w.execs[token := Exec(conversation, width, candidates, Waiting)])
        else locked
    case Begin(token) =>
      if token !in w.execs || !w.execs[token].phase.Waiting? then w
      else SetPhase(w, token, Storing(map[], |w.notes|, w.execs[token].candidates))
    case HandleNext(token) =>
      if !Holding(w, token) || w.execs[token].phase.todo == [] then w
      else Handle(config, w, token)
    case Commit(token) =>
      if !Holding(w, token) || w.execs[token].phase.todo != [] then w
      else SetPhase(w.(notes := w.notes + w.execs[token].phase.own), token, Finished)
    case Leave(token) =>
      if token !in w.execs then w
      else
        var conversation := w.execs[token].conversation;
        SetLock(w, conversation, Release(LockAt(w, conversation), token, w.now))
          .(execs := w.execs - {token})
    case Remove(ids) => w.(notes := w.notes - ids)
    case DeleteConversation => if Referenced(w) then w else w.(live := None)
    case OpenConversation =>
      if w.live.Some? then w
      else w.(live := Some(w.conversations), conversations := w.conversations + 1)
    case Wait(seconds) => if seconds <= 0.0 then w else w.(now := w.now + seconds)
  }

  /** One round of the loop in `_store`. An insert naming a conversation that is gone violates
      its foreign key and rolls the transaction back. */
  function Handle(config: Config, w: World, token: nat): World
    requires Holding(w, token) && w.execs[token].phase.todo != []
  {
    var exec := w.execs[token];
    var p := exec.phase;
    if p.held >= config.ceiling then SetPhase(w, token, p.(todo := []))
    else if Known(config, w.notes + p.own, exec.width, p.todo[0].vector) then
      SetPhase(w, token, p.(todo := p.todo[1..]))
    else if w.live != Some(exec.conversation) then SetPhase(w, token, Finished)
    else
      var note := Note(p.todo[0].content, p.todo[0].vector, exec.width, Some(exec.conversation), w.now);
      SetPhase(w, token, Storing(p.own[w.nextId := note], p.held + 1, p.todo[1..]))
        .(nextId := w.nextId + 1)
  }

  function Run(config: Config, ops: seq<Op>): World {
    if ops == [] then START
    else Step(config, Run(config, ops[..|ops| - 1]), ops[|ops| - 1])
  }

  /** A run that does work does it within its lease. */
  ghost predicate InTime(w: World, op: Op) {
    (op.Begin? || op.HandleNext? || op.Commit?) && op.token in w.execs ==>
      Leased(LockAt(w, w.execs[op.token].conversation), op.token, w.now)
  }

  ghost predicate Timely(config: Config, ops: seq<Op>) {
    forall i :: 0 <= i < |ops| ==> InTime(Run(config, ops[..i]), ops[i])
  }

  // ---------------------------------------------------------------------------------------
  // The invariant

  /** A transaction that can still commit something: open, within its lease, on the live
      conversation. */
  predicate Active(w: World, t: nat) {
    && Holding(w, t)
    && w.live == Some(w.execs[t].conversation)
    && Leased(LockAt(w, w.execs[t].conversation), t, w.now)
  }

  ghost predicate ActiveIsGood(config: Config, w: World, t: nat) {
    Active(w, t) ==>
      OwnGood(config, w.notes, w.nextId, w.execs[t].phase.own, w.execs[t].phase.held)
  }

  /** What a transaction has written fits together with what is committed. */
  ghost predicate OwnGood(config: Config, notes: Notes, nextId: nat, own: Notes, held: nat) {
    && own.Keys !! notes.Keys
    && (forall id :: id in own ==> id < nextId)
    && Distinct(config, notes + own)
    && |notes| + |own| <= held
    && |notes| + |own| <= config.ceiling
  }

  lemma BeginOwnGood(config: Config, w: World)
    requires NotesGood(config, w)
    ensures OwnGood(config, w.notes, w.nextId, map[], |w.notes|)
  {
    assert w.notes + map[] == w.notes;
  }

  lemma InsertOwnGood(config: Config, notes: Notes, nextId: nat, own: Notes, held: nat, note: Note)
    requires config.Valid() && OwnGood(config, notes, nextId, own, held) && held < config.ceiling
    requires forall id :: id in notes ==> id < nextId
    requires !Known(config, notes + own, note.width, note.vector)
    ensures OwnGood(config, notes, nextId + 1, own[nextId := note], held + 1)
  {
    hide Known, Distinct, Config.Valid;
    AddingUnknown(config, notes + own, nextId, note);
    InsertOwn(notes, own, nextId, note);
  }

  lemma InsertOwn(notes: Notes, own: Notes, id: nat, note: Note)
    requires id !in notes && id !in own && own.Keys !! notes.Keys
    ensures notes + own[id := note] == (notes + own)[id := note]
    ensures own[id := note].Keys == own.Keys + {id} && own[id := note].Keys !! notes.Keys
    ensures |own[id := note]| == |own| + 1
  {
    assert own[id := note].Keys == own.Keys + {id};
  }

  lemma CommitOwnGood(config: Config, notes: Notes, nextId: nat, own: Notes, held: nat)
    requires OwnGood(config, notes, nextId, own, held)
    requires forall id :: id in notes ==> id < nextId
    ensures Distinct(config, notes + own) && |notes + own| <= config.ceiling
    ensures forall id :: id in notes + own ==> id < nextId
  {
    hide Distinct;
    assert (notes + own).Keys == notes.Keys + own.Keys;
  }

  lemma {:induction false} RemoveOwnGood(config: Config, notes: Notes, nextId: nat, own: Notes,
                                         held: nat, ids: set<nat>)
    requires OwnGood(config, notes, nextId, own, held)
    ensures OwnGood(config, notes - ids, nextId, own, held)
  {
    FewerNotes(notes, ids);
    assert forall id :: id in (notes - ids) + own ==>
      id in notes + own && (notes + own)[id] == ((notes - ids) + own)[id];
  }

  ghost predicate NotesGood(config: Config, w: World) {
    && Distinct(config, w.notes) && |w.notes| <= config.ceiling
    && forall id :: id in w.notes ==> id < w.nextId
  }

  ghost predicate LocksGood(w: World) {
    forall c :: HeldLocks.Inv(LockAt(w, c), w.now)
  }

  ghost predicate ExecGood(w: World, t: nat) {
    t in w.execs ==>
      var exec := w.execs[t];
      && exec.conversation < w.conversations
      && t in LockAt(w, exec.conversation).holders
      && (exec.phase.Storing? && exec.phase.own != map[] ==> w.live == Some(exec.conversation))
  }

  ghost predicate Inv(config: Config, w: World) {
    && LocksGood(w)
    && (w.live.Some? ==> w.live.value < w.conversations)
    && (forall t :: ExecGood(w, t))
    && NotesGood(config, w)
    && (forall t :: ActiveIsGood(config, w, t))
  }

  lemma OneActive(config: Config, w: World, a: nat, b: nat)
    requires Inv(config, w) && Active(w, a) && Active(w, b)
    ensures a == b
  {
    var lock := LockAt(w, w.live.value);
    assert HeldLocks.Inv(lock, w.now);
  }

  lemma OtherLocks(w: World, after: World, conversation: nat)
    requires LocksGood(w) && after.now == w.now
    requires after.locks == w.locks[conversation := LockAt(after, conversation)]
    requires HeldLocks.Inv(LockAt(after, conversation), w.now)
    ensures LocksGood(after)
  {
    hide HeldLocks.Inv;
    forall c
      ensures HeldLocks.Inv(LockAt(after, c), after.now)
    {
      assert HeldLocks.Inv(LockAt(w, c), w.now);
    }
  }

  lemma {:induction false} EnterKeepsInv(config: Config, w: World, op: Op)
    requires Inv(config, w) && op.Enter?
    ensures Inv(config, Step(config, w, op))
  {
    hide Distinct, HeldLocks.Inv, OwnGood, ExecGood, ActiveIsGood;
    var after := Step(config, w, op);
    if after != w {
      var lock := LockAt(w, op.conversation);
      assert HeldLocks.Inv(lock, w.now);
      AcquireKeepsInv(lock, op.token, LOCK_TTL_SECONDS, w.now);
      OtherLocks(w, after, op.conversation);
      forall t
        ensures ExecGood(after, t) && ActiveIsGood(config, after, t)
      {
        EnterExec(config, w, op, t);
      }
    }
  }

  lemma {:induction false} EnterExec(config: Config, w: World, op: Op, t: nat)
    requires op.Enter? && ExecGood(w, t) && ActiveIsGood(config, w, t)
    ensures ExecGood(Step(config, w, op), t) && ActiveIsGood(config, Step(config, w, op), t)
  {
    hide Distinct, OwnGood;
    assert t != op.token ==> (Active(Step(config, w, op), t) ==> Active(w, t));
  }

  lemma BeginKeepsInv(config: Config, w: World, op: Op)
    requires Inv(config, w) && op.Begin?
    ensures Inv(config, Step(config, w, op))
  {
    hide Distinct, HeldLocks.Inv, OwnGood;
    var after := Step(config, w, op);
    if after != w {
      BeginOwnGood(config, w);
      SameLocks(w, after);
      forall t
        ensures ExecGood(after, t) && ActiveIsGood(config, after, t)
      {
        assert ExecGood(w, t) && ActiveIsGood(config, w, t);
        assert t != op.token ==> (Active(after, t) ==> Active(w, t));
      }
    }
  }

  lemma SameLocks(w: World, after: World)
    requires LocksGood(w) && after.locks == w.locks && after.now == w.now
    ensures LocksGood(after)
  {
    forall c
      ensures HeldLocks.Inv(LockAt(after, c), after.now)
    {
      assert HeldLocks.Inv(LockAt(w, c), w.now);
    }
  }

  lemma HandleKeepsInv(config: Config, w: World, op: Op)
    requires config.Valid() && Inv(config, w) && op.HandleNext? && InTime(w, op)
    ensures Inv(config, Step(config, w, op))
  {
    var after := Step(config, w, op);
    if after != w {
      HandleKeepsRest(config, w, op.token);
      hide Distinct, HeldLocks.Inv, OwnGood, Known, Config.Valid, Handle, Active, LocksGood, NotesGood;
      SameLocks(w, after);
      forall t
        ensures ExecGood(after, t) && ActiveIsGood(config, after, t)
      {
        HandleExec(config, w, op, t);
      }
    }
  }

  lemma HandleKeepsRest(config: Config, w: World, token: nat)
    requires Holding(w, token) && w.execs[token].phase.todo != []
    requires NotesGood(config, w)
    ensures var after := Handle(config, w, token);
            && after.locks == w.locks && after.now == w.now && after.live == w.live
            && after.conversations == w.conversations && NotesGood(config, after)
  {
    hide Distinct, Known;
  }

  lemma HandleExec(config: Config, w: World, op: Op, t: nat)
    requires config.Valid() && Inv(config, w) && op.HandleNext? && InTime(w, op) && Step(config, w, op) != w
    ensures ExecGood(Step(config, w, op), t) && ActiveIsGood(config, Step(config, w, op), t)
  {
    hide Distinct, HeldLocks.Inv, OwnGood, Known, Config.Valid, LocksGood, NotesGood;
    var after, token := Step(config, w, op), op.token;
    assert ExecGood(w, t) && ActiveIsGood(config, w, t);
    if t != token {
      assert Active(after, t) ==> Active(w, t);
      assert after.execs[token].phase != w.execs[token].phase || after == w;
      if Active(w, t) && after.nextId != w.nextId {
        assert Active(w, token);
        OneActive(config, w, t, token);
      }
    } else if Active(after, token) {
      assert Active(w, token);
      InsertIsGood(config, w, token);
    }
  }

  lemma {:induction false} InsertIsGood(config: Config, w: World, token: nat)
    requires config.Valid() && NotesGood(config, w) && ActiveIsGood(config, w, token) && Active(w, token)
    requires w.execs[token].phase.todo != []
    ensures ActiveIsGood(config, Handle(config, w, token), token)
  {
    hide Known, Distinct, OwnGood, Config.Valid;
    var exec := w.execs[token];
    var p := exec.phase;
    if p.held < config.ceiling && !Known(config, w.notes + p.own, exec.width, p.todo[0].vector) {
      InsertOwnGood(config, w.notes, w.nextId, p.own, p.held,
        Note(p.todo[0].content, p.todo[0].vector, exec.width, Some(exec.conversation), w.now));
    }
  }

  lemma CommitKeepsInv(config: Config, w: World, op: Op)
    requires Inv(config, w) && op.Commit? && InTime(w, op)
    ensures Inv(config, Step(config, w, op))
  {
    hide Distinct, HeldLocks.Inv, OwnGood;
    var after := Step(config, w, op);
    if after != w {
      var token := op.token;
      var own := w.execs[token].phase.own;
      assert ExecGood(w, token) && ActiveIsGood(config, w, token);
      SameLocks(w, after);
      if own == map[] {
        assert w.notes + own == w.notes;
      } else {
        assert Active(w, token);
        CommitOwnGood(config, w.notes, w.nextId, own, w.execs[token].phase.held);
      }
      forall t
        ensures ExecGood(after, t) && ActiveIsGood(config, after, t)
      {
        CommitExec(config, w, op, t);
      }
    }
  }

  lemma CommitExec(config: Config, w: World, op: Op, t: nat)
    requires Inv(config, w) && op.Commit? && InTime(w, op) && Step(config, w, op) != w
    ensures ExecGood(Step(config, w, op), t) && ActiveIsGood(config, Step(config, w, op), t)
  {
    hide Distinct, HeldLocks.Inv, OwnGood, LocksGood, NotesGood;
    assert ExecGood(w, t) && ActiveIsGood(config, w, t);
    CommitActive(config, w, op, t);
    if Active(Step(config, w, op), t) && w.execs[op.token].phase.own != map[] {
      assert ExecGood(w, op.token);
      assert Active(w, op.token);
      OneActive(config, w, t, op.token);
    }
  }

  lemma CommitActive(config: Config, w: World, op: Op, t: nat)
    requires op.Commit? && Step(config, w, op) != w
    ensures var after := Step(config, w, op);
            && (Active(after, t) ==> t != op.token && Active(w, t) && after.execs[t] == w.execs[t])
            && (Holding(w, op.token) && (w.execs[op.token].phase.own == map[] ==> after.notes == w.notes))
            && after.nextId == w.nextId
  {
  }

  lemma LeaveKeepsInv(config: Config, w: World, op: Op)
    requires Inv(config, w) && op.Leave?
    ensures Inv(config, Step(config, w, op))
  {
    hide Distinct, HeldLocks.Inv, OwnGood, ExecGood, ActiveIsGood;
    var after := Step(config, w, op);
    if after != w {
      var conversation := w.execs[op.token].conversation;
      var lock := LockAt(w, conversation);
      assert HeldLocks.Inv(lock, w.now);
      ReleaseKeepsInv(lock, op.token, w.now);
      OtherLocks(w, after, conversation);
      forall t
        ensures ExecGood(after, t) && ActiveIsGood(config, after, t)
      {
        LeaveExec(config, w, op, t);
      }
    }
  }

  lemma LeaveExec(config: Config, w: World, op: Op, t: nat)
    requires op.Leave? && ExecGood(w, t) && ActiveIsGood(config, w, t)
    ensures ExecGood(Step(config, w, op), t) && ActiveIsGood(config, Step(config, w, op), t)
  {
    hide Distinct, OwnGood;
    assert Active(Step(config, w, op), t) ==> Active(w, t);
  }

  lemma RemoveKeepsInv(config: Config, w: World, op: Op)
    requires Inv(config, w) && op.Remove?
    ensures Inv(config, Step(config, w, op))
  {
    hide HeldLocks.Inv, OwnGood, ExecGood, ActiveIsGood;
    var after := Step(config, w, op);
    SameLocks(w, after);
    FewerNotes(w.notes, op.ids);
    forall t
      ensures ExecGood(after, t) && ActiveIsGood(config, after, t)
    {
      assert ExecGood(w, t) && ActiveIsGood(config, w, t);
      RemoveExec(config, w, op, t);
    }
  }

  lemma RemoveExec(config: Config, w: World, op: Op, t: nat)
    requires op.Remove? && ExecGood(w, t) && ActiveIsGood(config, w, t)
    ensures ExecGood(Step(config, w, op), t) && ActiveIsGood(config, Step(config, w, op), t)
  {
    hide OwnGood;
    if Active(Step(config, w, op), t) {
      assert Active(w, t);
      var p := w.execs[t].phase;
      RemoveOwnGood(config, w.notes, w.nextId, p.own, p.held, op.ids);
    }
  }

  lemma FewerNotes(notes: Notes, ids: set<nat>)
    ensures |notes - ids| <= |notes|
  {
    assert (notes - ids).Keys == notes.Keys - ids;
    assert notes.Keys == (notes.Keys - ids) + (notes.Keys * ids);
  }

  lemma ConversationKeepsInv(config: Config, w: World, op: Op)
    requires Inv(config, w) && (op.DeleteConversation? || op.OpenConversation?)
    ensures Inv(config, Step(config, w, op))
  {
    hide Distinct, HeldLocks.Inv, OwnGood;
    var after := Step(config, w, op);
    SameLocks(w, after);
    forall t
      ensures ExecGood(after, t) && ActiveIsGood(config, after, t)
    {
      assert ExecGood(w, t) && ActiveIsGood(config, w, t);
      assert Active(after, t) ==> Active(w, t);
    }
  }

  lemma WaitStepKeepsInv(config: Config, w: World, op: Op)
    requires Inv(config, w) && op.Wait?
    ensures Inv(config, Step(config, w, op))
  {
    hide Distinct, HeldLocks.Inv, OwnGood;
    var after := Step(config, w, op);
    forall c
      ensures HeldLocks.Inv(LockAt(after, c), after.now)
    {
      assert HeldLocks.Inv(LockAt(w, c), w.now);
      WaitKeepsInv(LockAt(w, c), w.now, after.now);
    }
    forall t
      ensures ExecGood(after, t) && ActiveIsGood(config, after, t)
    {
      assert ExecGood(w, t) && ActiveIsGood(config, w, t);
      assert Active(after, t) ==> Active(w, t);
    }
  }

  lemma {:induction false} StepKeepsInv(config: Config, w: World, op: Op)
    requires config.Valid() && Inv(config, w) && InTime(w, op)
    ensures Inv(config, Step(config, w, op))
  {
    hide Inv, Step, InTime, Config.Valid;
    match op {
      case Enter(_, _, _, _) => EnterKeepsInv(config, w, op);
      case Begin(_) => BeginKeepsInv(config, w, op);
      case HandleNext(_) => HandleKeepsInv(config, w, op);
      case Commit(_) => CommitKeepsInv(config, w, op);
      case Leave(_) => LeaveKeepsInv(config, w, op);
      case Remove(_) => RemoveKeepsInv(config, w, op);
      case DeleteConversation => ConversationKeepsInv(config, w, op);
      case OpenConversation => ConversationKeepsInv(config, w, op);
      case Wait(_) => WaitStepKeepsInv(config, w, op);
    }
  }

  lemma {:induction false} RunKeepsInv(config: Config, ops: seq<Op>)
    requires config.Valid() && Timely(config, ops)
    ensures Inv(config, Run(config, ops))
  {
    if ops == [] {
    } else {
      hide Step, Inv, InTime, Config.Valid;
      var n := |ops| - 1;
      assert forall i :: 0 <= i < n ==> ops[..n][..i] == ops[..i];
      RunKeepsInv(config, ops[..n]);
      assert InTime(Run(config, ops[..n]), ops[n]);
      StepKeepsInv(config, Run(config, ops[..n]), ops[n]);
    }
  }

  /** While lock holders stay within their lease, a visitor's notes of one width are pairwise less
      similar than the deduplication threshold and never more than the ceiling: in every
      reachable state, through overlapping runs, sweeps, erasures, and a conversation that is
      deleted and opened again under another lock. */
  lemma {:induction false} NotesStayDistinct(config: Config, ops: seq<Op>)
    requires config.Valid() && Timely(config, ops)
    ensures Distinct(config, Run(config, ops).notes)
    ensures |Run(config, ops).notes| <= config.ceiling
  {
    RunKeepsInv(config, ops);
  }

  /** The lease is not decoration: a run that overruns it can write the same sentence a second
      time, because neither transaction sees the other's insert. */
  lemma OverrunDuplicates(config: Config, c: Candidate)
    requires config.Valid() && config.ceiling >= 2
    requires config.similarity(c.vector, c.vector) >= config.dedupe
    ensures exists ops :: !Distinct(config, Run(config, ops).notes)
  {
    hide Config.Valid, Distinct, Step, Known, Run;
    var first, second := [OpenConversation, Op.Enter(1, 0, 3, [c]), Begin(1), HandleNext(1), Op.Wait(120.0)],
                         [Op.Enter(2, 0, 3, [c]), Begin(2), HandleNext(2), Commit(2), Commit(1)];
    FirstHalf(config, c);
    SecondHalf(config, c);
    var ops := first + second;
    StepsFromRun(config, first, second);
    TwiceIsNotDistinct(config, Run(config, ops).notes, 0, 1);
  }

  function Steps(config: Config, w: World, ops: seq<Op>): World
    decreases |ops|
  {
    if ops == [] then w else Steps(config, Step(config, w, ops[0]), ops[1..])
  }

  lemma StepsFromRun(config: Config, first: seq<Op>, second: seq<Op>)
    ensures Run(config, first + second) == Steps(config, Steps(config, START, first), second)
  {
    StepsAppend(config, START, first, second);
    RunIsSteps(config, first + second);
  }

  lemma StepsAppend(config: Config, w: World, a: seq<Op>, b: seq<Op>)
    ensures Steps(config, w, a + b) == Steps(config, Steps(config, w, a), b)
    decreases |a|
  {
    hide Step;
    if a == [] {
      assert a + b == b;
    } else {
      assert (a + b)[1..] == a[1..] + b;
      StepsAppend(config, Step(config, w, a[0]), a[1..], b);
    }
  }

  lemma RunIsSteps(config: Config, ops: seq<Op>)
    ensures Run(config, ops) == Steps(config, START, ops)
  {
    hide Step;
    if ops != [] {
      var n := |ops| - 1;
      RunIsSteps(config, ops[..n]);
      StepsAppend(config, START, ops[..n], [ops[n]]);
      assert ops[..n] + [ops[n]] == ops;
      assert Steps(config, Run(config, ops[..n]), [ops[n]]) == Step(config, Run(config, ops[..n]), ops[n]);
    }
  }

  function NoteOf(c: Candidate, now: real): Note {
    Note(c.content, c.vector, 3, Some(0), now)
  }

  lemma InsertsFirst(config: Config, w: World, token: nat, c: Candidate)
    requires config.ceiling >= 1 && w.notes == map[] && w.live == Some(0)
    requires token in w.execs && w.execs[token] == Exec(0, 3, [c], Storing(map[], 0, [c]))
    ensures Step(config, w, HandleNext(token)) ==
            SetPhase(w, token, Storing(map[w.nextId := NoteOf(c, w.now)], 1, [])).(nextId := w.nextId + 1)
  {
    assert w.notes + map[] == map[];
    assert !Known(config, w.notes + map[], 3, c.vector);
    assert [c][1..] == [];
  }

  /** The first run has inserted but not committed, and its lease has just run out. */
  function HalfWay(c: Candidate): World {
    World(120.0, map[0 := Acquire(FREE, 1, LOCK_TTL_SECONDS, 0.0)], Some(0), 1, map[], 1,
          map[1 := Exec(0, 3, [c], Storing(map[0 := NoteOf(c, 0.0)], 1, []))])
  }

  lemma FirstHalf(config: Config, c: Candidate)
    requires config.ceiling >= 2
    ensures Steps(config, START,
                  [OpenConversation, Op.Enter(1, 0, 3, [c]), Begin(1), HandleNext(1), Op.Wait(120.0)])
         == HalfWay(c)
  {
    hide Known, Handle;
    var lock := Acquire(FREE, 1, LOCK_TTL_SECONDS, 0.0);
    var e := Exec(0, 3, [c], Waiting);
    var w1 := World(0.0, map[], Some(0), 1, map[], 0, map[]);
    var w2 := World(0.0, map[0 := lock], Some(0), 1, map[], 0, map[1 := e]);
    var w3 := w2.(execs := map[1 := e.(phase := Storing(map[], 0, [c]))]);
    var w4 := w2.(execs := map[1 := e.(phase := Storing(map[0 := NoteOf(c, 0.0)], 1, []))], nextId := 1);
    assert Step(config, START, OpenConversation) == w1;
    assert Step(config, w1, Op.Enter(1, 0, 3, [c])) == w2;
    assert Step(config, w2, Begin(1)) == w3;
    InsertsFirst(config, w3, 1, c);
    assert Step(config, w4, Op.Wait(120.0)) == HalfWay(c);
    Steps5(config, START, OpenConversation, Op.Enter(1, 0, 3, [c]), Begin(1), HandleNext(1), Op.Wait(120.0));
  }

  /** The second run's phases, with the first one still open. */
  function Overlap(c: Candidate, phase: Phase, nextId: nat): World {
    World(120.0, map[0 := Acquire(Acquire(FREE, 1, LOCK_TTL_SECONDS, 0.0), 2, LOCK_TTL_SECONDS, 120.0)],
          Some(0), 1, map[], nextId,
          map[1 := Exec(0, 3, [c], Storing(map[0 := NoteOf(c, 0.0)], 1, [])), 2 := Exec(0, 3, [c], phase)])
  }

  lemma SecondEnters(config: Config, c: Candidate)
    ensures Step(config, HalfWay(c), Op.Enter(2, 0, 3, [c])) == Overlap(c, Waiting, 1)
  {
    hide Known, Handle;
  }

  lemma SecondBegins(config: Config, c: Candidate)
    ensures Step(config, Overlap(c, Waiting, 1), Begin(2)) == Overlap(c, Storing(map[], 0, [c]), 1)
  {
    hide Known, Handle, Acquire;
    assert |Overlap(c, Waiting, 1).notes| == 0;
  }

  lemma SecondInserts(config: Config, c: Candidate)
    requires config.ceiling >= 2
    ensures Step(config, Overlap(c, Storing(map[], 0, [c]), 1), HandleNext(2))
         == Overlap(c, Storing(map[1 := NoteOf(c, 120.0)], 1, []), 2)
  {
    hide Known, Handle, Acquire, Step;
    InsertsFirst(config, Overlap(c, Storing(map[], 0, [c]), 1), 2, c);
  }

  lemma BothCommit(config: Config, c: Candidate)
    ensures Step(config, Step(config, Overlap(c, Storing(map[1 := NoteOf(c, 120.0)], 1, []), 2), Commit(2)),
                 Commit(1)).notes
         == map[1 := NoteOf(c, 120.0), 0 := NoteOf(c, 0.0)]
  {
    hide Known, Handle, Acquire;
  }

  lemma SecondHalf(config: Config, c: Candidate)
    requires config.ceiling >= 2
    ensures Steps(config, HalfWay(c),
                  [Op.Enter(2, 0, 3, [c]), Begin(2), HandleNext(2), Commit(2), Commit(1)]).notes
         == map[1 := NoteOf(c, 120.0), 0 := NoteOf(c, 0.0)]
  {
    hide *;
    SecondEnters(config, c);
    SecondBegins(config, c);
    SecondInserts(config, c);
    BothCommit(config, c);
    Steps5(config, HalfWay(c), Op.Enter(2, 0, 3, [c]), Begin(2), HandleNext(2), Commit(2), Commit(1));
  }

  lemma Steps5(config: Config, w: World, a: Op, b: Op, c: Op, d: Op, e: Op)
    ensures Steps(config, w, [a, b, c, d, e]) ==
            Step(config, Step(config, Step(config, Step(config, Step(config, w, a), b), c), d), e)
  {
    hide *;
    var x := Step(config, w, a);
    var y := Step(config, x, b);
    var z := Step(config, y, c);
    assert [a] + [b, c, d, e] == [a, b, c, d, e] && [b] + [c, d, e] == [b, c, d, e];
    assert [c] + [d, e] == [c, d, e] && [d] + [e] == [d, e];
    StepsCons(config, w, a, [b, c, d, e]);
    StepsCons(config, x, b, [c, d, e]);
    StepsCons(config, y, c, [d, e]);
    StepsCons(config, z, d, [e]);
    StepsOne(config, Step(config, z, d), e);
  }

  lemma StepsCons(config: Config, w: World, op: Op, rest: seq<Op>)
    ensures Steps(config, w, [op] + rest) == Steps(config, Step(config, w, op), rest)
  {
    assert ([op] + rest)[1..] == rest;
    hide Step;
  }

  lemma TwiceIsNotDistinct(config: Config, notes: Notes, a: nat, b: nat)
    requires a in notes && b in notes && a != b && notes[a].width == notes[b].width
    requires config.similarity(notes[a].vector, notes[b].vector) >= config.dedupe
    ensures !Distinct(config, notes)
  {
  }

  // ---------------------------------------------------------------------------------------
  // One transaction with nothing in between

  function Loop(token: nat, rounds: nat): seq<Op> {
    if rounds == 0 then [] else [HandleNext(token)] + Loop(token, rounds - 1)
  }

  function Storage(w: World, token: nat): Notes
    requires Holding(w, token)
  {
    var exec := w.execs[token];
    w.notes + exec.phase.own
  }

  /** One round moves a candidate from what is to be written to what is. */
  lemma RoundWrites(config: Config, w: World, token: nat)
    requires Holding(w, token) && w.live == Some(w.execs[token].conversation)
    ensures var exec, after := w.execs[token], Step(config, w, HandleNext(token));
            && Holding(after, token) && after.notes == w.notes && after.live == w.live && after.now == w.now
            && after.execs[token].conversation == exec.conversation && after.execs[token].width == exec.width
            && |after.execs[token].phase.todo| <= (if exec.phase.todo == [] then 0 else |exec.phase.todo| - 1)
            && Written(config, Storage(after, token), after.nextId, after.execs[token].phase.held,
                       after.execs[token].phase.todo, exec.width, exec.conversation, w.now)
            == Written(config, Storage(w, token), w.nextId, exec.phase.held, exec.phase.todo, exec.width,
                       exec.conversation, w.now)
  {
    hide Known;
    var exec := w.execs[token];
    var p := exec.phase;
    if p.todo != [] && p.held < config.ceiling && !Known(config, w.notes + p.own, exec.width, p.todo[0].vector) {
      var note := Note(p.todo[0].content, p.todo[0].vector, exec.width, Some(exec.conversation), w.now);
      assert w.notes + p.own[w.nextId := note] == (w.notes + p.own)[w.nextId := note];
    }
  }

  lemma {:induction false} LoopWrites(config: Config, w: World, token: nat, rounds: nat)
    requires Holding(w, token) && w.live == Some(w.execs[token].conversation)
    requires |w.execs[token].phase.todo| <= rounds
    ensures var exec, after := w.execs[token], Steps(config, w, Loop(token, rounds));
            && Holding(after, token) && after.execs[token].phase.todo == [] && after.notes == w.notes
            && Storage(after, token) == Written(config, Storage(w, token), w.nextId, exec.phase.held, exec.phase.todo,
                                                exec.width, exec.conversation, w.now)
    decreases rounds
  {
    if rounds == 0 {
    } else {
      hide Step, Handle, Known, Storage;
      var next := Step(config, w, HandleNext(token));
      RoundWrites(config, w, token);
      LoopWrites(config, next, token, rounds - 1);
      assert Loop(token, rounds)[1..] == Loop(token, rounds - 1);
    }
  }

  /** The transaction on its own, conversation in place, leaves what `MemoryTable.Store` leaves. */
  lemma {:induction false} TransactionAloneIsStore(config: Config, w: World, token: nat)
    requires token in w.execs && w.execs[token].phase.Waiting? && w.live == Some(w.execs[token].conversation)
    ensures var exec := w.execs[token];
            Steps(config, w, [Begin(token)] + Loop(token, |exec.candidates|) + [Commit(token)]).notes
            == Written(config, w.notes, w.nextId, |w.notes|, exec.candidates, exec.width, exec.conversation, w.now)
  {
    hide Known, Handle;
    var exec := w.execs[token];
    var begun, loop := Step(config, w, Begin(token)), Loop(token, |exec.candidates|);
    assert w.notes + map[] == w.notes;
    LoopWrites(config, begun, token, |exec.candidates|);
    var done := Steps(config, begun, loop);
    assert Step(config, done, Commit(token)).notes == Storage(done, token);
    hide Step, Written, Storage;
    StepsAppend(config, w, [Begin(token)] + loop, [Commit(token)]);
    StepsAppend(config, w, [Begin(token)], loop);
    StepsOne(config, w, Begin(token));
    StepsOne(config, done, Commit(token));
  }

  lemma StepsOne(config: Config, w: World, op: Op)
    ensures Steps(config, w, [op]) == Step(config, w, op)
  {
    assert [op][1..] == [];
    hide Step;
    assert Steps(config, Step(config, w, op), []) == Step(config, w, op);
  }
}
