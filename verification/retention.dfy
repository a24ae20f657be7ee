/** Conversations, tickets and remembered notes, and what may remove them:
    `app/services/ticket.py`, `app/services/conversation.py`, `app/services/nuvrag_mem/erasure.py`
    and the queries they run in `app/repositories/conversation.py` and
    `app/repositories/memory_entry.py`. One transaction is one step. */
module Retention {
  import opened Text

  // ---------------------------------------------------------------------------------------
  // Rows

  datatype Status = Open | Pending | Resolved | Closed

  /** A person, as far as one chatbot knows: the pair conversations and notes are joined on. */
  datatype Subject = Subject(chatbot: nat, session: string)

  datatype Conversation = Conversation(subject: Subject, updatedAt: int, messageCount: nat)

  datatype Ticket = Ticket(conversation: nat, status: Status, assignedTo: Option<nat>,
                           resolvedAt: Option<int>)

  datatype Note = Note(subject: Subject, lastReferenced: int, source: Option<nat>)

  /** `bySubject` is the unique index on (chatbot_id, external_session_id); `messages` maps a
      message to its conversation; ids are never used twice. */
  datatype Db = Db(conversations: map<nat, Conversation>, bySubject: map<Subject, nat>,
                   messages: map<nat, nat>, tickets: map<nat, Ticket>, notes: map<nat, Note>,
                   nextId: nat)

  const EMPTY_DB := Db(map[], map[], map[], map[], map[], 0)
  const TOUCH_STALENESS := 3600

  predicate Unresolved(status: Status) {
    status == Open || status == Pending
  }

  predicate Pinned(db: Db, c: nat) {
    exists t | t in db.tickets :: db.tickets[t].conversation == c && Unresolved(db.tickets[t].status)
  }

  /** The pin on notes joins through the conversation row. */
  predicate SubjectPinned(db: Db, s: Subject) {
    exists t | t in db.tickets ::
      && Unresolved(db.tickets[t].status)
      && db.tickets[t].conversation in db.conversations
      && db.conversations[db.tickets[t].conversation].subject == s
  }

  function MessagesOf(db: Db, c: nat): set<nat> {
    set m | m in db.messages && db.messages[m] == c
  }

  function NotesOf(db: Db, s: Subject): set<nat> {
    set n | n in db.notes && db.notes[n].subject == s
  }

  // ---------------------------------------------------------------------------------------
  // Transactions

  datatype Op =
    | ChatTurn(subject: Subject, used: set<nat>, now: int)
    | CreateTicket(subject: Subject, withMessage: bool, now: int)
    | UpdateTicket(ticket: nat, status: Option<Status>, assignTo: Option<nat>, unassign: bool, now: int)
    | Reply(ticket: nat, actor: nat, now: int)
    | StoreNote(conversation: nat, subject: Subject, now: int)     // an extraction's insert
    | SweepConversations(chatbot: nat, cutoff: int, batch: set<nat>)
    | SweepNotes(chatbot: nat, cutoff: int, batch: set<nat>)
    | DeleteConversation(chatbot: nat, conversation: nat)
    | Forget(subject: Subject)

  /** `_ensure_conversation`, and the same lookup in `create_ticket`. */
  function Ensure(db: Db, s: Subject, now: int): Db {
    if s in db.bySubject then db
    else db.(conversations := db.conversations[db.nextId := Conversation(s, now, 0)],
             bySubject := db.bySubject[s := db.nextId], nextId := db.nextId + 1)
  }

  /** One message, counted; the row's `updated_at` moves with it. */
  function AddMessage(db: Db, c: nat, now: int): Db
    requires c in db.conversations
  {
    var row := db.conversations[c];
    db.(messages := db.messages[db.nextId := c], nextId := db.nextId + 1,
        conversations := db.conversations[c := row.(messageCount := row.messageCount + 1, updatedAt := now)])
  }

  /** `touch` */
  function Touch(db: Db, used: set<nat>, now: int): Db {
    db.(notes := map n | n in db.notes ::
      if n in used && db.notes[n].lastReferenced < now - TOUCH_STALENESS
      then db.notes[n].(lastReferenced := now) else db.notes[n])
  }

  /** `_apply_status` */
  function ApplyStatus(t: Ticket, status: Status, now: int): Ticket {
    t.(status := status,
       resolvedAt := if status == Resolved then Some(now)
                     else if t.status == Resolved || t.status == Closed then None
                     else t.resolvedAt)
  }

  function Updated(t: Ticket, op: Op): Ticket
    requires op.UpdateTicket?
  {
    var placed := if op.unassign then t.(assignedTo := None)
                    else if op.assignTo.Some? then t.(assignedTo := op.assignTo) else t;
    if op.status.Some? then ApplyStatus(placed, op.status.value, op.now)
    else if op.assignTo.Some? && t.status == Open then placed.(status := Pending)
    else placed
  }

  function Replied(t: Ticket, actor: nat): Ticket {
    t.(status := if t.status == Open then Pending else t.status,
       assignedTo := if t.assignedTo.None? then Some(actor) else t.assignedTo)
  }

  /** DELETE with its cascades: messages and tickets go, notes forget where they came from. */
  function RemoveConversations(db: Db, ids: set<nat>): Db {
    db.(conversations := db.conversations - ids,
        bySubject := map s | s in db.bySubject && db.bySubject[s] !in ids :: db.bySubject[s],
        messages := map m | m in db.messages && db.messages[m] !in ids :: db.messages[m],
        tickets := map t | t in db.tickets && db.tickets[t].conversation !in ids :: db.tickets[t],
        notes := map n | n in db.notes :: Unsource(db.notes[n], ids))
  }

  function Unsource(n: Note, ids: set<nat>): Note {
    if n.source.Some? && n.source.value in ids then n.(source := None) else n
  }

  function RemoveNotes(db: Db, ids: set<nat>): Db {
    db.(notes := db.notes - ids)
  }

  /** Idle since the cutoff and held open by no unresolved ticket. */
  function ExpiredConversations(db: Db, chatbot: nat, cutoff: int): set<nat> {
    set c | c in db.conversations && db.conversations[c].subject.chatbot == chatbot
         && db.conversations[c].updatedAt < cutoff && !Pinned(db, c)
  }

  function ExpiredNotes(db: Db, chatbot: nat, cutoff: int): set<nat> {
    set n | n in db.notes && db.notes[n].subject.chatbot == chatbot
         && db.notes[n].lastReferenced < cutoff && !SubjectPinned(db, db.notes[n].subject)
  }

  /** A transaction that is not enabled, or fails, changes nothing. */
  function Step(db: Db, op: Op): Db {
    match op
    case ChatTurn(subject, used, now) =>
      var found := Ensure(db, subject, now);
      if subject !in found.bySubject || found.bySubject[subject] !in found.conversations then db
      else
        var c := found.bySubject[subject];
        Touch(AddMessage(AddMessage(found, c, now), c, now), used, now)
    case CreateTicket(subject, withMessage, now) =>
      var found := Ensure(db, subject, now);
      if subject !in found.bySubject || found.bySubject[subject] !in found.conversations then db
      else
        var c := found.bySubject[subject];
        var spoken := if withMessage then AddMessage(found, c, now) else found;
        spoken.(tickets := spoken.tickets[spoken.nextId := Ticket(c, Open, None, None)],
                nextId := spoken.nextId + 1)
    case UpdateTicket(t, _, _, _, _) =>
      if t !in db.tickets then db
      else db.(tickets := db.tickets[t := Updated(db.tickets[t], op)])
    case Reply(t, actor, now) =>
      if t !in db.tickets || db.tickets[t].conversation !in db.conversations then db
      else
        var said := AddMessage(db, db.tickets[t].conversation, now);
        said.(tickets := said.tickets[t := Replied(db.tickets[t], actor)])
    case StoreNote(c, subject, now) =>
      // The subject was read from the conversation row earlier; the foreign key is checked now.
      if c !in db.conversations || db.conversations[c].subject != subject then db
      else db.(notes := db.notes[db.nextId := Note(subject, now, Some(c))], nextId := db.nextId + 1)
    case SweepConversations(chatbot, cutoff, batch) =>
      if batch <= ExpiredConversations(db, chatbot, cutoff) then RemoveConversations(db, batch) else db
    case SweepNotes(chatbot, cutoff, batch) =>
      if batch <= ExpiredNotes(db, chatbot, cutoff) then RemoveNotes(db, batch) else db
    case DeleteConversation(chatbot, c) =>
      if c !in db.conversations || db.conversations[c].subject.chatbot != chatbot then db
      else RemoveConversations(RemoveNotes(db, NotesOf(db, db.conversations[c].subject)), {c})
    case Forget(subject) => RemoveNotes(db, NotesOf(db, subject))
  }

  function Run(db: Db, ops: seq<Op>): Db {
    if ops == [] then db else Step(Run(db, ops[..|ops| - 1]), ops[|ops| - 1])
  }

  // ---------------------------------------------------------------------------------------
  // What every transaction keeps

  ghost predicate IndexGood(db: Db) {
    && (forall s :: s in db.bySubject ==>
          db.bySubject[s] in db.conversations && db.conversations[db.bySubject[s]].subject == s)
    && (forall c :: c in db.conversations ==>
          db.conversations[c].subject in db.bySubject && db.bySubject[db.conversations[c].subject] == c)
  }

  ghost predicate KeysGood(db: Db) {
    && (forall c :: c in db.conversations ==> c < db.nextId)
    && (forall m :: m in db.messages ==> m < db.nextId && db.messages[m] in db.conversations)
    && (forall t :: t in db.tickets ==> t < db.nextId && db.tickets[t].conversation in db.conversations)
    && (forall n :: n in db.notes ==> n < db.nextId)
    && (forall n :: n in db.notes && db.notes[n].source.Some? ==>
          db.notes[n].source.value in db.conversations)
  }

  /** `message_count` is the number of messages. */
  ghost predicate CountsGood(db: Db) {
    forall c :: c in db.conversations ==> db.conversations[c].messageCount == |MessagesOf(db, c)|
  }

  /** `resolved_at` describes the state the row is in. */
  ghost predicate StampsGood(db: Db) {
    forall t :: t in db.tickets ==> (db.tickets[t].resolvedAt.Some? <==> db.tickets[t].status == Resolved)
  }

  ghost predicate Good(db: Db) {
    IndexGood(db) && KeysGood(db) && CountsGood(db) && StampsGood(db)
  }

  lemma EnsureKeeps(db: Db, s: Subject, now: int)
    requires Good(db)
    ensures var after := Ensure(db, s, now);
            Good(after) && s in after.bySubject && after.bySubject[s] in after.conversations
  {
    hide CountsGood;
    EnsureCounts(db, s, now);
  }

  lemma EnsureCounts(db: Db, s: Subject, now: int)
    requires KeysGood(db) && CountsGood(db)
    ensures CountsGood(Ensure(db, s, now))
  {
    var after := Ensure(db, s, now);
    forall c | c in after.conversations
      ensures after.conversations[c].messageCount == |MessagesOf(after, c)|
    {
      if c in db.conversations {
        assert MessagesOf(after, c) == MessagesOf(db, c);
      } else {
        assert MessagesOf(after, c) == {};
      }
    }
  }

  lemma AddMessageKeeps(db: Db, c: nat, now: int)
    requires Good(db) && c in db.conversations
    ensures Good(AddMessage(db, c, now))
  {
    hide CountsGood;
    AddMessageCounts(db, c, now);
  }

  lemma AddMessageCounts(db: Db, c: nat, now: int)
    requires KeysGood(db) && CountsGood(db) && c in db.conversations
    ensures CountsGood(AddMessage(db, c, now))
  {
    var after := AddMessage(db, c, now);
    forall d | d in after.conversations
      ensures after.conversations[d].messageCount == |MessagesOf(after, d)|
    {
      if d == c {
        assert MessagesOf(after, c) == MessagesOf(db, c) + {db.nextId};
      } else {
        assert MessagesOf(after, d) == MessagesOf(db, d);
      }
    }
  }

  lemma RemoveConversationsKeeps(db: Db, ids: set<nat>)
    requires Good(db)
    ensures Good(RemoveConversations(db, ids))
  {
    hide CountsGood;
    RemoveCounts(db, ids);
  }

  lemma RemoveCounts(db: Db, ids: set<nat>)
    requires CountsGood(db)
    ensures CountsGood(RemoveConversations(db, ids))
  {
    var after := RemoveConversations(db, ids);
    forall c | c in after.conversations
      ensures after.conversations[c].messageCount == |MessagesOf(after, c)|
    {
      assert MessagesOf(after, c) == MessagesOf(db, c);
    }
  }

  /** Only notes and tickets differ, and the tickets still make sense. */
  lemma SameThreads(db: Db, after: Db)
    requires Good(db)
    requires after.conversations == db.conversations && after.bySubject == db.bySubject
    requires after.messages == db.messages && after.nextId >= db.nextId
    requires KeysGood(after) && StampsGood(after)
    ensures Good(after)
  {
    forall c | c in after.conversations
      ensures after.conversations[c].messageCount == |MessagesOf(after, c)|
    {
      assert MessagesOf(after, c) == MessagesOf(db, c);
    }
  }

  lemma StepKeepsGood(db: Db, op: Op)
    requires Good(db)
    ensures Good(Step(db, op))
  {
    hide *;
    match op {
      case ChatTurn(subject, used, now) => TurnKeeps(db, subject, used, now);
      case CreateTicket(subject, withMessage, now) => TicketKeeps(db, subject, withMessage, now);
      case UpdateTicket(_, _, _, _, _) => UpdateKeeps(db, op);
      case Reply(t, actor, now) => ReplyKeeps(db, op);
      case StoreNote(_, _, _) => StoreKeeps(db, op);
      case SweepConversations(_, _, _) => SweepKeeps(db, op);
      case SweepNotes(_, _, _) => NoteSweepKeeps(db, op);
      case DeleteConversation(_, _) => DeleteKeeps(db, op);
      case Forget(_) => NoteSweepKeeps(db, op);
    }
  }

  lemma UpdateKeeps(db: Db, op: Op)
    requires Good(db) && op.UpdateTicket?
    ensures Good(Step(db, op))
  {
    hide CountsGood, IndexGood, MessagesOf;
    SameThreads(db, Step(db, op));
  }

  lemma StoreKeeps(db: Db, op: Op)
    requires Good(db) && op.StoreNote?
    ensures Good(Step(db, op))
  {
    hide CountsGood, IndexGood, StampsGood, MessagesOf;
    StampsDepend(db, Step(db, op));
    SameThreads(db, Step(db, op));
  }

  lemma StampsDepend(db: Db, after: Db)
    requires StampsGood(db) && after.tickets == db.tickets
    ensures StampsGood(after)
  {
  }

  lemma RemoveNotesKeeps(db: Db, ids: set<nat>)
    requires Good(db)
    ensures Good(RemoveNotes(db, ids))
  {
    hide CountsGood, IndexGood, StampsGood, MessagesOf;
    StampsDepend(db, RemoveNotes(db, ids));
    SameThreads(db, RemoveNotes(db, ids));
  }

  lemma NoteSweepKeeps(db: Db, op: Op)
    requires Good(db) && (op.SweepNotes? || op.Forget?)
    ensures Good(Step(db, op))
  {
    hide Good, RemoveNotes, ExpiredNotes, NotesOf;
    match op {
      case SweepNotes(_, _, batch) => RemoveNotesKeeps(db, batch);
      case Forget(subject) => RemoveNotesKeeps(db, NotesOf(db, subject));
    }
  }

  lemma ReplyKeeps(db: Db, op: Op)
    requires Good(db) && op.Reply?
    ensures Good(Step(db, op))
  {
    hide CountsGood, IndexGood, MessagesOf;
    if op.ticket in db.tickets {
      var said := AddMessage(db, db.tickets[op.ticket].conversation, op.now);
      AddMessageKeeps(db, db.tickets[op.ticket].conversation, op.now);
      SameThreads(said, Step(db, op));
    }
  }

  lemma SweepKeeps(db: Db, op: Op)
    requires Good(db) && op.SweepConversations?
    ensures Good(Step(db, op))
  {
    hide Good, RemoveConversations, ExpiredConversations;
    RemoveConversationsKeeps(db, op.batch);
  }

  lemma DeleteKeeps(db: Db, op: Op)
    requires Good(db) && op.DeleteConversation?
    ensures Good(Step(db, op))
  {
    hide Good, NotesOf, RemoveNotes, RemoveConversations;
    if op.conversation in db.conversations {
      var ids := NotesOf(db, db.conversations[op.conversation].subject);
      RemoveNotesKeeps(db, ids);
      RemoveConversationsKeeps(RemoveNotes(db, ids), {op.conversation});
    }
  }

  lemma TurnKeeps(db: Db, subject: Subject, used: set<nat>, now: int)
    requires Good(db)
    ensures Good(Step(db, ChatTurn(subject, used, now)))
  {
    hide CountsGood, IndexGood, MessagesOf;
    EnsureKeeps(db, subject, now);
    var found := Ensure(db, subject, now);
    var c := found.bySubject[subject];
    AddMessageKeeps(found, c, now);
    var once := AddMessage(found, c, now);
    AddMessageKeeps(once, c, now);
    var twice := AddMessage(once, c, now);
    SameThreads(twice, Touch(twice, used, now));
  }

  lemma {:induction false} TicketKeeps(db: Db, subject: Subject, withMessage: bool, now: int)
    requires Good(db)
    ensures Good(Step(db, CreateTicket(subject, withMessage, now)))
  {
    hide CountsGood, IndexGood, MessagesOf;
    EnsureKeeps(db, subject, now);
    var found := Ensure(db, subject, now);
    var c := found.bySubject[subject];
    AddMessageKeeps(found, c, now);
    var spoken := if withMessage then AddMessage(found, c, now) else found;
    SameThreads(spoken, Step(db, CreateTicket(subject, withMessage, now)));
  }

  lemma {:induction false} RunKeepsGood(db: Db, ops: seq<Op>)
    requires Good(db)
    ensures Good(Run(db, ops))
  {
    hide Good, Step;
    if ops != [] {
      RunKeepsGood(db, ops[..|ops| - 1]);
      StepKeepsGood(Run(db, ops[..|ops| - 1]), ops[|ops| - 1]);
    }
  }

  // ---------------------------------------------------------------------------------------
  // What sweeps must step over

  /** One sweep transaction leaves every pinned conversation, its messages and its tickets, and
      every note of a pinned subject, exactly as they were; a note only ever loses the reference
      to a conversation that is gone. */
  lemma {:induction false} SweepsRespectPins(db: Db, op: Op, c: nat)
    requires Good(db) && (op.SweepConversations? || op.SweepNotes?)
    requires c in db.conversations && Pinned(db, c)
    ensures var after := Step(db, op); var s := db.conversations[c].subject;
            && c in after.conversations && after.conversations[c] == db.conversations[c]
            && MessagesOf(after, c) == MessagesOf(db, c)
            && (forall t :: t in db.tickets && db.tickets[t].conversation == c ==>
                  t in after.tickets && after.tickets[t] == db.tickets[t])
            && NotesOf(after, s) == NotesOf(db, s)
            && (forall n :: n in NotesOf(db, s) ==>
                  && after.notes[n].lastReferenced == db.notes[n].lastReferenced
                  && (after.notes[n] == db.notes[n] || after.notes[n].source.None?))
  {
    hide Good, RemoveConversations, RemoveNotes, ExpiredConversations, ExpiredNotes, SubjectPinned;
    var s := db.conversations[c].subject;
    PinnedSubject(db, c);
    match op {
      case SweepConversations(chatbot, cutoff, batch) =>
        NotExpired(db, c, chatbot, cutoff);
        if batch <= ExpiredConversations(db, chatbot, cutoff) {
          RemovingOthers(db, batch, c);
        }
      case SweepNotes(chatbot, cutoff, batch) =>
        NotesNotExpired(db, s, chatbot, cutoff);
        if batch <= ExpiredNotes(db, chatbot, cutoff) {
          RemovingOtherNotes(db, batch, c);
        }
    }
  }

  lemma NotExpired(db: Db, c: nat, chatbot: nat, cutoff: int)
    requires Pinned(db, c)
    ensures c !in ExpiredConversations(db, chatbot, cutoff)
  {
  }

  lemma NotesNotExpired(db: Db, s: Subject, chatbot: nat, cutoff: int)
    requires SubjectPinned(db, s)
    ensures NotesOf(db, s) !! ExpiredNotes(db, chatbot, cutoff)
  {
  }

  lemma RemovingOthers(db: Db, ids: set<nat>, c: nat)
    requires c in db.conversations && c !in ids
    ensures var after := RemoveConversations(db, ids); var s := db.conversations[c].subject;
            && c in after.conversations && after.conversations[c] == db.conversations[c]
            && MessagesOf(after, c) == MessagesOf(db, c)
            && (forall t :: t in db.tickets && db.tickets[t].conversation == c ==>
                  t in after.tickets && after.tickets[t] == db.tickets[t])
            && NotesOf(after, s) == NotesOf(db, s)
            && (forall n :: n in NotesOf(db, s) ==>
                  && after.notes[n].lastReferenced == db.notes[n].lastReferenced
                  && (after.notes[n] == db.notes[n] || after.notes[n].source.None?))
  {
  }

  lemma RemovingOtherNotes(db: Db, ids: set<nat>, c: nat)
    requires c in db.conversations && ids !! NotesOf(db, db.conversations[c].subject)
    ensures var after := RemoveNotes(db, ids); var s := db.conversations[c].subject;
            && c in after.conversations && after.conversations[c] == db.conversations[c]
            && MessagesOf(after, c) == MessagesOf(db, c) && after.tickets == db.tickets
            && NotesOf(after, s) == NotesOf(db, s)
            && (forall n :: n in NotesOf(db, s) ==> after.notes[n] == db.notes[n])
  {
    var after, s := RemoveNotes(db, ids), db.conversations[c].subject;
    assert forall n :: n in NotesOf(db, s) ==> n in after.notes;
  }

  lemma PinnedSubject(db: Db, c: nat)
    requires c in db.conversations && Pinned(db, c)
    ensures SubjectPinned(db, db.conversations[c].subject)
  {
    var t :| t in db.tickets && db.tickets[t].conversation == c && Unresolved(db.tickets[t].status);
    assert db.tickets[t].conversation in db.conversations;
  }

  /** Somebody deliberately ends the wait: the ticket is resolved or closed, or the person or
      the transcript is erased. */
  predicate EndsWait(op: Op, t: nat, c: nat, s: Subject) {
    || Settles(op, t)
    || (op.DeleteConversation? && op.conversation == c)
    || (op.Forget? && op.subject == s)
  }

  /** Everything ticket `t` is entitled to find when somebody gets to it. */
  ghost predicate Waiting(db: Db, t: nat, c: nat, s: Subject, messages: set<nat>, notes: set<nat>) {
    && t in db.tickets && db.tickets[t].conversation == c && Unresolved(db.tickets[t].status)
    && c in db.conversations && db.conversations[c].subject == s
    && messages <= MessagesOf(db, c) && notes <= NotesOf(db, s)
  }

  /** Nothing that was there has gone or changed hands. */
  ghost predicate OnlyAdds(db: Db, after: Db) {
    && (forall c :: c in db.conversations ==>
          c in after.conversations && after.conversations[c].subject == db.conversations[c].subject)
    && (forall m :: m in db.messages ==> m in after.messages && after.messages[m] == db.messages[m])
    && (forall n :: n in db.notes ==> n in after.notes && after.notes[n].subject == db.notes[n].subject)
    && (forall t :: t in db.tickets ==>
          t in after.tickets && after.tickets[t].conversation == db.tickets[t].conversation)
  }

  lemma OnlyAddsNothing(db: Db)
    ensures OnlyAdds(db, db)
  {
  }

  lemma OnlyAddsTwice(a: Db, b: Db, c: Db)
    requires OnlyAdds(a, b) && OnlyAdds(b, c)
    ensures OnlyAdds(a, c)
  {
  }

  lemma EnsureOnlyAdds(db: Db, s: Subject, now: int)
    requires KeysGood(db)
    ensures OnlyAdds(db, Ensure(db, s, now)) && Ensure(db, s, now).tickets == db.tickets
  {
  }

  lemma MessageOnlyAdds(db: Db, c: nat, now: int)
    requires KeysGood(db) && c in db.conversations
    ensures OnlyAdds(db, AddMessage(db, c, now)) && AddMessage(db, c, now).tickets == db.tickets
  {
  }

  lemma TouchOnlyAdds(db: Db, used: set<nat>, now: int)
    ensures OnlyAdds(db, Touch(db, used, now)) && Touch(db, used, now).tickets == db.tickets
  {
  }

  lemma {:induction false} TurnOnlyAdds(db: Db, op: Op)
    requires Good(db) && op.ChatTurn?
    ensures OnlyAdds(db, Step(db, op)) && Step(db, op).tickets == db.tickets
  {
    hide Good, OnlyAdds, KeysGood, Touch, AddMessage, Ensure;
    GoodKeys(db);
    EnsureKeeps(db, op.subject, op.now);
    EnsureOnlyAdds(db, op.subject, op.now);
    var found := Ensure(db, op.subject, op.now);
    var c := found.bySubject[op.subject];
    GoodKeys(found);
    MessageOnlyAdds(found, c, op.now);
    AddMessageKeeps(found, c, op.now);
    var once := AddMessage(found, c, op.now);
    MessageStays(found, c, op.now);
    GoodKeys(once);
    MessageOnlyAdds(once, c, op.now);
    var twice := AddMessage(once, c, op.now);
    TouchOnlyAdds(twice, op.used, op.now);
    OnlyAddsTwice(db, found, once);
    OnlyAddsTwice(db, once, twice);
    OnlyAddsTwice(db, twice, Touch(twice, op.used, op.now));
  }

  lemma MessageStays(db: Db, c: nat, now: int)
    requires c in db.conversations
    ensures c in AddMessage(db, c, now).conversations
  {
  }

  lemma GoodKeys(db: Db)
    requires Good(db)
    ensures KeysGood(db)
  {
  }

  lemma {:induction false} TicketOnlyAdds(db: Db, op: Op)
    requires Good(db) && op.CreateTicket?
    ensures OnlyAdds(db, Step(db, op))
    ensures forall t :: t in db.tickets ==> Step(db, op).tickets[t] == db.tickets[t]
  {
    hide Good, OnlyAdds, AddMessage, Ensure;
    GoodKeys(db);
    EnsureKeeps(db, op.subject, op.now);
    EnsureOnlyAdds(db, op.subject, op.now);
    var found := Ensure(db, op.subject, op.now);
    var c := found.bySubject[op.subject];
    var spoken := if op.withMessage then AddMessage(found, c, op.now) else found;
    GoodKeys(found);
    if op.withMessage {
      MessageOnlyAdds(found, c, op.now);
      AddMessageKeeps(found, c, op.now);
      OnlyAddsTwice(db, found, spoken);
    }
    GoodKeys(spoken);
    TicketRowAdded(spoken, c);
    OnlyAddsTwice(db, spoken, Step(db, op));
  }

  lemma TicketRowAdded(db: Db, c: nat)
    requires KeysGood(db)
    ensures var after := db.(tickets := db.tickets[db.nextId := Ticket(c, Open, None, None)],
                             nextId := db.nextId + 1);
            OnlyAdds(db, after) && db.nextId !in db.tickets
  {
  }

  predicate Settles(op: Op, t: nat) {
    op.UpdateTicket? && op.ticket == t && op.status.Some? && !Unresolved(op.status.value)
  }

  lemma UpdateOnlyAdds(db: Db, op: Op, t: nat)
    requires op.UpdateTicket?
    ensures OnlyAdds(db, Step(db, op))
    ensures t in db.tickets && Unresolved(db.tickets[t].status) && !Settles(op, t) ==>
              Unresolved(Step(db, op).tickets[t].status)
  {
  }

  lemma ReplyOnlyAdds(db: Db, op: Op, t: nat)
    requires KeysGood(db) && op.Reply?
    ensures OnlyAdds(db, Step(db, op))
    ensures t in db.tickets && Unresolved(db.tickets[t].status) ==> Unresolved(Step(db, op).tickets[t].status)
  {
    hide KeysGood, AddMessage, OnlyAdds;
    OnlyAddsNothing(db);
    if Step(db, op) != db {
      var said := AddMessage(db, db.tickets[op.ticket].conversation, op.now);
      MessageOnlyAdds(db, db.tickets[op.ticket].conversation, op.now);
      RepliedTicketStays(db, said, op);
    }
  }

  lemma RepliedTicketStays(db: Db, said: Db, op: Op)
    requires op.Reply? && op.ticket in db.tickets && OnlyAdds(db, said) && said.tickets == db.tickets
    ensures OnlyAdds(db, said.(tickets := said.tickets[op.ticket := Replied(db.tickets[op.ticket], op.actor)]))
  {
  }

  lemma StoreOnlyAdds(db: Db, op: Op)
    requires KeysGood(db) && op.StoreNote?
    ensures OnlyAdds(db, Step(db, op)) && Step(db, op).tickets == db.tickets
  {
  }

  lemma AddingKeepsWaiting(db: Db, after: Db, t: nat, c: nat, s: Subject, messages: set<nat>, notes: set<nat>)
    requires Waiting(db, t, c, s, messages, notes) && OnlyAdds(db, after)
    requires t in after.tickets && Unresolved(after.tickets[t].status)
    ensures Waiting(after, t, c, s, messages, notes)
  {
  }

  lemma {:induction false} StepKeepsWaiting(db: Db, op: Op, t: nat, c: nat, s: Subject,
                                            messages: set<nat>, notes: set<nat>)
    requires Good(db) && Waiting(db, t, c, s, messages, notes) && !EndsWait(op, t, c, s)
    ensures Waiting(Step(db, op), t, c, s, messages, notes)
  {
    hide Good, Step, OnlyAdds, MessagesOf, NotesOf;
    GoodKeys(db);
    match op {
      case ChatTurn(_, _, _) =>
        TurnOnlyAdds(db, op);
        AddingKeepsWaiting(db, Step(db, op), t, c, s, messages, notes);
      case CreateTicket(_, _, _) =>
        TicketOnlyAdds(db, op);
        StillThere(db, Step(db, op), t);
        AddingKeepsWaiting(db, Step(db, op), t, c, s, messages, notes);
      case UpdateTicket(_, _, _, _, _) =>
        UpdateOnlyAdds(db, op, t);
        StillThere(db, Step(db, op), t);
        AddingKeepsWaiting(db, Step(db, op), t, c, s, messages, notes);
      case Reply(_, _, _) =>
        ReplyOnlyAdds(db, op, t);
        StillThere(db, Step(db, op), t);
        AddingKeepsWaiting(db, Step(db, op), t, c, s, messages, notes);
      case StoreNote(_, _, _) =>
        StoreOnlyAdds(db, op);
        AddingKeepsWaiting(db, Step(db, op), t, c, s, messages, notes);
      case SweepConversations(_, _, _) =>
        assert Pinned(db, c);
        SweepsRespectPins(db, op, c);
      case SweepNotes(_, _, _) =>
        assert Pinned(db, c);
        SweepsRespectPins(db, op, c);
      case DeleteConversation(_, _) => OtherErasure(db, op, t, c, s, messages, notes);
      case Forget(_) => OtherErasure(db, op, t, c, s, messages, notes);
    }
  }

  lemma StillThere(db: Db, after: Db, t: nat)
    requires OnlyAdds(db, after) && t in db.tickets
    ensures t in after.tickets
  {
  }

  /** Erasing somebody else does not concern this ticket. */
  lemma OtherErasure(db: Db, op: Op, t: nat, c: nat, s: Subject, messages: set<nat>, notes: set<nat>)
    requires Good(db) && Waiting(db, t, c, s, messages, notes) && !EndsWait(op, t, c, s)
    requires op.DeleteConversation? || op.Forget?
    ensures Waiting(Step(db, op), t, c, s, messages, notes)
  {
    hide CountsGood, StampsGood;
    if op.DeleteConversation? && Step(db, op) != db {
      assert db.conversations[op.conversation].subject != s;
    }
  }

  /** The pin over whole runs: while a ticket stays open or pending and nobody asks for an
      erasure, no interleaving of sweeps, turns, replies, other tickets and extractions takes
      away its conversation, a message of it, or a note about its visitor. */
  lemma {:induction false} PinHoldsOverRuns(db: Db, ops: seq<Op>, t: nat)
    requires Good(db) && t in db.tickets && Unresolved(db.tickets[t].status)
    requires var c := db.tickets[t].conversation;
             forall i :: 0 <= i < |ops| ==> !EndsWait(ops[i], t, c, db.conversations[c].subject)
    ensures var c := db.tickets[t].conversation; var s := db.conversations[c].subject;
            Waiting(Run(db, ops), t, c, s, MessagesOf(db, c), NotesOf(db, s))
  {
    hide Step, EndsWait, CountsGood, StampsGood, IndexGood;
    if ops != [] {
      var front := ops[..|ops| - 1];
      var c := db.tickets[t].conversation;
      var s := db.conversations[c].subject;
      PinHoldsOverRuns(db, front, t);
      RunKeepsGood(db, front);
      StepKeepsWaiting(Run(db, front), ops[|ops| - 1], t, c, s, MessagesOf(db, c), NotesOf(db, s));
    }
  }

  // ---------------------------------------------------------------------------------------
  // What an erasure promises

  /** Asking for a transcript to go takes everything remembered about its author with it, open
      ticket or not. */
  lemma {:induction false} DeletionForgets(db: Db, chatbot: nat, c: nat)
    requires Good(db) && c in db.conversations && db.conversations[c].subject.chatbot == chatbot
    ensures var after := Step(db, DeleteConversation(chatbot, c)); var s := db.conversations[c].subject;
            && c !in after.conversations && s !in after.bySubject
            && MessagesOf(after, c) == {} && NotesOf(after, s) == {}
            && (forall t :: t in after.tickets ==> after.tickets[t].conversation != c)
            && (forall n :: n in db.notes && db.notes[n].subject != s ==>
                  n in after.notes && after.notes[n].subject == db.notes[n].subject)
  {
    hide CountsGood, StampsGood;
  }

  /** Whether an operation opens a conversation for `s`. */
  predicate Opens(op: Op, s: Subject) {
    (op.ChatTurn? || op.CreateTicket?) && op.subject == s
  }

  ghost predicate Forgotten(db: Db, s: Subject) {
    s !in db.bySubject && NotesOf(db, s) == {}
  }

  lemma StepKeepsForgotten(db: Db, op: Op, s: Subject)
    requires Good(db) && Forgotten(db, s) && !Opens(op, s)
    ensures Forgotten(Step(db, op), s)
  {
    hide CountsGood, StampsGood, ExpiredConversations, ExpiredNotes;
    match op {
      case ChatTurn(_, _, _) => TurnKeepsForgotten(db, op, s);
      case CreateTicket(_, _, _) => TurnKeepsForgotten(db, op, s);
      case Reply(t, _, now) => ReplyKeepsForgotten(db, op, s);
      case UpdateTicket(_, _, _, _, _) =>
      case StoreNote(c, _, _) =>
      case SweepConversations(_, _, batch) => RemovalKeepsForgotten(db, batch, s);
      case SweepNotes(_, _, batch) => RemovalKeepsForgotten(db, batch, s);
      case DeleteConversation(_, c) =>
        if Step(db, op) != db {
          var ids := NotesOf(db, db.conversations[c].subject);
          RemovalKeepsForgotten(db, ids, s);
          RemovalKeepsForgotten(RemoveNotes(db, ids), {c}, s);
        }
      case Forget(other) => RemovalKeepsForgotten(db, NotesOf(db, other), s);
    }
  }

  lemma TurnKeepsForgotten(db: Db, op: Op, s: Subject)
    requires Forgotten(db, s) && (op.ChatTurn? || op.CreateTicket?) && op.subject != s
    ensures Forgotten(Step(db, op), s)
  {
    var after := Step(db, op);
    assert forall n :: n in after.notes ==> n in db.notes && after.notes[n].subject == db.notes[n].subject;
    assert forall n :: n in NotesOf(after, s) ==> n in NotesOf(db, s);
  }

  lemma ReplyKeepsForgotten(db: Db, op: Op, s: Subject)
    requires Forgotten(db, s) && op.Reply?
    ensures Forgotten(Step(db, op), s)
  {
  }

  lemma RemovalKeepsForgotten(db: Db, ids: set<nat>, s: Subject)
    requires Forgotten(db, s)
    ensures Forgotten(RemoveConversations(db, ids), s) && Forgotten(RemoveNotes(db, ids), s)
  {
    var fewer := RemoveNotes(db, ids);
    assert forall n :: n in NotesOf(fewer, s) ==> n in NotesOf(db, s);
    var gone := RemoveConversations(db, ids);
    assert forall n :: n in gone.notes ==> gone.notes[n].subject == db.notes[n].subject;
    assert forall n :: n in NotesOf(gone, s) ==> n in NotesOf(db, s);
  }

  /** And it stays gone until the visitor returns: an extraction that tries to insert afterwards
      fails, because the conversation its row must refer to no longer exists. Taken as one step,
      the delete sees every insert made before it; what one that is still uncommitted does is in
      `Erasures`. */
  lemma {:induction false} ErasureIsFinal(db: Db, chatbot: nat, c: nat, ops: seq<Op>)
    requires Good(db) && c in db.conversations && db.conversations[c].subject.chatbot == chatbot
    requires forall i :: 0 <= i < |ops| ==> !Opens(ops[i], db.conversations[c].subject)
    ensures var s := db.conversations[c].subject;
            Forgotten(Run(Step(db, DeleteConversation(chatbot, c)), ops), s)
  {
    hide Step, Opens, Good;
    var s, start := db.conversations[c].subject, Step(db, DeleteConversation(chatbot, c));
    StepKeepsGood(db, DeleteConversation(chatbot, c));
    if ops == [] {
      DeletionForgets(db, chatbot, c);
    } else {
      var front := ops[..|ops| - 1];
      ErasureIsFinal(db, chatbot, c, front);
      RunKeepsGood(start, front);
      StepKeepsForgotten(Run(start, front), ops[|ops| - 1], s);
    }
  }
}
