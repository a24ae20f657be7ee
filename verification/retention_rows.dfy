/** What each transaction of `Retention` leaves in the rows, and what that means for the sweeps that
    follow: `create_ticket`, `update_ticket` and `reply_to_ticket` in `app/services/ticket.py`,
    `_persist_turn` in `app/services/rag.py` and `touch` in `app/repositories/memory_entry.py`. */
module RetentionRows {
  import opened Text
  import opened Retention

  /** `subject` has said `said` more messages at `now`, in the conversation they have or a new one,
      and nobody else's conversation has changed. */
  ghost predicate Spoke(db: Db, after: Db, subject: Subject, said: nat, now: int) {
    && subject in after.bySubject && after.bySubject[subject] in after.conversations
    && (subject in db.bySubject ==> after.bySubject[subject] == db.bySubject[subject])
    && var c := after.bySubject[subject];
       && (subject !in db.bySubject ==> c !in db.conversations)
       && after.conversations.Keys == db.conversations.Keys + {c}
       && (forall d :: d in db.conversations && d != c ==> after.conversations[d] == db.conversations[d])
       && after.conversations[c].subject == subject
       && MessagesOf(db, c) <= MessagesOf(after, c)
       && after.conversations[c].messageCount ==
            said + (if subject in db.bySubject && c in db.conversations then db.conversations[c].messageCount else 0)
       && after.conversations[c].updatedAt ==
            if said > 0 || c !in db.conversations then now else db.conversations[c].updatedAt
  }

  lemma EnsureSpoke(db: Db, s: Subject, now: int)
    requires Good(db)
    ensures Spoke(db, Ensure(db, s, now), s, 0, now)
  {
    hide CountsGood, StampsGood;
  }

  lemma MessageSpoke(db: Db, found: Db, s: Subject, said: nat, now: int)
    requires KeysGood(found) && Spoke(db, found, s, said, now)
    ensures Spoke(db, AddMessage(found, found.bySubject[s], now), s, said + 1, now)
  {
    var c := found.bySubject[s];
    var after := AddMessage(found, c, now);
    assert found.nextId !in found.messages;
    assert MessagesOf(found, c) <= MessagesOf(after, c);
  }

  lemma SameThreadsSpoke(db: Db, spoken: Db, after: Db, s: Subject, said: nat, now: int)
    requires Spoke(db, spoken, s, said, now)
    requires after.conversations == spoken.conversations && after.bySubject == spoken.bySubject
    requires after.messages == spoken.messages
    ensures Spoke(db, after, s, said, now)
  {
    forall c
      ensures MessagesOf(after, c) == MessagesOf(spoken, c)
    {
    }
    hide MessagesOf;
  }

  /** The conversation and `said` messages in it, so far; tickets and notes untouched. */
  ghost predicate SoFar(db: Db, found: Db, s: Subject, said: nat, now: int) {
    && Good(found) && Spoke(db, found, s, said, now) && found.tickets == db.tickets && found.notes == db.notes
  }

  lemma Opened(db: Db, s: Subject, now: int)
    requires Good(db)
    ensures SoFar(db, Ensure(db, s, now), s, 0, now)
  {
    assert Ensure(db, s, now).tickets == db.tickets && Ensure(db, s, now).notes == db.notes;
    hide Spoke, Good, Ensure;
    EnsureKeeps(db, s, now);
    EnsureSpoke(db, s, now);
  }

  lemma HasThread(db: Db, found: Db, s: Subject, said: nat, now: int)
    requires SoFar(db, found, s, said, now)
    ensures s in found.bySubject && found.bySubject[s] in found.conversations
    ensures found.nextId !in found.tickets
  {
  }

  lemma OneMore(db: Db, found: Db, s: Subject, said: nat, now: int)
    requires SoFar(db, found, s, said, now) && s in found.bySubject && found.bySubject[s] in found.conversations
    ensures SoFar(db, AddMessage(found, found.bySubject[s], now), s, said + 1, now)
    ensures AddMessage(found, found.bySubject[s], now).bySubject == found.bySubject
  {
    GoodKeys(found);
    MessageSpoke(db, found, s, said, now);
    AddMessageKeeps(found, found.bySubject[s], now);
    hide Spoke, Good;
  }

  lemma Touched(db: Db, found: Db, s: Subject, said: nat, used: set<nat>, now: int)
    requires SoFar(db, found, s, said, now)
    ensures var after := Touch(found, used, now);
            && Spoke(db, after, s, said, now) && after.tickets == db.tickets && after.notes.Keys == db.notes.Keys
            && forall n :: n in db.notes ==>
                 after.notes[n] == if n in used && db.notes[n].lastReferenced < now - 3600
                                   then db.notes[n].(lastReferenced := now) else db.notes[n]
  {
    hide Spoke, Good;
    SameThreadsSpoke(db, found, Touch(found, used, now), s, said, now);
  }

  lemma TurnIs(db: Db, s: Subject, used: set<nat>, now: int)
    requires var found := Ensure(db, s, now); s in found.bySubject && found.bySubject[s] in found.conversations
    ensures var found := Ensure(db, s, now);
            var once := AddMessage(found, found.bySubject[s], now);
            && found.bySubject[s] in once.conversations
            && Step(db, ChatTurn(s, used, now)) == Touch(AddMessage(once, found.bySubject[s], now), used, now)
  {
    hide Ensure, Touch;
  }

  /** A chat turn adds two messages to the visitor's conversation and stamps it, and stamps the notes
      it used that were more than an hour stale; tickets and other notes stay as they are. */
  lemma {:induction false} TurnRows(db: Db, subject: Subject, used: set<nat>, now: int)
    requires Good(db)
    ensures var after := Step(db, ChatTurn(subject, used, now));
            && Spoke(db, after, subject, 2, now) && after.tickets == db.tickets && after.notes.Keys == db.notes.Keys
            && forall n :: n in db.notes ==>
                 after.notes[n] == if n in used && db.notes[n].lastReferenced < now - 3600
                                   then db.notes[n].(lastReferenced := now) else db.notes[n]
  {
    hide *;
    var found := Ensure(db, subject, now);
    Opened(db, subject, now);
    HasThread(db, found, subject, 0, now);
    TurnIs(db, subject, used, now);
    OneMore(db, found, subject, 0, now);
    var once := AddMessage(found, found.bySubject[subject], now);
    OneMore(db, once, subject, 1, now);
    Touched(db, AddMessage(once, found.bySubject[subject], now), subject, 2, used, now);
  }

  lemma Ticketed(db: Db, spoken: Db, tickets: map<nat, Ticket>, nextId: nat, s: Subject, said: nat, now: int)
    requires SoFar(db, spoken, s, said, now)
    ensures Spoke(db, spoken.(tickets := tickets, nextId := nextId), s, said, now)
  {
    hide Spoke, Good;
    SameThreadsSpoke(db, spoken, spoken.(tickets := tickets, nextId := nextId), s, said, now);
  }

  lemma TicketIs(db: Db, s: Subject, withMessage: bool, now: int)
    requires var found := Ensure(db, s, now); s in found.bySubject && found.bySubject[s] in found.conversations
    ensures var found := Ensure(db, s, now);
            var c := found.bySubject[s];
            var spoken := if withMessage then AddMessage(found, c, now) else found;
            Step(db, CreateTicket(s, withMessage, now)) ==
              spoken.(tickets := spoken.tickets[spoken.nextId := Ticket(c, Open, None, None)],
                      nextId := spoken.nextId + 1)
  {
    hide Ensure;
  }

  lemma SoFarLeaves(db: Db, found: Db, s: Subject, said: nat, now: int)
    requires SoFar(db, found, s, said, now)
    ensures found.tickets == db.tickets && found.notes == db.notes
  {
    hide Spoke, Good;
  }

  /** A ticket is a new row, open and nobody's, on the visitor's conversation. */
  lemma {:induction false} TicketRows(db: Db, subject: Subject, withMessage: bool, now: int)
    returns (t: nat)
    requires Good(db)
    ensures var after := Step(db, CreateTicket(subject, withMessage, now));
            && Spoke(db, after, subject, if withMessage then 1 else 0, now) && after.notes == db.notes
            && t !in db.tickets && subject in after.bySubject
            && after.tickets == db.tickets[t := Ticket(after.bySubject[subject], Open, None, None)]
  {
    hide *;
    var found := Ensure(db, subject, now);
    Opened(db, subject, now);
    HasThread(db, found, subject, 0, now);
    TicketIs(db, subject, withMessage, now);
    OneMore(db, found, subject, 0, now);
    var spoken := if withMessage then AddMessage(found, found.bySubject[subject], now) else found;
    var said := if withMessage then 1 else 0;
    SoFarLeaves(db, spoken, subject, said, now);
    HasThread(db, spoken, subject, said, now);
    t := spoken.nextId;
    Ticketed(db, spoken, spoken.tickets[t := Ticket(found.bySubject[subject], Open, None, None)], t + 1,
             subject, said, now);
  }

  /** An update changes one ticket: its holder as told, and its status as told, or to pending when an
      open ticket is given to somebody without a word about its status. The time of resolution is
      that of the call when it resolves, and there is none as long as it is not resolved. */
  lemma {:induction false} UpdateRows(db: Db, op: Op)
    requires Good(db) && op.UpdateTicket?
    ensures op.ticket !in db.tickets ==> Step(db, op) == db
    ensures op.ticket in db.tickets ==>
              var was, after := db.tickets[op.ticket], Step(db, op);
              && after == db.(tickets := after.tickets) && op.ticket in after.tickets
              && after.tickets == db.tickets[op.ticket := after.tickets[op.ticket]]
              && var next := after.tickets[op.ticket];
                 && next.conversation == was.conversation
                 && next.assignedTo == (if op.unassign then None
                                      else if op.assignTo.Some? then op.assignTo else was.assignedTo)
                 && next.status == (if op.status.Some? then op.status.value
                                  else if op.assignTo.Some? && was.status == Open then Pending else was.status)
                 && next.resolvedAt == (if op.status == Some(Resolved) then Some(op.now)
                                      else if next.status == Resolved then was.resolvedAt else None)
  {
    hide IndexGood, KeysGood, CountsGood;
  }

  /** A reply is one more message, for which an open ticket becomes pending and an unassigned one
      the writer's; a ticket already settled stays settled. */
  lemma {:induction false} ReplyRows(db: Db, t: nat, actor: nat, now: int)
    requires Good(db) && t in db.tickets
    ensures var was, after := db.tickets[t], Step(db, Reply(t, actor, now));
            && was.conversation in db.conversations
            && Spoke(db, after, db.conversations[was.conversation].subject, 1, now) && after.notes == db.notes
            && after.tickets == db.tickets[t := Ticket(was.conversation,
                                                        if was.status == Open then Pending else was.status,
                                                        if was.assignedTo.None? then Some(actor) else was.assignedTo,
                                                        was.resolvedAt)]
  {
    ReplyIs(db, t, actor, now);
    hide *;
    var s := db.conversations[db.tickets[t].conversation].subject;
    NothingSaid(db, s, now);
    OneMore(db, db, s, 0, now);
    var said := AddMessage(db, db.bySubject[s], now);
    SoFarLeaves(db, said, s, 1, now);
    Ticketed(db, said, Step(db, Reply(t, actor, now)).tickets, said.nextId, s, 1, now);
  }

  lemma ReplyIs(db: Db, t: nat, actor: nat, now: int)
    requires Good(db) && t in db.tickets
    ensures db.tickets[t].conversation in db.conversations
    ensures var c, was := db.tickets[t].conversation, db.tickets[t];
            var s, said := db.conversations[c].subject, AddMessage(db, c, now);
            && s in db.bySubject && db.bySubject[s] == c
            && Step(db, Reply(t, actor, now)) ==
                 said.(tickets := said.tickets[t := Ticket(c, if was.status == Open then Pending else was.status,
                                                             if was.assignedTo.None? then Some(actor)
                                                             else was.assignedTo,
                                                             was.resolvedAt)])
  {
    hide CountsGood, StampsGood, AddMessage;
  }

  lemma NothingSaid(db: Db, s: Subject, now: int)
    requires Good(db) && s in db.bySubject
    ensures db.bySubject[s] in db.conversations && SoFar(db, db, s, 0, now)
  {
    hide CountsGood, StampsGood;
  }

  /** An extraction's note is a new row about the visitor, pointing to their conversation, and is
      written exactly while that conversation is there. */
  lemma {:induction false} NoteRows(db: Db, c: nat, subject: Subject, now: int)
    requires Good(db)
    ensures var after := Step(db, StoreNote(c, subject, now));
            if c in db.conversations && db.conversations[c].subject == subject then
              && db.nextId !in db.notes
              && after == db.(notes := db.notes[db.nextId := Note(subject, now, Some(c))], nextId := db.nextId + 1)
            else after == db
  {
    hide CountsGood, StampsGood;
  }

  /** Deleting a conversation through another chatbot does nothing. Through its own, it takes the
      conversation, its messages and tickets, and every note about its author, and leaves everything
      else; a note that came from it but is about somebody else only forgets where it came from. */
  lemma {:induction false} DeleteRows(db: Db, chatbot: nat, c: nat)
    requires Good(db)
    ensures c !in db.conversations || db.conversations[c].subject.chatbot != chatbot ==>
              Step(db, DeleteConversation(chatbot, c)) == db
    ensures c in db.conversations && db.conversations[c].subject.chatbot == chatbot ==>
              var after, s := Step(db, DeleteConversation(chatbot, c)), db.conversations[c].subject;
              && after.conversations == db.conversations - {c}
              && (forall m :: m in after.messages <==> m in db.messages && db.messages[m] != c)
              && (forall m :: m in after.messages ==> after.messages[m] == db.messages[m])
              && (forall t :: t in after.tickets <==> t in db.tickets && db.tickets[t].conversation != c)
              && (forall t :: t in after.tickets ==> after.tickets[t] == db.tickets[t])
              && (forall n :: n in after.notes <==> n in db.notes && db.notes[n].subject != s)
              && (forall n :: n in after.notes ==>
                    after.notes[n] == if db.notes[n].source == Some(c) then db.notes[n].(source := None)
                                      else db.notes[n])
  {
    hide CountsGood, StampsGood, IndexGood, KeysGood;
  }

  /** Forgetting somebody removes every note about them and nothing else. */
  lemma {:induction false} ForgetRows(db: Db, s: Subject)
    ensures var after := Step(db, Forget(s));
            && after == db.(notes := after.notes)
            && (forall n :: n in after.notes <==> n in db.notes && db.notes[n].subject != s)
            && (forall n :: n in after.notes ==> after.notes[n] == db.notes[n])
  {
  }

  // ---------------------------------------------------------------------------------------
  // A ticket holds its conversation from the moment it is opened

  /** Whatever runs after a ticket was opened, and however old the conversation grows: until the
      ticket is settled or somebody is erased, the conversation, everything said in it by then, and
      every note about the visitor stay. */
  lemma {:induction false} NewTicketHolds(db: Db, subject: Subject, withMessage: bool, now: int, ops: seq<Op>)
    returns (t: nat)
    requires Good(db)
    ensures var start := Step(db, CreateTicket(subject, withMessage, now));
            && t in start.tickets && t !in db.tickets && subject in start.bySubject
            && var c := start.bySubject[subject];
               (forall i :: 0 <= i < |ops| ==> !EndsWait(ops[i], t, c, subject)) ==>
               Waiting(Run(start, ops), t, c, subject, MessagesOf(start, c), NotesOf(start, subject))
  {
    t := TicketRows(db, subject, withMessage, now);
    StepKeepsGood(db, CreateTicket(subject, withMessage, now));
    var start := Step(db, CreateTicket(subject, withMessage, now));
    var c := start.bySubject[subject];
    assert start.tickets[t].conversation == c && Unresolved(start.tickets[t].status);
    assert start.conversations[c].subject == subject;
    hide *;
    if forall i :: 0 <= i < |ops| ==> !EndsWait(ops[i], t, c, subject) {
      PinHoldsOverRuns(start, ops, t);
    }
  }

  // ---------------------------------------------------------------------------------------
  // A conversation in use is not idle

  ghost predicate InUse(db: Db, c: nat, s: Subject, since: int) {
    c in db.conversations && db.conversations[c].subject == s && db.conversations[c].updatedAt >= since
  }

  /** The clock has not gone back behind `since`, no sweep of that chatbot reaches past it, and
      nobody deletes the conversation. */
  predicate Spares(op: Op, c: nat, s: Subject, since: int) {
    match op
    case ChatTurn(_, _, now) => since <= now
    case CreateTicket(_, _, now) => since <= now
    case Reply(_, _, now) => since <= now
    case SweepConversations(chatbot, cutoff, _) => chatbot == s.chatbot ==> cutoff <= since
    case DeleteConversation(_, conversation) => conversation != c
    case _ => true
  }

  lemma SpokeKeepsInUse(db: Db, after: Db, speaker: Subject, said: nat, now: int, c: nat, s: Subject, since: int)
    requires Spoke(db, after, speaker, said, now) && InUse(db, c, s, since) && since <= now && Good(db)
    ensures InUse(after, c, s, since)
  {
    hide CountsGood, StampsGood, MessagesOf;
  }

  lemma {:induction false} StepKeepsInUse(db: Db, op: Op, c: nat, s: Subject, since: int)
    requires Good(db) && InUse(db, c, s, since) && Spares(op, c, s, since)
    ensures InUse(Step(db, op), c, s, since)
  {
    hide Good, Spoke, Step;
    match op {
      case ChatTurn(subject, used, now) =>
        TurnRows(db, subject, used, now);
        SpokeKeepsInUse(db, Step(db, op), subject, 2, now, c, s, since);
      case CreateTicket(subject, withMessage, now) =>
        var t := TicketRows(db, subject, withMessage, now);
        SpokeKeepsInUse(db, Step(db, op), subject, if withMessage then 1 else 0, now, c, s, since);
      case UpdateTicket(_, _, _, _, _) => UpdateRows(db, op);
      case Reply(t, actor, now) =>
        if t in db.tickets {
          ReplyRows(db, t, actor, now);
          SpokeKeepsInUse(db, Step(db, op), db.conversations[db.tickets[t].conversation].subject, 1, now, c, s, since);
        } else {
          NoTicketNoReply(db, op);
        }
      case StoreNote(conversation, subject, now) => NoteRows(db, conversation, subject, now);
      case Forget(subject) => ForgetRows(db, subject);
      case _ => RemovalKeepsInUse(db, op, c, s, since);
    }
  }

  lemma NoTicketNoReply(db: Db, op: Op)
    requires op.Reply? && op.ticket !in db.tickets
    ensures Step(db, op) == db
  {
  }

  lemma RemovalKeepsInUse(db: Db, op: Op, c: nat, s: Subject, since: int)
    requires InUse(db, c, s, since) && Spares(op, c, s, since)
    requires op.SweepConversations? || op.SweepNotes? || op.DeleteConversation?
    ensures InUse(Step(db, op), c, s, since)
  {
    hide Pinned, SubjectPinned, NotesOf;
    if op.SweepConversations? {
      assert c !in ExpiredConversations(db, op.chatbot, op.cutoff);
    }
  }

  /** No sweep takes a conversation somebody has spoken in since its cutoff, ticket or not. */
  lemma {:induction false} SpokenInSurvives(db: Db, subject: Subject, used: set<nat>, now: int, ops: seq<Op>)
    requires Good(db)
    ensures var start := Step(db, ChatTurn(subject, used, now));
            && subject in start.bySubject
            && var c := start.bySubject[subject];
               (forall i :: 0 <= i < |ops| ==> Spares(ops[i], c, subject, now)) ==>
               InUse(Run(start, ops), c, subject, now)
  {
    TurnRows(db, subject, used, now);
    var start := Step(db, ChatTurn(subject, used, now));
    StepKeepsGood(db, ChatTurn(subject, used, now));
    var c := start.bySubject[subject];
    assert InUse(start, c, subject, now);
    hide *;
    if forall i :: 0 <= i < |ops| ==> Spares(ops[i], c, subject, now) {
      RunKeepsInUse(start, ops, c, subject, now);
    }
  }

  lemma {:induction false} RunKeepsInUse(db: Db, ops: seq<Op>, c: nat, s: Subject, since: int)
    requires Good(db) && InUse(db, c, s, since)
    requires forall i :: 0 <= i < |ops| ==> Spares(ops[i], c, s, since)
    ensures InUse(Run(db, ops), c, s, since)
  {
    hide Good, InUse, Spares, Step;
    if ops != [] {
      var n := |ops| - 1;
      RunKeepsInUse(db, ops[..n], c, s, since);
      RunKeepsGood(db, ops[..n]);
      StepKeepsInUse(Run(db, ops[..n]), ops[n], c, s, since);
    }
  }
}
