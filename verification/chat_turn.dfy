/** One chat turn from end to end: `stream_answer` and `_persist_turn` in `app/services/rag.py`
    produce events and write the transcript, `event_stream` in `app/api/public/chat.py` prints
    them, and the handler in `send` of `frontend/apps/widget/src/widget.js` shows them. */
module ChatTurns {
  import opened Arithmetic
  import opened Text
  import opened ReasoningFilters
  import opened ServerSentEvents
  import opened Prompts
  import Retention

  const UPSTREAM: string := "upstream_unavailable"
  const TITLE_LENGTH := 300

  // ---------------------------------------------------------------------------------------
  // Data

  datatype Payload =
    | Sources(citations: seq<Citation>)
    | Token(content: string)
    | Done(conversationId: nat, messageId: nat, canEscalate: bool)
    | Error(code: string, message: string)

  datatype Role = User | Assistant | Staff

  datatype Message = Message(role: Role, content: string, sources: seq<Citation>)

  datatype Thread = Thread(messages: seq<Message>, messageCount: nat, title: Option<string>)

  /** An exception: a domain error carries its own code, anything else is masked. */
  datatype Failure = Domain(code: string, message: string) | Unexpected

  /** One turn and everything the outside world decides about it. */
  datatype Turn = Turn(
    question: string,
    spendAllowed: bool,             // the verdict of `consume`
    capMessage: string,
    setupFails: Option<Failure>,    // provider lookup, embedding or retrieval
    matches: seq<Passage>,
    threadFails: Option<Failure>,   // the transaction that opens the conversation
    historyFails: Option<Failure>,  // loading what was said before
    chunks: seq<string>,            // the model's raw stream
    failsAfter: Option<nat>,        // how much of it arrived before the provider failed
    persistFails: Option<Failure>,  // the transaction that writes the turn
    gone: nat -> bool,              // `request.is_disconnected()` at the n-th event
    conversationId: nat,
    messageId: nat,
    recalled: set<nat>,             // the notes about the visitor that went into the prompt
    now: int,                       // when the turn is written
    durable: bool,                  // whether a ticket then names the conversation
    memoryOn: bool)                 // whether the deployment extracts memories at all
  {
    ghost predicate Valid() {
      failsAfter.Some? ==> failsAfter.value <= |chunks|
    }
  }

  function EventName(p: Payload): string {
    match p
    case Sources(_) => "sources"
    case Token(_) => "token"
    case Done(_, _, _) => "done"
    case Error(_, _) => "error"
  }

  function ErrorEvent(f: Failure): Payload {
    match f
    case Domain(code, message) => Error(code, message)
    case Unexpected => Error(UPSTREAM, "The assistant is unavailable right now.")
  }

  function Tokens(deltas: seq<string>): (r: seq<Payload>)
    ensures |r| == |deltas| && forall i :: 0 <= i < |r| ==> r[i] == Token(deltas[i])
  {
    seq(|deltas|, i requires 0 <= i < |deltas| => Token(deltas[i]))
  }

  /** What the assistant said, as the transcript keeps it. */
  function Answer(turn: Turn): string
    requires turn.Valid()
  {
    Trim(Concat(VisibleDeltas(turn.chunks, turn.failsAfter)), PySpace)
  }

  // ---------------------------------------------------------------------------------------
  // Reference: the events of a turn nobody walks away from

  /** Events in the order they are yielded, then the exception that ended them, if any. */
  datatype Generated = Generated(events: seq<Payload>, raised: Option<Failure>)

  function Generate(turn: Turn): Generated
    requires turn.Valid()
  {
    if !turn.spendAllowed then
      Close(turn, [Sources([]), Token(turn.capMessage)], true)
    else if turn.setupFails.Some? then Generated([], turn.setupFails)
    else
      var sources := [Sources(BuildCitations(turn.matches))];
      if turn.threadFails.Some? then Generated(sources, turn.threadFails)
      else if turn.historyFails.Some? then Generated(sources, turn.historyFails)
      else
        var shown := sources + Tokens(VisibleDeltas(turn.chunks, turn.failsAfter));
        if turn.failsAfter.Some? then
          Generated(shown, Some(Domain(UPSTREAM, "Chat completion failed")))
        else if Answer(turn) == "" then Generated(shown, Some(EMPTY_ANSWER))
        else Close(turn, shown, turn.matches == [])
  }

  const EMPTY_ANSWER := Domain(UPSTREAM,
    "The model returned an empty answer. If it is a reasoning model, raise " +
    "`max_tokens` or turn `think` off for this chatbot.")

  /** The last leg: write the turn, and only then say it is done. */
  function Close(turn: Turn, shown: seq<Payload>, canEscalate: bool): Generated {
    if turn.persistFails.Some? then Generated(shown, turn.persistFails)
    else Generated(shown + [Done(turn.conversationId, turn.messageId, canEscalate)], None)
  }

  /** How many events are printed before the visitor is found to have gone. */
  function Printed(gone: nat -> bool, n: nat): (k: nat)
    ensures k <= n && (forall i :: 0 <= i < k ==> !gone(i)) && (k < n ==> gone(k))
  {
    PrintedFrom(gone, n, 0)
  }

  function PrintedFrom(gone: nat -> bool, n: nat, i: nat): (k: nat)
    requires i <= n && forall j :: 0 <= j < i ==> !gone(j)
    ensures i <= k <= n && (forall j :: 0 <= j < k ==> !gone(j)) && (k < n ==> gone(k))
    decreases n - i
  {
    if i == n || gone(i) then i else PrintedFrom(gone, n, i + 1)
  }

  /** The events that reach the wire. */
  function Delivered(turn: Turn): seq<Payload>
    requires turn.Valid()
  {
    var g := Generate(turn);
    var k := Printed(turn.gone, |g.events|);
    if k < |g.events| then g.events[..k]
    else if g.raised.Some? then g.events + [ErrorEvent(g.raised.value)]
    else g.events
  }

  /** Whether the generator got far enough to write the turn: it must have been asked for `done`. */
  predicate Persisted(turn: Turn)
    requires turn.Valid()
  {
    var g := Generate(turn);
    g.raised.None? && Printed(turn.gone, |g.events|) >= |g.events| - 1
  }

  function EmptyThread(): Thread {
    Thread([], 0, None)
  }

  /** `_persist_turn` */
  function PersistTurn(thread: Option<Thread>, question: string, answer: string,
                       citations: seq<Citation>): Thread
  {
    var t := if thread.Some? then thread.value else EmptyThread();
    Thread(t.messages + [Message(User, question, []), Message(Assistant, answer, citations)],
           t.messageCount + 2,
           if t.title.None? then Some(Slice(question, TITLE_LENGTH)) else t.title)
  }

  function Messages(thread: Option<Thread>): seq<Message> {
    if thread.Some? then thread.value.messages else []
  }

  /** What is written as the assistant's message, and the citations written with it. */
  function Said(turn: Turn): string
    requires turn.Valid()
  {
    if turn.spendAllowed then Answer(turn) else turn.capMessage
  }

  function Cited(turn: Turn): seq<Citation> {
    if turn.spendAllowed then BuildCitations(turn.matches) else []
  }

  /** `touch`, on the stamps of the visitor's notes. */
  function TouchStamps(stamps: map<nat, int>, used: set<nat>, now: int): map<nat, int> {
    map n | n in stamps :: if n in used && stamps[n] < now - Retention.TOUCH_STALENESS then now else stamps[n]
  }

  /** A turn past the cap recalls nothing. */
  function Recalled(turn: Turn): set<nat> {
    if turn.spendAllowed then turn.recalled else {}
  }

  function StampsAfter(turn: Turn, stamps: map<nat, int>): map<nat, int>
    requires turn.Valid()
  {
    if Persisted(turn) then TouchStamps(stamps, Recalled(turn), turn.now) else stamps
  }

  /** Whether the turn is handed to memory extraction. */
  predicate Queued(turn: Turn)
    requires turn.Valid()
  {
    Persisted(turn) && turn.spendAllowed && turn.memoryOn && turn.durable
  }

  /** The transcript after the turn. Opening the conversation may leave an empty one behind. */
  function ThreadAfter(turn: Turn, thread: Option<Thread>): Option<Thread>
    requires turn.Valid()
  {
    if Persisted(turn) then Some(PersistTurn(thread, turn.question, Said(turn), Cited(turn)))
    else if turn.spendAllowed && turn.setupFails.None? && !turn.gone(0) && turn.threadFails.None? then
      if thread.Some? then thread else Some(EmptyThread())
    else thread
  }

  // ---------------------------------------------------------------------------------------
  // The code: a generator and its consumer, interleaved at every yield

  class ChatTurn {
    const turn: Turn
    var thread: Option<Thread>
    var stamps: map<nat, int>
    var wire: seq<Payload>
    var asked: nat
    var queued: bool

    constructor (turn: Turn, thread: Option<Thread>, stamps: map<nat, int>)
      ensures this.turn == turn && this.thread == thread && this.stamps == stamps
      ensures wire == [] && asked == 0 && !queued
    {
      this.turn := turn;
      this.thread, this.stamps := thread, stamps;
      wire, asked, queued := [], 0, false;
    }

    /** One round of the loop in `event_stream`. */
    method Offer(event: Payload) returns (open: bool)
      modifies this`wire, this`asked
      ensures open == !turn.gone(old(asked)) && asked == old(asked) + 1
      ensures wire == if open then old(wire) + [event] else old(wire)
    {
      open := !turn.gone(asked);
      asked := asked + 1;
      if open {
        wire := wire + [event];
      }
    }

    /** The `except` clauses of `event_stream`: printed without asking whether anyone listens. */
    method Raise(failure: Failure)
      modifies this`wire
      ensures wire == old(wire) + [ErrorEvent(failure)]
    {
      wire := wire + [ErrorEvent(failure)];
    }

    method EnsureConversation()
      modifies this`thread
      ensures thread == if old(thread).Some? then old(thread) else Some(EmptyThread())
    {
      if thread.None? {
        thread := Some(EmptyThread());
      }
    }

    /** `_persist_turn` */
    method Persist(answer: string, citations: seq<Citation>, recalled: set<nat>) returns (durable: bool)
      modifies this`thread, this`stamps
      ensures thread == Some(PersistTurn(old(thread), turn.question, answer, citations))
      ensures stamps == TouchStamps(old(stamps), recalled, turn.now)
      ensures durable == turn.durable
    {
      EnsureConversation();
      var t := thread.value;
      var title := if t.title.None? then Some(Slice(turn.question, TITLE_LENGTH)) else t.title;
      thread := Some(Thread(
        t.messages + [Message(User, turn.question, [])] + [Message(Assistant, answer, citations)],
        t.messageCount + 2, title));
      assert thread.value.messages
          == t.messages + [Message(User, turn.question, []), Message(Assistant, answer, citations)];
      stamps := TouchStamps(stamps, recalled, turn.now);
      durable := turn.durable;
    }

    /** Write the turn, queue what may be remembered of it, and announce it. */
    method Finish(answer: string, citations: seq<Citation>, recalled: set<nat>, extract: bool, canEscalate: bool)
      modifies this
      ensures turn.persistFails.Some? ==>
                thread == old(thread) && wire == old(wire) + [ErrorEvent(turn.persistFails.value)]
      ensures turn.persistFails.Some? ==> stamps == old(stamps) && queued == old(queued)
      ensures turn.persistFails.None? ==>
                && stamps == TouchStamps(old(stamps), recalled, turn.now)
                && queued == (old(queued) || (extract && turn.memoryOn && turn.durable))
      ensures turn.persistFails.None? ==>
                && thread == Some(PersistTurn(old(thread), turn.question, answer, citations))
                && wire == if turn.gone(old(asked)) then old(wire)
                           else old(wire) + [Done(turn.conversationId, turn.messageId, canEscalate)]
    {
      if turn.persistFails.Some? {
        Raise(turn.persistFails.value);
        return;
      }
      var durable := Persist(answer, citations, recalled);
      if extract && turn.memoryOn && durable {
        queued := true;
      }
      var _ := Offer(Done(turn.conversationId, turn.messageId, canEscalate));
    }

    method CappedTurn()
      requires turn.Valid() && !turn.spendAllowed
      requires wire == [] && asked == 0 && !queued
      modifies this
      ensures wire == Delivered(turn) && thread == ThreadAfter(turn, old(thread))
      ensures stamps == StampsAfter(turn, old(stamps)) && queued == Queued(turn)
    {
      var open := Offer(Sources([]));
      if !open { return; }
      open := Offer(Token(turn.capMessage));
      if !open { return; }
      Finish(turn.capMessage, [], {}, false, true);
    }

    method StreamAnswer()
      requires turn.Valid()
      requires wire == [] && asked == 0 && !queued
      modifies this
      ensures wire == Delivered(turn) && thread == ThreadAfter(turn, old(thread))
      ensures stamps == StampsAfter(turn, old(stamps)) && queued == Queued(turn)
    {
      hide Trim, VisibleDeltas, BuildCitations, PySpace, Concat;
      if !turn.spendAllowed {
        CappedTurn();
        return;
      }
      if turn.setupFails.Some? {
        Raise(turn.setupFails.value);
        return;
      }
      var citations := BuildCitations(turn.matches);
      var open := Offer(Sources(citations));
      if !open { return; }
      if turn.threadFails.Some? {
        Raise(turn.threadFails.value);
        return;
      }
      EnsureConversation();
      if turn.historyFails.Some? {
        Raise(turn.historyFails.value);
        return;
      }
      Generation(citations);
    }

    /** The loop over the model's deltas: every one is kept, then offered. */
    method OfferTokens(deltas: seq<string>) returns (parts: seq<string>, open: bool)
      modifies this`wire, this`asked
      ensures asked == old(asked) + |parts| && parts <= deltas
      ensures forall j :: old(asked) <= j < asked - 1 ==> !turn.gone(j)
      ensures open ==> parts == deltas && wire == old(wire) + Tokens(deltas)
      ensures open && asked > old(asked) ==> !turn.gone(asked - 1)
      ensures !open ==> parts != [] && turn.gone(asked - 1)
      ensures !open ==> wire == old(wire) + Tokens(deltas)[..|parts| - 1]
    {
      parts := [];
      for i := 0 to |deltas|
        invariant asked == old(asked) + i && wire == old(wire) + Tokens(deltas)[..i]
        invariant forall j :: old(asked) <= j < asked ==> !turn.gone(j)
        invariant parts == deltas[..i]
      {
        parts := parts + [deltas[i]];
        open := Offer(Token(deltas[i]));
        if !open { return; }
      }
      open := true;
    }

    /** The part of `stream_answer` that runs while the model does. */
    method Generation(citations: seq<Citation>)
      requires turn.Valid() && turn.spendAllowed && turn.setupFails.None?
      requires turn.threadFails.None? && turn.historyFails.None?
      requires citations == BuildCitations(turn.matches)
      requires wire == [Sources(citations)] && asked == 1 && !turn.gone(0) && !queued
      modifies this
      ensures wire == Delivered(turn)
      ensures Persisted(turn) ==>
                thread == Some(PersistTurn(old(thread), turn.question, Answer(turn), citations))
      ensures !Persisted(turn) ==> thread == old(thread)
      ensures Persisted(turn) ==>
                stamps == TouchStamps(old(stamps), turn.recalled, turn.now) && queued == (turn.memoryOn && turn.durable)
      ensures !Persisted(turn) ==> stamps == old(stamps) && !queued
    {
      hide *;
      GeneratedNormally(turn);
      ghost var shown := [Sources(citations)] + Tokens(VisibleDeltas(turn.chunks, turn.failsAfter));
      var deltas, completed := StreamVisible(turn.chunks, turn.failsAfter);
      var parts, open := OfferTokens(deltas);
      if open {
        Conclude(parts, completed, citations);
      } else {
        assert wire == shown[..|parts|];
        assert shown[..|parts|] == Generate(turn).events[..|parts|];
        StoppedAt(turn, |parts|);
      }
    }

    /** What happens once the stream is over and every delta has been offered. */
    method Conclude(parts: seq<string>, completed: bool, citations: seq<Citation>)
      requires turn.Valid() && turn.spendAllowed && turn.setupFails.None?
      requires turn.threadFails.None? && turn.historyFails.None?
      requires citations == BuildCitations(turn.matches)
      requires parts == VisibleDeltas(turn.chunks, turn.failsAfter)
      requires completed == turn.failsAfter.None?
      requires wire == [Sources(citations)] + Tokens(parts) && asked == 1 + |parts| && !queued
      requires forall j :: 0 <= j < asked ==> !turn.gone(j)
      modifies this
      ensures wire == Delivered(turn)
      ensures Persisted(turn) ==>
                thread == Some(PersistTurn(old(thread), turn.question, Answer(turn), citations))
      ensures !Persisted(turn) ==> thread == old(thread)
      ensures Persisted(turn) ==>
                stamps == TouchStamps(old(stamps), turn.recalled, turn.now) && queued == (turn.memoryOn && turn.durable)
      ensures !Persisted(turn) ==> stamps == old(stamps) && !queued
    {
      hide *;
      GeneratedNormally(turn);
      if !completed {
        Raise(Domain(UPSTREAM, "Chat completion failed"));
        RanOut(turn);
        return;
      }
      var answer := Trim(Concat(parts), PySpace);
      if answer == "" {
        Raise(EMPTY_ANSWER);
        RanOut(turn);
        return;
      }
      Finish(answer, citations, turn.recalled, true, turn.matches == []);
      if turn.persistFails.None? && turn.gone(1 + |parts|) {
        StoppedAt(turn, 1 + |parts|);
      } else {
        RanOut(turn);
      }
    }
  }

  lemma StoppedAt(turn: Turn, k: nat)
    requires turn.Valid() && k < |Generate(turn).events|
    requires turn.gone(k) && forall j :: 0 <= j < k ==> !turn.gone(j)
    ensures Delivered(turn) == Generate(turn).events[..k]
    ensures Persisted(turn) <==> Generate(turn).raised.None? && k == |Generate(turn).events| - 1
  {
    hide Generate;
  }

  lemma RanOut(turn: Turn)
    requires turn.Valid() && forall j :: 0 <= j < |Generate(turn).events| ==> !turn.gone(j)
    ensures var g := Generate(turn);
            && Delivered(turn) ==
               (if g.raised.Some? then g.events + [ErrorEvent(g.raised.value)] else g.events)
            && (Persisted(turn) <==> g.raised.None?)
  {
    hide Generate;
  }

  /** The shape of a turn that reached the model. */
  lemma GeneratedNormally(turn: Turn)
    requires turn.Valid() && turn.spendAllowed && turn.setupFails.None?
    requires turn.threadFails.None? && turn.historyFails.None?
    ensures turn.failsAfter.Some? ==> turn.failsAfter.value <= |turn.chunks|
    ensures var g := Generate(turn);
            var deltas := VisibleDeltas(turn.chunks, turn.failsAfter);
            var shown := [Sources(BuildCitations(turn.matches))] + Tokens(deltas);
            && Answer(turn) == Trim(Concat(deltas), PySpace)
            && shown <= g.events
            && (turn.failsAfter.Some? ==>
                g == Generated(shown, Some(Domain(UPSTREAM, "Chat completion failed"))))
            && (turn.failsAfter.None? && Answer(turn) == "" ==> g == Generated(shown, Some(EMPTY_ANSWER)))
            && (turn.failsAfter.None? && Answer(turn) != "" ==>
                if turn.persistFails.Some? then g == Generated(shown, turn.persistFails)
                else g == Generated(
                  shown + [Done(turn.conversationId, turn.messageId, turn.matches == [])], None))
  {
    hide Trim, VisibleDeltas, BuildCitations, PySpace, Concat, Tokens;
  }

  // ---------------------------------------------------------------------------------------
  // The widget's side

  datatype View = View(sources: Option<seq<Citation>>, answer: Option<string>, escalate: bool,
                       errors: seq<string>)

  const BLANK_VIEW := View(None, None, false, [])

  function Show(view: View, call: Call<Payload>): View {
    match call.payload
    case Sources(citations) =>
      if call.event == "sources" then view.(sources := Some(citations)) else view
    case Token(content) =>
      if call.event == "token" then
        view.(answer := Some((if view.answer.Some? then view.answer.value else "") + content))
      else view
    case Done(_, _, canEscalate) =>
      if call.event == "done" && canEscalate then view.(escalate := true) else view
    case Error(_, message) =>
      if call.event == "error" then
        view.(errors := view.errors + [if message == "" then "Something went wrong." else message])
      else view
  }

  /** The handler `send` passes to `consumeStream`. */
  class WidgetChat {
    var sources: Option<seq<Citation>>
    var answer: Option<string>
    var escalate: bool
    var errors: seq<string>

    constructor ()
      ensures AsView() == BLANK_VIEW
    {
      sources, answer, escalate, errors := None, None, false, [];
    }

    function AsView(): View
      reads this
    {
      View(sources, answer, escalate, errors)
    }

    method OnEvent(event: string, data: Payload)
      modifies this
      ensures AsView() == Show(old(AsView()), Call(event, data))
    {
      if event == "sources" {
        if data.Sources? {
          sources := Some(data.citations);
        }
      } else if event == "token" {
        if data.Token? {
          if answer.None? {
            answer := Some("");
          }
          answer := Some(answer.value + data.content);
        }
      } else if event == "done" {
        if data.Done? && data.canEscalate {
          escalate := true;
        }
      } else if event == "error" {
        if data.Error? {
          errors := errors + [if data.message == "" then "Something went wrong." else data.message];
        }
      }
    }
  }

  function ShowAll(calls: seq<Call<Payload>>): View {
    if calls == [] then BLANK_VIEW
    else Show(ShowAll(calls[..|calls| - 1]), calls[|calls| - 1])
  }

  function CallsOf(events: seq<Payload>): (r: seq<Call<Payload>>)
    ensures |r| == |events|
    ensures forall i :: 0 <= i < |events| ==> r[i] == Call(EventName(events[i]), events[i])
  {
    seq(|events|, i requires 0 <= i < |events| => Call(EventName(events[i]), events[i]))
  }

  // ---------------------------------------------------------------------------------------
  // What a turn promises

  /** Everything that has to go right for a turn to end normally. */
  ghost predicate GoesThrough(turn: Turn)
    requires turn.Valid()
  {
    && turn.persistFails.None?
    && (turn.spendAllowed ==>
        && turn.setupFails.None? && turn.threadFails.None? && turn.historyFails.None?
        && turn.failsAfter.None? && Answer(turn) != "")
  }

  ghost predicate Announced(events: seq<Payload>) {
    exists i :: 0 <= i < |events| && events[i].Done?
  }

  /** The messages a turn sends when it goes through: the deltas, or the operator's wording. */
  function Parts(turn: Turn): seq<string>
    requires turn.Valid()
  {
    if turn.spendAllowed then VisibleDeltas(turn.chunks, turn.failsAfter) else [turn.capMessage]
  }

  /** A person is offered when nothing was retrieved, or nothing was looked for. */
  function DoneEvent(turn: Turn): Payload {
    Done(turn.conversationId, turn.messageId, !turn.spendAllowed || turn.matches == [])
  }

  lemma {:induction false} GeneratedShape(turn: Turn)
    requires turn.Valid()
    ensures var g := Generate(turn);
            var shown := [Sources(Cited(turn))] + Tokens(Parts(turn));
            && (GoesThrough(turn) <==> g.raised.None?)
            && (g.raised.None? ==> g.events == shown + [DoneEvent(turn)])
            && (g.raised.Some? ==> g.events <= shown)
  {
    hide Trim, VisibleDeltas, BuildCitations, PySpace, Concat;
  }

  lemma {:induction false} AnnouncedShape(turn: Turn)
    requires turn.Valid()
    ensures Announced(Delivered(turn)) <==>
            GoesThrough(turn) && forall i :: 0 <= i < |Generate(turn).events| ==> !turn.gone(i)
    ensures Announced(Delivered(turn)) ==> GoesThrough(turn) && Persisted(turn)
    ensures Announced(Delivered(turn)) ==>
              Delivered(turn) == [Sources(Cited(turn))] + Tokens(Parts(turn)) + [DoneEvent(turn)]
  {
    hide Generate, GoesThrough, Parts, Cited;
    GeneratedShape(turn);
    var g := Generate(turn);
    if forall i :: 0 <= i < |g.events| ==> !turn.gone(i) {
      RanOut(turn);
      if g.raised.None? {
        assert Delivered(turn)[|g.events| - 1].Done?;
      }
    } else {
      StoppedAt(turn, Printed(turn.gone, |g.events|));
    }
  }

  /** `done` is announced exactly when everything goes right and the visitor is there for every
      event; then the turn has been written, and the wire carries one `sources`, the tokens and
      one `done`, in that order and nothing else. */
  lemma {:induction false} DoneMeansKept(turn: Turn, thread: Option<Thread>)
    requires turn.Valid()
    ensures Announced(Delivered(turn)) <==>
            GoesThrough(turn) && forall i :: 0 <= i < |Generate(turn).events| ==> !turn.gone(i)
    ensures Announced(Delivered(turn)) ==> GoesThrough(turn) && Persisted(turn)
    ensures Announced(Delivered(turn)) ==>
              Delivered(turn) ==
                [Sources(if turn.spendAllowed then BuildCitations(turn.matches) else [])] + Tokens(Parts(turn)) +
                [Done(turn.conversationId, turn.messageId, !turn.spendAllowed || turn.matches == [])]
  {
    assert Cited(turn) == if turn.spendAllowed then BuildCitations(turn.matches) else [];
    assert DoneEvent(turn) == Done(turn.conversationId, turn.messageId, !turn.spendAllowed || turn.matches == []);
    hide *;
    AnnouncedShape(turn);
  }

  /** The denormalised `message_count` is the number of messages. */
  predicate CountsAdd(thread: Option<Thread>) {
    thread.Some? ==> thread.value.messageCount == |thread.value.messages|
  }

  /** Nothing is written unless the turn goes through; and if it does, only a visitor leaving
      before the last event keeps it from being written. */
  lemma {:induction false} KeptWhen(turn: Turn, thread: Option<Thread>)
    requires turn.Valid()
    ensures Persisted(turn) <==>
            GoesThrough(turn) && forall i :: 0 <= i < |Parts(turn)| + 1 ==> !turn.gone(i)
    ensures Persisted(turn) ==>
            Messages(ThreadAfter(turn, thread)) == Messages(thread) +
              [Message(User, turn.question, []), Message(Assistant, Said(turn), Cited(turn))]
    ensures !Persisted(turn) ==> Messages(ThreadAfter(turn, thread)) == Messages(thread)
    ensures !Persisted(turn) && thread.Some? ==> ThreadAfter(turn, thread) == thread
    ensures !Persisted(turn) && thread.None? ==>
              ThreadAfter(turn, thread) ==
              if turn.spendAllowed && turn.setupFails.None? && turn.threadFails.None? && !turn.gone(0)
              then Some(Thread([], 0, None)) else None
    ensures CountsAdd(thread) ==> CountsAdd(ThreadAfter(turn, thread))
  {
    hide Generate, GoesThrough, Parts, Cited, Said;
    GeneratedShape(turn);
  }

  /** The first question written to a thread names it, and no later one renames it. */
  lemma TitleIsFirstQuestion(turn: Turn, thread: Option<Thread>)
    requires turn.Valid() && Persisted(turn)
    ensures ThreadAfter(turn, thread).Some?
    ensures var title := ThreadAfter(turn, thread).value.title;
            if thread.Some? && thread.value.title.Some? then title == thread.value.title
            else title.Some? && title.value <= turn.question && |title.value| == Min(300, |turn.question|)
  {
  }

  /** What a turn leaves with the visitor's memory. An aborted turn touches nothing and queues
      nothing; a turn past the cap is written and does neither. Otherwise exactly the recalled
      notes that had gone stale are stamped, and extraction is queued when the visitor can be
      found again. */
  lemma MemoryOfTurn(turn: Turn, stamps: map<nat, int>)
    requires turn.Valid()
    ensures Queued(turn) <==>
            && GoesThrough(turn) && (forall i :: 0 <= i < |Parts(turn)| + 1 ==> !turn.gone(i))
            && turn.spendAllowed && turn.memoryOn && turn.durable
    ensures Announced(Delivered(turn)) && turn.spendAllowed && turn.memoryOn && turn.durable ==> Queued(turn)
    ensures var after := StampsAfter(turn, stamps);
            && after.Keys == stamps.Keys
            && (forall n :: n in stamps ==> after[n] == stamps[n] || (after[n] == turn.now && stamps[n] < turn.now))
            && (forall n :: n in stamps ==>
                  (after[n] != stamps[n] <==>
                   && Persisted(turn) && turn.spendAllowed && n in turn.recalled
                   && stamps[n] < turn.now - Retention.TOUCH_STALENESS))
  {
    TouchMeans(stamps, Recalled(turn), turn.now);
    hide Persisted, Delivered, Announced, GoesThrough, TouchStamps;
    DoneMeansKept(turn, None);
    KeptWhen(turn, None);
  }

  lemma TouchMeans(stamps: map<nat, int>, used: set<nat>, now: int)
    ensures var after := TouchStamps(stamps, used, now);
            && after.Keys == stamps.Keys
            && forall n :: n in stamps ==>
                 && (after[n] == stamps[n] || (after[n] == now && stamps[n] < now))
                 && (after[n] != stamps[n] <==> n in used && stamps[n] < now - Retention.TOUCH_STALENESS)
  {
  }

  /** The contents of the token events, in order. */
  function TokenTexts(events: seq<Payload>): seq<string> {
    if events == [] then []
    else
      var last := events[|events| - 1];
      TokenTexts(events[..|events| - 1]) + if last.Token? then [last.content] else []
  }

  lemma {:induction false} ViewOfEvents(events: seq<Payload>)
    ensures var view := ShowAll(CallsOf(events)); var texts := TokenTexts(events);
            view.answer == if texts == [] then None else Some(Concat(texts))
  {
    if events == [] {
    } else {
      hide Concat;
      var front, last := events[..|events| - 1], events[|events| - 1];
      ViewOfEvents(front);
      ShowOneMore(events);
      ConcatOfNone();
      if last.Token? {
        ConcatSnoc(TokenTexts(front), last.content);
      } else {
        assert TokenTexts(events) == TokenTexts(front);
      }
    }
  }

  lemma ConcatOfNone()
    ensures Concat([]) == ""
  {
  }

  lemma ShowOneMore(events: seq<Payload>)
    requires events != []
    ensures var before := ShowAll(CallsOf(events[..|events| - 1]));
            var last := events[|events| - 1];
            ShowAll(CallsOf(events)).answer ==
            if last.Token? then
              Some((if before.answer.Some? then before.answer.value else "") + last.content)
            else before.answer
  {
    assert CallsOf(events)[..|events| - 1] == CallsOf(events[..|events| - 1]);
  }

  lemma {:induction false} TokenTextsOfTokens(head: Payload, parts: seq<string>)
    requires !head.Token?
    ensures TokenTexts([head] + Tokens(parts)) == parts
  {
    var events := [head] + Tokens(parts);
    if parts == [] {
      assert events[..0] == [] && events == [head];
    } else {
      var n := |parts| - 1;
      assert events[..|events| - 1] == [head] + Tokens(parts[..n]);
      TokenTextsOfTokens(head, parts[..n]);
      assert parts[..n] + [parts[n]] == parts;
    }
  }

  /** The events before the closing `done` or `error`. */
  function Front(events: seq<Payload>): seq<Payload> {
    if events != [] && (events[|events| - 1].Done? || events[|events| - 1].Error?)
    then events[..|events| - 1] else events
  }

  lemma {:induction false} DeliveredFront(turn: Turn)
    requires turn.Valid()
    ensures Front(Delivered(turn)) <= [Sources(Cited(turn))] + Tokens(Parts(turn))
    ensures Announced(Delivered(turn)) ==>
              Front(Delivered(turn)) == [Sources(Cited(turn))] + Tokens(Parts(turn))
  {
    hide Generate, GoesThrough, Parts, Cited;
    GeneratedShape(turn);
    DoneMeansKept(turn, None);
  }

  /** Whatever arrives of a turn, the tokens in it are the first of the deltas. */
  lemma TokensArePrefix(turn: Turn)
    requires turn.Valid()
    ensures TokenTexts(Delivered(turn)) <= Parts(turn)
    ensures Announced(Delivered(turn)) ==> TokenTexts(Delivered(turn)) == Parts(turn)
  {
    hide Delivered, Announced, Parts, Cited;
    DeliveredFront(turn);
    var events, parts := Delivered(turn), Parts(turn);
    var front := Front(events);
    assert TokenTexts(events) == TokenTexts(front) by {
      assert front != events ==> TokenTexts(events) == TokenTexts(front) + [];
    }
    if front != [] {
      var k := |front| - 1;
      assert front == [Sources(Cited(turn))] + Tokens(parts[..k]);
      TokenTextsOfTokens(Sources(Cited(turn)), parts[..k]);
      assert k == |parts| ==> parts[..k] == parts;
    }
  }

  // ---------------------------------------------------------------------------------------
  // Sources, the offer of a person, and errors

  /** The stages of a turn in order, each with what went wrong in it, if anything. */
  function Stages(turn: Turn): seq<Option<Failure>>
    requires turn.Valid()
  {
    if !turn.spendAllowed then [turn.persistFails]
    else [turn.setupFails, turn.threadFails, turn.historyFails,
          if turn.failsAfter.Some? then Some(Domain(UPSTREAM, "Chat completion failed")) else None,
          if Answer(turn) == "" then Some(EMPTY_ANSWER) else None, turn.persistFails]
  }

  /** The first stage that failed is the one `k` counts. */
  ghost predicate FailsFirst(turn: Turn, k: nat)
    requires turn.Valid()
  {
    && k < |Stages(turn)| && Stages(turn)[k].Some?
    && forall i :: 0 <= i < k ==> Stages(turn)[i].None?
  }

  /** What the widget makes of a failure: a domain error speaks for itself unless it says nothing,
      and anything else is not repeated to a visitor. */
  function Wording(f: Failure): string {
    match f
    case Unexpected => "The assistant is unavailable right now."
    case Domain(_, message) => if message == "" then "Something went wrong." else message
  }

  lemma {:induction false} RaisedIsFirst(turn: Turn, k: nat)
    requires turn.Valid()
    ensures Generate(turn).raised.None? <==> forall i :: 0 <= i < |Stages(turn)| ==> Stages(turn)[i].None?
    ensures FailsFirst(turn, k) ==> Generate(turn).raised == Stages(turn)[k]
  {
    hide Trim, VisibleDeltas, BuildCitations, PySpace, Concat, Tokens, Answer;
    if turn.spendAllowed {
      assert Stages(turn)[0] == turn.setupFails && Stages(turn)[1] == turn.threadFails;
      assert Stages(turn)[2] == turn.historyFails && Stages(turn)[3].Some? == turn.failsAfter.Some?;
      assert Stages(turn)[4].Some? == (Answer(turn) == "") && Stages(turn)[5] == turn.persistFails;
    } else {
      assert Stages(turn)[0] == turn.persistFails;
    }
  }

  function ShownText(message: string): string {
    if message == "" then "Something went wrong." else message
  }

  function ErrorTexts(events: seq<Payload>): seq<string> {
    if events == [] then []
    else
      var last := events[|events| - 1];
      ErrorTexts(events[..|events| - 1]) +
      if last.Error? then [ShownText(last.message)] else []
  }

  /** The rest of the view: the last sources, a person once one was offered, every error. */
  lemma {:induction false} RestOfView(events: seq<Payload>)
    ensures var view := ShowAll(CallsOf(events));
            && view.errors == ErrorTexts(events)
            && (view.escalate <==> exists i :: 0 <= i < |events| && events[i].Done? && events[i].canEscalate)
            && (view.sources.None? <==> forall i :: 0 <= i < |events| ==> !events[i].Sources?)
            && (events != [] && events[0].Sources? && (forall i :: 1 <= i < |events| ==> !events[i].Sources?) ==>
                  view.sources == Some(events[0].citations))
  {
    if events != [] {
      var n := |events| - 1;
      RestOfView(events[..n]);
      ShowsLast(events);
      var before, after, last := ShowAll(CallsOf(events[..n])), ShowAll(CallsOf(events)), events[n];
      hide Show, ShowAll, EventName, CallsOf;
      OfferedWithin(events, before.escalate);
      SourcedWithin(events, before.sources, after.sources);
    }
  }

  lemma OfferedWithin(events: seq<Payload>, before: bool)
    requires events != []
    requires var front := events[..|events| - 1];
             before <==> exists i :: 0 <= i < |front| && front[i].Done? && front[i].canEscalate
    ensures var last := events[|events| - 1];
            before || (last.Done? && last.canEscalate) <==>
            exists i :: 0 <= i < |events| && events[i].Done? && events[i].canEscalate
  {
    var n := |events| - 1;
    if before {
      var i :| 0 <= i < n && events[..n][i].Done? && events[..n][i].canEscalate;
      assert events[i].Done? && events[i].canEscalate;
    }
    if i :| 0 <= i < |events| && events[i].Done? && events[i].canEscalate {
      assert i < n ==> events[..n][i] == events[i];
    }
  }

  lemma SourcedWithin(events: seq<Payload>, before: Option<seq<Citation>>, after: Option<seq<Citation>>)
    requires events != []
    requires var last := events[|events| - 1];
             after == if last.Sources? then Some(last.citations) else before
    requires var front := events[..|events| - 1];
             && (before.None? <==> forall i :: 0 <= i < |front| ==> !front[i].Sources?)
             && (front != [] && front[0].Sources? && (forall i :: 1 <= i < |front| ==> !front[i].Sources?) ==>
                   before == Some(front[0].citations))
    ensures after.None? <==> forall i :: 0 <= i < |events| ==> !events[i].Sources?
    ensures events[0].Sources? && (forall i :: 1 <= i < |events| ==> !events[i].Sources?) ==>
              after == Some(events[0].citations)
  {
    var n := |events| - 1;
    assert forall i :: 0 <= i < n ==> events[i] == events[..n][i];
  }

  lemma ShowsLast(events: seq<Payload>)
    requires events != []
    ensures var last := events[|events| - 1];
            var view, next := ShowAll(CallsOf(events[..|events| - 1])), ShowAll(CallsOf(events));
            && next.sources == (if last.Sources? then Some(last.citations) else view.sources)
            && next.escalate == (view.escalate || (last.Done? && last.canEscalate))
            && next.errors == view.errors +
                 if last.Error? then [ShownText(last.message)] else []
  {
    assert CallsOf(events)[..|events| - 1] == CallsOf(events[..|events| - 1]);
  }

  lemma {:induction false} NoErrorTexts(events: seq<Payload>, n: nat)
    requires n <= |events| && forall i :: 0 <= i < n ==> !events[i].Error?
    ensures ErrorTexts(events[..n]) == []
  {
    if n > 0 {
      assert events[..n][..n - 1] == events[..n - 1];
      NoErrorTexts(events, n - 1);
    }
  }

  // ---------------------------------------------------------------------------------------
  // From the model to the visitor's screen

  /** What the widget ends up showing for a turn, over any network. */
  function Seen(net: seq<string>, parse: string -> Option<Payload>): View {
    ShowAll(HandleAll(Frames(Concat(net)).frames, parse))
  }

  function OnTheWire(turn: Turn, dump: Payload -> string): string
    requires turn.Valid()
  {
    Wire(Print(CallsOf(Delivered(turn)), dump))
  }

  lemma NamesPrintable(events: seq<Payload>)
    ensures forall i :: 0 <= i < |events| ==> Printable(CallsOf(events)[i].event)
  {
    forall i | 0 <= i < |events|
      ensures Printable(EventName(events[i]))
    {
      var name := EventName(events[i]);
      assert name in {"sources", "token", "done", "error"};
    }
  }

  /** The widget sees every event of the turn, in order, whatever the network did to it. */
  lemma {:induction false} SeenIsDelivered(turn: Turn, net: seq<string>, dump: Payload -> string,
                        parse: string -> Option<Payload>)
    requires turn.Valid() && Lawful(dump, parse) && Concat(net) == OnTheWire(turn, dump)
    ensures HandleAll(Frames(Concat(net)).frames, parse) == CallsOf(Delivered(turn))
    ensures var texts := TokenTexts(Delivered(turn));
            Seen(net, parse).answer == if texts == [] then None else Some(Concat(texts))
  {
    hide Delivered, EventName, Printable, Frames, HandleAll, ShowAll, TokenTexts;
    NamesPrintable(Delivered(turn));
    WireRoundTrip(CallsOf(Delivered(turn)), net, dump, parse);
    ViewOfEvents(Delivered(turn));
  }

  /** The end-to-end theorem. However the model cut its stream and the network cut the wire, a
      turn the widget sees the end of showed the visitor exactly the model's text without its
      reasoning, and the transcript holds that text with the white space around it trimmed. */
  lemma {:induction false} VisitorSeesWhatIsKept(turn: Turn, thread: Option<Thread>, net: seq<string>,
                              dump: Payload -> string, parse: string -> Option<Payload>)
    requires turn.Valid() && Lawful(dump, parse) && Concat(net) == OnTheWire(turn, dump)
    requires Announced(Delivered(turn))
    ensures Frames(Concat(net)).rest == ""
    ensures var text := if turn.spendAllowed then Strip(Concat(turn.chunks), false)
                        else turn.capMessage;
            var kept := if turn.spendAllowed then Trim(text, PySpace) else text;
            && Seen(net, parse).answer == Some(text)
            && (turn.spendAllowed ==> kept != "")
            && Messages(ThreadAfter(turn, thread)) == Messages(thread) +
                 [Message(User, turn.question, []),
                  Message(Assistant, kept, if turn.spendAllowed then BuildCitations(turn.matches) else [])]
  {
    hide Delivered, Generate, Announced, Trim, PySpace, Strip, VisibleDeltas, Frames, HandleAll, BuildCitations,
         ShowAll, TokenTexts, ThreadAfter, Printable, EventName, Wire;
    NamesPrintable(Delivered(turn));
    WireRoundTrip(CallsOf(Delivered(turn)), net, dump, parse);
    SeenIsDelivered(turn, net, dump, parse);
    TokensArePrefix(turn);
    DoneMeansKept(turn, thread);
    KeptWhen(turn, thread);
    if turn.spendAllowed {
      VisibleDeltasMeaning(turn.chunks, turn.failsAfter);
      NothingToTrim();
    } else {
      assert Concat([turn.capMessage]) == turn.capMessage by { assert [turn.capMessage][1..] == []; }
    }
  }

  lemma DeliveredShape(turn: Turn)
    requires turn.Valid()
    ensures var events, g := Delivered(turn), Generate(turn);
            var stays := forall i :: 0 <= i < |g.events| ==> !turn.gone(i);
            && (events != [] && !events[0].Error? ==> events[0] == Sources(Cited(turn)))
            && (forall i :: 1 <= i < |events| ==> !events[i].Sources?)
            && (Announced(events) ==> events[|events| - 1] == DoneEvent(turn))
            && (forall i :: 0 <= i < |events| - 1 ==> !events[i].Done? && !events[i].Error?)
            && (events != [] && events[|events| - 1].Done? ==> events[|events| - 1] == DoneEvent(turn))
            && (if stays && g.raised.Some? then
                  events != [] && events[|events| - 1] == ErrorEvent(g.raised.value)
                else forall i :: 0 <= i < |events| ==> !events[i].Error?)
  {
    hide Parts, Cited, GoesThrough, Generate;
    GeneratedShape(turn);
    DoneMeansKept(turn, None);
    if forall i :: 0 <= i < |Generate(turn).events| ==> !turn.gone(i) {
      RanOut(turn);
    } else {
      StoppedAt(turn, Printed(turn.gone, |Generate(turn).events|));
    }
  }

  /** The rest of what a visitor sees of a turn over any network: the sources unless the turn
      failed or was left before them; a person, exactly when the turn is announced and nothing
      was retrieved or looked for; and one error, that of the first stage that failed, exactly
      when one did and the visitor was still there. */
  lemma {:induction false} VisitorSeesOutcome(turn: Turn, net: seq<string>, dump: Payload -> string,
                                              parse: string -> Option<Payload>, k: nat)
    requires turn.Valid() && Lawful(dump, parse) && Concat(net) == OnTheWire(turn, dump)
    ensures var view := Seen(net, parse);
            var stays := forall i :: 0 <= i < |Generate(turn).events| ==> !turn.gone(i);
            && view.sources == (if (turn.spendAllowed && turn.setupFails.Some?) || turn.gone(0) then None
                                else Some(if turn.spendAllowed then BuildCitations(turn.matches) else []))
            && (view.escalate <==> Announced(Delivered(turn)) && (!turn.spendAllowed || turn.matches == []))
            && (FailsFirst(turn, k) && stays ==> view.errors == [Wording(Stages(turn)[k].value)])
            && (GoesThrough(turn) || !stays ==> view.errors == [])
  {
    assert Cited(turn) == if turn.spendAllowed then BuildCitations(turn.matches) else [];
    hide *;
    SeenIsDelivered(turn, net, dump, parse);
    SeenIsShown(net, parse, Delivered(turn));
    RestOfView(Delivered(turn));
    SourcesOfTurn(turn);
    OfferOfTurn(turn);
    ErrorsOfTurn(turn, k);
  }

  lemma SeenIsShown(net: seq<string>, parse: string -> Option<Payload>, events: seq<Payload>)
    requires HandleAll(Frames(Concat(net)).frames, parse) == CallsOf(events)
    ensures Seen(net, parse) == ShowAll(CallsOf(events))
  {
    hide HandleAll, Frames, ShowAll, CallsOf;
  }

  lemma SourcesOfTurn(turn: Turn)
    requires turn.Valid()
    ensures var events := Delivered(turn);
            if (turn.spendAllowed && turn.setupFails.Some?) || turn.gone(0)
            then forall i :: 0 <= i < |events| ==> !events[i].Sources?
            else events != [] && events[0] == Sources(Cited(turn)) &&
                 forall i :: 1 <= i < |events| ==> !events[i].Sources?
  {
    DeliveredShape(turn);
    hide VisibleDeltas, BuildCitations, Answer, Cited, Concat;
  }

  lemma OfferOfTurn(turn: Turn)
    requires turn.Valid()
    ensures var events := Delivered(turn);
            (exists i :: 0 <= i < |events| && events[i].Done? && events[i].canEscalate) <==>
            Announced(events) && (!turn.spendAllowed || turn.matches == [])
  {
    DeliveredShape(turn);
    hide Delivered, Generate;
    var events := Delivered(turn);
    if Announced(events) {
      assert events[|events| - 1] == DoneEvent(turn);
    }
  }

  lemma ErrorsOfTurn(turn: Turn, k: nat)
    requires turn.Valid()
    ensures var events := Delivered(turn);
            var stays := forall i :: 0 <= i < |Generate(turn).events| ==> !turn.gone(i);
            && (FailsFirst(turn, k) && stays ==> ErrorTexts(events) == [Wording(Stages(turn)[k].value)])
            && (GoesThrough(turn) || !stays ==> ErrorTexts(events) == [])
  {
    ErrorsOfDelivered(turn);
    RaisedIsFirst(turn, k);
    GeneratedShape(turn);
    assert FailsFirst(turn, k) ==> k < |Stages(turn)| && Stages(turn)[k].Some?;
    hide *;
  }

  lemma ErrorsOfDelivered(turn: Turn)
    requires turn.Valid()
    ensures var events, g := Delivered(turn), Generate(turn);
            ErrorTexts(events) ==
            if g.raised.Some? && forall i :: 0 <= i < |g.events| ==> !turn.gone(i)
            then [Wording(g.raised.value)] else []
  {
    DeliveredShape(turn);
    hide *;
    var events, g := Delivered(turn), Generate(turn);
    if (forall i :: 0 <= i < |g.events| ==> !turn.gone(i)) && g.raised.Some? {
      OneError(events, g.raised.value);
    } else {
      NoErrorTexts(events, |events|);
      assert events[..|events|] == events;
    }
  }

  lemma OneError(events: seq<Payload>, f: Failure)
    requires events != [] && events[|events| - 1] == ErrorEvent(f)
    requires forall i :: 0 <= i < |events| - 1 ==> !events[i].Error?
    ensures ErrorTexts(events) == [Wording(f)]
  {
    hide *;
    NoErrorTexts(events, |events| - 1);
    WordingOf(f);
    OnlyLast(events, Wording(f));
  }

  lemma WordingOf(f: Failure)
    ensures ErrorEvent(f).Error? && ShownText(ErrorEvent(f).message) == Wording(f)
  {
  }

  lemma OnlyLast(events: seq<Payload>, text: string)
    requires events != [] && events[|events| - 1].Error? && ShownText(events[|events| - 1].message) == text
    requires ErrorTexts(events[..|events| - 1]) == []
    ensures ErrorTexts(events) == [text]
  {
    hide ShownText;
  }

  lemma NothingToTrim()
    ensures Trim("", PySpace) == "" && Concat([]) == ""
  {
  }

  lemma {:induction false} TokenTextsGrow(events: seq<Payload>, k: nat)
    requires k <= |events|
    ensures TokenTexts(events[..k]) <= TokenTexts(events)
  {
    if k == |events| {
      assert events[..k] == events;
    } else {
      var front := events[..|events| - 1];
      assert events[..k] == front[..k];
      TokenTextsGrow(front, k);
    }
  }

  lemma CallsOfLength(events: seq<Payload>)
    ensures |CallsOf(events)| == |events|
  {
  }

  lemma CallsOfFront(events: seq<Payload>, k: nat)
    requires k <= |events|
    ensures CallsOf(events)[..k] == CallsOf(events[..k])
  {
  }

  /** Wherever the connection is cut, inside a frame or between two, the widget has seen the first
      of the events, and nothing else. */
  lemma {:induction false} SeenIsPrefix(turn: Turn, net: seq<string>, dump: Payload -> string,
                                        parse: string -> Option<Payload>)
    requires turn.Valid() && Lawful(dump, parse) && Concat(net) <= OnTheWire(turn, dump)
    ensures var calls := HandleAll(Frames(Concat(net)).frames, parse);
            && calls <= CallsOf(Delivered(turn))
            && var texts := TokenTexts(Delivered(turn)[..|calls|]);
               && texts <= TokenTexts(Delivered(turn))
               && Seen(net, parse).answer == if texts == [] then None else Some(Concat(texts))
  {
    hide Delivered, EventName, Printable, Frames, HandleAll, ShowAll, TokenTexts, CallsOf, Wire;
    var events, wire, got := Delivered(turn), OnTheWire(turn, dump), Concat(net);
    WholeInOnePiece(wire);
    SeenIsDelivered(turn, [wire], dump, parse);
    assert got + wire[|got|..] == wire;
    CallsGrow(got, wire[|got|..], parse);
    var calls := HandleAll(Frames(got).frames, parse);
    assert |calls| <= |CallsOf(events)| && calls == CallsOf(events)[..|calls|];
    CallsOfLength(events);
    CallsOfFront(events, |calls|);
    ViewOfEvents(events[..|calls|]);
    TokenTextsGrow(events, |calls|);
  }

  lemma WholeInOnePiece(text: string)
    ensures Concat([text]) == text
  {
    assert [text][1..] == [];
  }

  /** A turn that stops anywhere, at the model, at the visitor or on the network, never overstates:
      what the visitor saw is the beginning of what the whole stream would have shown. */
  lemma {:induction false} NeverOverstates(turn: Turn, net: seq<string>, dump: Payload -> string,
                                           parse: string -> Option<Payload>)
    requires turn.Valid() && Lawful(dump, parse) && Concat(net) <= OnTheWire(turn, dump)
    requires turn.spendAllowed
    ensures var answer := Seen(net, parse).answer;
            answer.Some? ==> answer.value <= Strip(Concat(turn.chunks), false)
  {
    hide Delivered, Strip, FeedAll, FedDeltas, Frames, HandleAll, ShowAll, TokenTexts, Seen, Wire, CallsOf;
    SeenIsPrefix(turn, net, dump, parse);
    TokensArePrefix(turn);
    var deltas := VisibleDeltas(turn.chunks, turn.failsAfter);
    var calls := HandleAll(Frames(Concat(net)).frames, parse);
    var texts := TokenTexts(Delivered(turn)[..|calls|]);
    assert deltas == texts + deltas[|texts|..];
    ConcatAppend(texts, deltas[|texts|..]);
    DeltasNeverOverstate(turn.chunks, turn.failsAfter);
  }
}
