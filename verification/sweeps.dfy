/** The two scheduled sweeps, batch by batch: `_purge_chatbot` in `app/services/conversation.py`
    and in `app/services/nuvrag_mem/erasure.py`. */
module Sweeps {
  import opened Arithmetic
  import opened Text
  import opened Retention

  /** `chosen` could be what ORDER BY stamp LIMIT n returns from `pool`. Rows with equal stamps
      come back in no promised order, so it need not be the only such set. */
  ghost predicate Oldest(chosen: set<nat>, pool: set<nat>, stamp: map<nat, int>, n: nat) {
    && chosen <= pool && pool <= stamp.Keys
    && |chosen| == Min(n, |pool|)
    && forall a, b :: a in chosen && b in pool - chosen ==> stamp[a] <= stamp[b]
  }

  /** The oldest of what is left, after the oldest of everything: the oldest of everything. */
  lemma OldestThenOldest(a: set<nat>, b: set<nat>, pool: set<nat>, stamp: map<nat, int>, n: nat, m: nat)
    requires Oldest(a, pool, stamp, n) && Oldest(b, pool - a, stamp, m) && |a| == n
    ensures Oldest(a + b, pool, stamp, n + m) && |a + b| == |a| + |b|
    ensures |pool - a| == |pool| - |a|
  {
    assert |pool - a| == |pool| - |a| by { assert pool == a + (pool - a); }
    assert (pool - a) - b == pool - (a + b);
  }

  /** With no two stamps alike there is only one answer. */
  lemma OldestIsUnique(a: set<nat>, b: set<nat>, pool: set<nat>, stamp: map<nat, int>, n: nat)
    requires Oldest(a, pool, stamp, n) && Oldest(b, pool, stamp, n)
    requires forall x, y :: x in pool && y in pool && stamp[x] == stamp[y] ==> x == y
    ensures a == b
  {
    forall x, y | x in a - b && y in b - a
      ensures x == y
    {
      EachOldest(a, b, pool, stamp, n, x, y);
    }
    if a <= b {
      SubsetSameSize(a, b);
    } else if b <= a {
      SubsetSameSize(b, a);
    } else {
      assert false;
    }
  }

  lemma EachOldest(a: set<nat>, b: set<nat>, pool: set<nat>, stamp: map<nat, int>, n: nat, x: nat, y: nat)
    requires Oldest(a, pool, stamp, n) && Oldest(b, pool, stamp, n) && x in a - b && y in b - a
    ensures x in pool && y in pool && stamp[x] == stamp[y]
  {
    assert y in pool - a && x in pool - b;
  }

  lemma SubsetSameSize(a: set<nat>, b: set<nat>)
    requires |a| == |b| && a <= b
    ensures a == b
  {
    assert b == a + (b - a);
  }

  function Stamps(db: Db): map<nat, int> {
    map c | c in db.conversations :: db.conversations[c].updatedAt
  }

  function NoteStamps(db: Db): map<nat, int> {
    map n | n in db.notes :: db.notes[n].lastReferenced
  }

  lemma RemoveInBatches(db: Db, a: set<nat>, b: set<nat>, chatbot: nat, cutoff: int)
    requires Good(db) && a <= ExpiredConversations(db, chatbot, cutoff)
    ensures RemoveConversations(RemoveConversations(db, a), b) == RemoveConversations(db, a + b)
    ensures ExpiredConversations(RemoveConversations(db, a), chatbot, cutoff)
         == ExpiredConversations(db, chatbot, cutoff) - a
  {
    hide CountsGood, StampsGood;
    BatchesAdd(db, a, b);
    var after := RemoveConversations(db, a);
    forall c | c in after.conversations
      ensures Pinned(after, c) <==> Pinned(db, c)
    {
      assert forall t :: t in db.tickets && db.tickets[t].conversation == c ==>
        t in after.tickets && after.tickets[t] == db.tickets[t];
    }
  }

  lemma BatchesAdd(db: Db, a: set<nat>, b: set<nat>)
    ensures RemoveConversations(RemoveConversations(db, a), b) == RemoveConversations(db, a + b)
  {
    var one, both := RemoveConversations(RemoveConversations(db, a), b), RemoveConversations(db, a + b);
    assert one.conversations == both.conversations;
    assert one.bySubject == both.bySubject;
    assert one.messages == both.messages;
    assert one.tickets == both.tickets;
    assert one.notes == both.notes;
  }

  lemma RemoveNotesInBatches(db: Db, a: set<nat>, b: set<nat>, chatbot: nat, cutoff: int)
    ensures RemoveNotes(RemoveNotes(db, a), b) == RemoveNotes(db, a + b)
    ensures ExpiredNotes(RemoveNotes(db, a), chatbot, cutoff) == ExpiredNotes(db, chatbot, cutoff) - a
  {
    assert db.notes - a - b == db.notes - (a + b);
    var after := RemoveNotes(db, a);
    forall s
      ensures SubjectPinned(after, s) <==> SubjectPinned(db, s)
    {
    }
  }

  /** What a purge of at most `n` rows out of `expired` has done when it is over. */
  ghost predicate Purged(gone: set<nat>, expired: set<nat>, stamp: map<nat, int>, n: nat, complete: bool) {
    && Oldest(gone, expired, stamp, n)
    && |gone| == Min(n, |expired|)
    && (complete <==> |expired| < n)
  }

  /** So far every batch was a full one. */
  ghost predicate InFull(gone: set<nat>, expired: set<nat>, stamp: map<nat, int>, n: nat) {
    Oldest(gone, expired, stamp, n) && |gone| == n
  }

  lemma StartPurge(db: Db, chatbot: nat, cutoff: int)
    ensures RemoveConversations(db, {}) == db && RemoveNotes(db, {}) == db
    ensures InFull({}, ExpiredConversations(db, chatbot, cutoff), Stamps(db), 0)
    ensures InFull({}, ExpiredNotes(db, chatbot, cutoff), NoteStamps(db), 0)
  {
    var same := RemoveConversations(db, {});
    assert same.conversations == db.conversations && same.bySubject == db.bySubject;
    assert same.messages == db.messages && same.tickets == db.tickets && same.notes == db.notes;
  }

  /** One more batch: either it is short and everything expired is gone, or a full batch more. */
  lemma NextRound(gone: set<nat>, batch: set<nat>, expired: set<nat>, stamp: map<nat, int>,
                  size: nat, done: nat, quota: nat)
    requires InFull(gone, expired, stamp, done) && Oldest(batch, expired - gone, stamp, size)
    requires done + size <= quota
    ensures |gone + batch| == |gone| + |batch| && |batch| <= size
    ensures |batch| == size ==> InFull(gone + batch, expired, stamp, done + size)
    ensures |batch| < size ==> Purged(gone + batch, expired, stamp, quota, true)
  {
    OldestThenOldest(gone, batch, expired, stamp, done, size);
  }

  lemma RoundsFit(size: nat, round: nat, rounds: nat)
    requires round < rounds
    ensures size * round + size == size * (round + 1) <= size * rounds
  {
    Monotone(size, round + 1, rounds);
  }

  lemma Monotone(a: nat, b: nat, c: nat)
    requires b <= c
    ensures a * b <= a * c
  {
  }

  lemma InFullIsPart(gone: set<nat>, expired: set<nat>, stamp: map<nat, int>, n: nat)
    requires InFull(gone, expired, stamp, n)
    ensures gone <= expired
  {
  }

  lemma LastRound(gone: set<nat>, expired: set<nat>, stamp: map<nat, int>, n: nat)
    requires InFull(gone, expired, stamp, n)
    ensures Purged(gone, expired, stamp, n, false)
  {
    assert expired == gone + (expired - gone);
  }

  /** What a later batch finds, in terms of the database at the start. */
  lemma {:induction false} ConversationRound(db: Db, gone: set<nat>, batch: set<nat>,
                                             chatbot: nat, cutoff: int, size: nat)
    requires Good(db) && gone <= ExpiredConversations(db, chatbot, cutoff)
    requires Oldest(batch, ExpiredConversations(RemoveConversations(db, gone), chatbot, cutoff),
                    Stamps(RemoveConversations(db, gone)), size)
    ensures RemoveConversations(RemoveConversations(db, gone), batch) == RemoveConversations(db, gone + batch)
    ensures Oldest(batch, ExpiredConversations(db, chatbot, cutoff) - gone, Stamps(db), size)
  {
    RemoveInBatches(db, gone, batch, chatbot, cutoff);
    StampsStay(db, gone, chatbot, cutoff);
    hide Good, RemoveConversations, ExpiredConversations, Stamps;
  }

  /** The same for notes. */
  lemma {:induction false} NoteRound(db: Db, gone: set<nat>, batch: set<nat>, chatbot: nat, cutoff: int, size: nat)
    requires Oldest(batch, ExpiredNotes(RemoveNotes(db, gone), chatbot, cutoff),
                    NoteStamps(RemoveNotes(db, gone)), size)
    ensures RemoveNotes(RemoveNotes(db, gone), batch) == RemoveNotes(db, gone + batch)
    ensures Oldest(batch, ExpiredNotes(db, chatbot, cutoff) - gone, NoteStamps(db), size)
  {
    RemoveNotesInBatches(db, gone, batch, chatbot, cutoff);
    StampsStay(db, gone, chatbot, cutoff);
    hide RemoveNotes, ExpiredNotes, NoteStamps;
  }

  lemma StampsStay(db: Db, gone: set<nat>, chatbot: nat, cutoff: int)
    ensures forall x :: x in ExpiredConversations(db, chatbot, cutoff) - gone ==>
              x in Stamps(RemoveConversations(db, gone)) && x in Stamps(db) &&
              Stamps(RemoveConversations(db, gone))[x] == Stamps(db)[x]
    ensures forall x :: x in ExpiredNotes(db, chatbot, cutoff) - gone ==>
              x in NoteStamps(RemoveNotes(db, gone)) && x in NoteStamps(db) &&
              NoteStamps(RemoveNotes(db, gone))[x] == NoteStamps(db)[x]
  {
  }

  /** The query's pool is stamped. */
  lemma PoolsAreStamped(db: Db, chatbot: nat, cutoff: int)
    ensures ExpiredConversations(db, chatbot, cutoff) <= Stamps(db).Keys
    ensures ExpiredNotes(db, chatbot, cutoff) <= NoteStamps(db).Keys
  {
  }

  /** `chosen` was taken from `pool` oldest first, and `rest` was left. */
  ghost predicate Taking(chosen: set<nat>, rest: set<nat>, pool: set<nat>, stamp: map<nat, int>) {
    && chosen + rest == pool && chosen !! rest && |chosen| + |rest| == |pool|
    && pool <= stamp.Keys
    && forall a, b :: a in chosen && b in rest ==> stamp[a] <= stamp[b]
  }

  lemma NothingTaken(pool: set<nat>, stamp: map<nat, int>)
    requires pool <= stamp.Keys
    ensures Taking({}, pool, pool, stamp)
  {
  }

  lemma TakeOne(chosen: set<nat>, rest: set<nat>, pool: set<nat>, stamp: map<nat, int>, next: nat)
    requires Taking(chosen, rest, pool, stamp) && next in rest
    requires forall b :: b in rest ==> stamp[next] <= stamp[b]
    ensures Taking(chosen + {next}, rest - {next}, pool, stamp)
    ensures |chosen + {next}| == |chosen| + 1 && |rest - {next}| == |rest| - 1
  {
  }

  lemma Taken(chosen: set<nat>, rest: set<nat>, pool: set<nat>, stamp: map<nat, int>, limit: nat)
    requires Taking(chosen, rest, pool, stamp) && (|chosen| == limit || (|chosen| < limit && rest == {}))
    ensures Oldest(chosen, pool, stamp, limit)
  {
    assert pool - chosen == rest;
  }

  /** ORDER BY stamp LIMIT n: the next row is always one of the oldest left. */
  method OldestFirst(pool: set<nat>, stamp: map<nat, int>, limit: nat) returns (ids: set<nat>)
    requires pool <= stamp.Keys
    ensures Oldest(ids, pool, stamp, limit)
  {
    hide Oldest, Taking;
    var rest := pool;
    ids := {};
    NothingTaken(pool, stamp);
    while |ids| < limit && rest != {}
      invariant Taking(ids, rest, pool, stamp) && rest <= pool && |ids| <= limit
      decreases |rest|
    {
      var next := OneOldest(rest, stamp);
      TakeOne(ids, rest, pool, stamp, next);
      ids := ids + {next};
      rest := rest - {next};
    }
    Taken(ids, rest, pool, stamp, limit);
  }

  method OneOldest(rest: set<nat>, stamp: map<nat, int>) returns (least: nat)
    requires rest != {} && rest <= stamp.Keys
    ensures least in rest && forall b :: b in rest ==> stamp[least] <= stamp[b]
  {
    least :| least in rest;
    var unseen := rest - {least};
    while unseen != {}
      invariant unseen <= rest && least in rest
      invariant forall b :: b in rest - unseen ==> stamp[least] <= stamp[b]
      decreases unseen
    {
      var b :| b in unseen;
      unseen := unseen - {b};
      if stamp[b] < stamp[least] {
        least := b;
      }
    }
  }

  // ---------------------------------------------------------------------------------------
  // What a purge means for the rows

  predicate HeldOpen(db: Db, c: nat) {
    exists t | t in db.tickets ::
      db.tickets[t].conversation == c && (db.tickets[t].status == Open || db.tickets[t].status == Pending)
  }

  /** Nothing of conversation `c` has changed. */
  ghost predicate Kept(before: Db, after: Db, c: nat) {
    && c in before.conversations && c in after.conversations && after.conversations[c] == before.conversations[c]
    && (forall m :: m in before.messages && before.messages[m] == c ==> m in after.messages && after.messages[m] == c)
    && (forall t :: t in before.tickets && before.tickets[t].conversation == c ==>
          t in after.tickets && after.tickets[t] == before.tickets[t])
  }

  /** A conversation the retention rule lets go of. */
  predicate Idle(db: Db, c: nat, chatbot: nat, cutoff: int) {
    && c in db.conversations && db.conversations[c].subject.chatbot == chatbot
    && db.conversations[c].updatedAt < cutoff && !HeldOpen(db, c)
  }

  /** Only idle conversations of the chatbot are gone, each with its messages, and the rest is
      as it was; a note that came from one of them forgets where it came from. */
  ghost predicate OnlyIdleGone(before: Db, after: Db, chatbot: nat, cutoff: int) {
    && after.conversations.Keys <= before.conversations.Keys
    && (forall c :: c in before.conversations && !Idle(before, c, chatbot, cutoff) ==> c in after.conversations)
    && (forall c :: c in after.conversations ==> Kept(before, after, c))
    && (forall m :: m in after.messages ==> after.messages[m] in after.conversations)
    && after.notes.Keys == before.notes.Keys
    && (forall n :: n in before.notes ==>
          after.notes[n] == if before.notes[n].source.Some? && before.notes[n].source.value !in after.conversations
                            then before.notes[n].(source := None) else before.notes[n])
  }

  /** The idle went oldest first: all of them, or as many as the quota allows. */
  ghost predicate OldestIdleGone(before: Db, after: Db, chatbot: nat, cutoff: int, quota: nat,
                                 deleted: nat, complete: bool)
  {
    && (complete ==> forall c :: !Idle(after, c, chatbot, cutoff))
    && deleted == |before.conversations| - |after.conversations| <= quota && (!complete ==> deleted == quota)
    && (forall a, b :: a in before.conversations && a !in after.conversations && Idle(after, b, chatbot, cutoff) ==>
          b in before.conversations && before.conversations[a].updatedAt <= before.conversations[b].updatedAt)
  }

  ghost predicate ConversationsPurged(before: Db, after: Db, chatbot: nat, cutoff: int, quota: nat,
                                      deleted: nat, complete: bool)
  {
    && OnlyIdleGone(before, after, chatbot, cutoff)
    && OldestIdleGone(before, after, chatbot, cutoff, quota, deleted, complete)
  }

  lemma PinIsHold(db: Db, c: nat)
    ensures Pinned(db, c) <==> HeldOpen(db, c)
  {
    if Pinned(db, c) {
      var t :| t in db.tickets && db.tickets[t].conversation == c && Unresolved(db.tickets[t].status);
    }
    if HeldOpen(db, c) {
      var t :| t in db.tickets && db.tickets[t].conversation == c
            && (db.tickets[t].status == Open || db.tickets[t].status == Pending);
      assert Unresolved(db.tickets[t].status);
    }
  }

  lemma ExpiredIsIdle(db: Db, c: nat, chatbot: nat, cutoff: int)
    ensures c in ExpiredConversations(db, chatbot, cutoff) <==> Idle(db, c, chatbot, cutoff)
  {
    PinIsHold(db, c);
    hide Pinned, HeldOpen;
  }

  lemma RemovalKeepsOthers(db: Db, gone: set<nat>, c: nat)
    requires c in db.conversations && c !in gone
    ensures Kept(db, RemoveConversations(db, gone), c)
    ensures HeldOpen(RemoveConversations(db, gone), c) <==> HeldOpen(db, c)
  {
    var after := RemoveConversations(db, gone);
    if HeldOpen(db, c) {
      var t :| t in db.tickets && db.tickets[t].conversation == c
            && (db.tickets[t].status == Open || db.tickets[t].status == Pending);
      assert t in after.tickets && after.tickets[t] == db.tickets[t];
    }
    if HeldOpen(after, c) {
      var t :| t in after.tickets && after.tickets[t].conversation == c
            && (after.tickets[t].status == Open || after.tickets[t].status == Pending);
      assert t in db.tickets && after.tickets[t] == db.tickets[t];
    }
  }

  lemma RemovalShape(db: Db, gone: set<nat>)
    requires Good(db)
    ensures var after := RemoveConversations(db, gone);
            && after.conversations == db.conversations - gone
            && (forall m :: m in after.messages ==> after.messages[m] in after.conversations)
            && after.notes.Keys == db.notes.Keys
            && (forall n :: n in db.notes ==>
                  after.notes[n] == if db.notes[n].source.Some? && db.notes[n].source.value !in after.conversations
                                    then db.notes[n].(source := None) else db.notes[n])
  {
    hide CountsGood, StampsGood, IndexGood;
  }

  lemma PartSizes(all: map<nat, Conversation>, gone: set<nat>)
    requires gone <= all.Keys
    ensures |all - gone| == |all| - |gone|
  {
    assert (all - gone).Keys == all.Keys - gone;
    assert all.Keys == gone + (all.Keys - gone);
  }

  lemma IdleAfter(db: Db, gone: set<nat>, c: nat, chatbot: nat, cutoff: int)
    ensures Idle(RemoveConversations(db, gone), c, chatbot, cutoff) <==>
              Idle(db, c, chatbot, cutoff) && c !in gone
  {
    if c in db.conversations && c !in gone {
      RemovalKeepsOthers(db, gone, c);
    }
    hide HeldOpen;
  }

  lemma IdleFacts(db: Db, gone: set<nat>, chatbot: nat, cutoff: int)
    ensures forall c :: c in ExpiredConversations(db, chatbot, cutoff) <==> Idle(db, c, chatbot, cutoff)
    ensures forall c :: Idle(RemoveConversations(db, gone), c, chatbot, cutoff) <==>
              Idle(db, c, chatbot, cutoff) && c !in gone
    ensures forall c :: Idle(db, c, chatbot, cutoff) ==>
              c in db.conversations && c in Stamps(db) && Stamps(db)[c] == db.conversations[c].updatedAt
  {
    forall c
      ensures c in ExpiredConversations(db, chatbot, cutoff) <==> Idle(db, c, chatbot, cutoff)
      ensures Idle(RemoveConversations(db, gone), c, chatbot, cutoff) <==>
              Idle(db, c, chatbot, cutoff) && c !in gone
    {
      ExpiredIsIdle(db, c, chatbot, cutoff);
      IdleAfter(db, gone, c, chatbot, cutoff);
      hide *;
    }
    hide HeldOpen, ExpiredConversations, RemoveConversations;
  }

  lemma KeptRows(db: Db, gone: set<nat>)
    ensures forall c :: c in db.conversations && c !in gone ==> Kept(db, RemoveConversations(db, gone), c)
  {
    forall c | c in db.conversations && c !in gone
      ensures Kept(db, RemoveConversations(db, gone), c)
    {
      RemovalKeepsOthers(db, gone, c);
    }
  }

  lemma GoneAreIdle(db: Db, gone: set<nat>, chatbot: nat, cutoff: int)
    requires Good(db) && gone <= ExpiredConversations(db, chatbot, cutoff)
    ensures OnlyIdleGone(db, RemoveConversations(db, gone), chatbot, cutoff)
  {
    hide Good, RemoveConversations, ExpiredConversations, HeldOpen, Kept, Idle;
    RemovalShape(db, gone);
    KeptRows(db, gone);
    IdleFacts(db, gone, chatbot, cutoff);
  }

  lemma GoneBefore(db: Db, gone: set<nat>, chatbot: nat, cutoff: int, a: nat, b: nat)
    requires forall x, y :: x in gone && y in ExpiredConversations(db, chatbot, cutoff) && y !in gone ==>
               x in Stamps(db) && y in Stamps(db) && Stamps(db)[x] <= Stamps(db)[y]
    requires a in db.conversations && a in gone && Idle(RemoveConversations(db, gone), b, chatbot, cutoff)
    ensures b in db.conversations && db.conversations[a].updatedAt <= db.conversations[b].updatedAt
  {
    IdleAfter(db, gone, b, chatbot, cutoff);
    ExpiredIsIdle(db, b, chatbot, cutoff);
    assert Stamps(db)[a] == db.conversations[a].updatedAt;
    hide ExpiredConversations, RemoveConversations, HeldOpen;
  }

  lemma RemainingCount(db: Db, gone: set<nat>)
    requires gone <= db.conversations.Keys
    ensures |gone| == |db.conversations| - |RemoveConversations(db, gone).conversations|
  {
    PartSizes(db.conversations, gone);
  }

  lemma GoneInOrder(db: Db, gone: set<nat>, chatbot: nat, cutoff: int, quota: nat, complete: bool)
    requires Purged(gone, ExpiredConversations(db, chatbot, cutoff), Stamps(db), quota, complete)
    ensures var after := RemoveConversations(db, gone);
            && (complete ==> forall c :: !Idle(after, c, chatbot, cutoff))
            && (forall a, b :: a in db.conversations && a !in after.conversations &&
                               Idle(after, b, chatbot, cutoff) ==>
                  b in db.conversations && db.conversations[a].updatedAt <= db.conversations[b].updatedAt)
  {
    var after := RemoveConversations(db, gone);
    assert after.conversations == db.conversations - gone;
    hide RemoveConversations, ExpiredConversations, Stamps, HeldOpen, Purged, Idle;
    PurgedMeans(gone, ExpiredConversations(db, chatbot, cutoff), Stamps(db), quota, complete);
    forall c | complete
      ensures !Idle(after, c, chatbot, cutoff)
    {
      IdleFacts(db, gone, chatbot, cutoff);
    }
    forall a, b | a in db.conversations && a !in after.conversations && Idle(after, b, chatbot, cutoff)
      ensures b in db.conversations && db.conversations[a].updatedAt <= db.conversations[b].updatedAt
    {
      GoneBefore(db, gone, chatbot, cutoff, a, b);
    }
  }

  lemma ExpiredAreThere(db: Db, gone: set<nat>, chatbot: nat, cutoff: int)
    requires gone <= ExpiredConversations(db, chatbot, cutoff)
    ensures gone <= db.conversations.Keys
  {
    hide Pinned;
  }

  lemma GoneAreOldest(db: Db, gone: set<nat>, chatbot: nat, cutoff: int, quota: nat, complete: bool)
    requires Purged(gone, ExpiredConversations(db, chatbot, cutoff), Stamps(db), quota, complete)
    ensures OldestIdleGone(db, RemoveConversations(db, gone), chatbot, cutoff, quota, |gone|, complete)
  {
    hide RemoveConversations, ExpiredConversations, Stamps, HeldOpen, Purged, Idle, OldestIdleGone;
    PurgedMeans(gone, ExpiredConversations(db, chatbot, cutoff), Stamps(db), quota, complete);
    ExpiredAreThere(db, gone, chatbot, cutoff);
    RemainingCount(db, gone);
    GoneInOrder(db, gone, chatbot, cutoff, quota, complete);
    FromParts(db, RemoveConversations(db, gone), chatbot, cutoff, quota, |gone|, complete);
  }

  lemma FromParts(before: Db, after: Db, chatbot: nat, cutoff: int, quota: nat, deleted: nat, complete: bool)
    requires complete ==> forall c :: !Idle(after, c, chatbot, cutoff)
    requires deleted == |before.conversations| - |after.conversations| <= quota && (!complete ==> deleted == quota)
    requires forall a, b :: a in before.conversations && a !in after.conversations &&
                            Idle(after, b, chatbot, cutoff) ==>
               b in before.conversations && before.conversations[a].updatedAt <= before.conversations[b].updatedAt
    ensures OldestIdleGone(before, after, chatbot, cutoff, quota, deleted, complete)
  {
    hide Idle;
  }

  lemma PurgedConversations(db: Db, gone: set<nat>, chatbot: nat, cutoff: int, quota: nat, complete: bool)
    requires Good(db) && Purged(gone, ExpiredConversations(db, chatbot, cutoff), Stamps(db), quota, complete)
    ensures ConversationsPurged(db, RemoveConversations(db, gone), chatbot, cutoff, quota, |gone|, complete)
  {
    hide Good, RemoveConversations, ExpiredConversations, Stamps, Purged, OnlyIdleGone, OldestIdleGone;
    PurgedMeans(gone, ExpiredConversations(db, chatbot, cutoff), Stamps(db), quota, complete);
    GoneAreIdle(db, gone, chatbot, cutoff);
    GoneAreOldest(db, gone, chatbot, cutoff, quota, complete);
  }

  lemma PurgedMeans(gone: set<nat>, expired: set<nat>, stamp: map<nat, int>, quota: nat, complete: bool)
    requires Purged(gone, expired, stamp, quota, complete)
    ensures gone <= expired <= stamp.Keys && |gone| <= quota && (!complete ==> |gone| == quota)
    ensures forall a, b :: a in gone && b in expired && b !in gone ==> stamp[a] <= stamp[b]
    ensures complete ==> gone == expired
  {
    if complete {
      SubsetSameSize(gone, expired);
    }
    assert forall b :: b in expired && b !in gone ==> b in expired - gone;
  }

  /** A note the retention rule lets go of: idle, and about nobody with an open conversation. */
  predicate Forgettable(db: Db, n: nat, chatbot: nat, cutoff: int) {
    && n in db.notes && db.notes[n].subject.chatbot == chatbot && db.notes[n].lastReferenced < cutoff
    && forall c | c in db.conversations :: db.conversations[c].subject == db.notes[n].subject ==> !HeldOpen(db, c)
  }

  ghost predicate NotesPurged(before: Db, after: Db, chatbot: nat, cutoff: int, quota: nat,
                              deleted: nat, complete: bool)
  {
    && after.notes.Keys <= before.notes.Keys && after == before.(notes := after.notes)
    && (forall n :: n in after.notes ==> after.notes[n] == before.notes[n])
    && (forall n :: n in before.notes && !Forgettable(before, n, chatbot, cutoff) ==> n in after.notes)
    && (complete ==> forall n :: n in after.notes ==> !Forgettable(after, n, chatbot, cutoff))
    && deleted == |before.notes| - |after.notes| <= quota && (!complete ==> deleted == quota)
    && (forall a, b :: a in before.notes && a !in after.notes && Forgettable(after, b, chatbot, cutoff) ==>
          before.notes[a].lastReferenced <= before.notes[b].lastReferenced)
  }

  lemma SubjectPinIsHold(db: Db, s: Subject)
    ensures SubjectPinned(db, s) <==>
              exists c | c in db.conversations :: db.conversations[c].subject == s && HeldOpen(db, c)
  {
    if SubjectPinned(db, s) {
      var t :| t in db.tickets && Unresolved(db.tickets[t].status)
            && db.tickets[t].conversation in db.conversations
            && db.conversations[db.tickets[t].conversation].subject == s;
      assert HeldOpen(db, db.tickets[t].conversation);
    }
    if c :| c in db.conversations && db.conversations[c].subject == s && HeldOpen(db, c) {
      var t :| t in db.tickets && db.tickets[t].conversation == c
            && (db.tickets[t].status == Open || db.tickets[t].status == Pending);
      assert Unresolved(db.tickets[t].status);
    }
  }

  lemma ExpiredIsForgettable(db: Db, n: nat, chatbot: nat, cutoff: int)
    ensures n in ExpiredNotes(db, chatbot, cutoff) <==> Forgettable(db, n, chatbot, cutoff)
  {
    if n in db.notes {
      SubjectPinIsHold(db, db.notes[n].subject);
    }
    hide SubjectPinned, HeldOpen;
  }

  lemma NotePartSizes(all: map<nat, Note>, gone: set<nat>)
    requires gone <= all.Keys
    ensures |all - gone| == |all| - |gone|
  {
    assert (all - gone).Keys == all.Keys - gone;
    assert all.Keys == gone + (all.Keys - gone);
  }

  lemma PurgedNotes(db: Db, gone: set<nat>, chatbot: nat, cutoff: int, quota: nat, complete: bool)
    requires Purged(gone, ExpiredNotes(db, chatbot, cutoff), NoteStamps(db), quota, complete)
    ensures NotesPurged(db, RemoveNotes(db, gone), chatbot, cutoff, quota, |gone|, complete)
  {
    var after, expired := RemoveNotes(db, gone), ExpiredNotes(db, chatbot, cutoff);
    PurgedMeans(gone, expired, NoteStamps(db), quota, complete);
    forall n
      ensures n in expired <==> Forgettable(db, n, chatbot, cutoff)
      ensures Forgettable(after, n, chatbot, cutoff) <==> Forgettable(db, n, chatbot, cutoff) && n !in gone
    {
      ExpiredIsForgettable(db, n, chatbot, cutoff);
      ForgettableAfter(db, gone, n, chatbot, cutoff);
      hide Forgettable, ExpiredNotes, Purged;
    }
    NotePartSizes(db.notes, gone);
    assert after.notes == db.notes - gone && after == db.(notes := after.notes);
    assert forall n :: n in db.notes ==> n in NoteStamps(db) && NoteStamps(db)[n] == db.notes[n].lastReferenced;
    assert forall n :: Forgettable(db, n, chatbot, cutoff) ==> n in db.notes;
    hide Purged, ExpiredNotes, NoteStamps, Forgettable, RemoveNotes;
  }

  lemma ForgettableAfter(db: Db, gone: set<nat>, n: nat, chatbot: nat, cutoff: int)
    ensures Forgettable(RemoveNotes(db, gone), n, chatbot, cutoff) <==>
              Forgettable(db, n, chatbot, cutoff) && n !in gone
  {
    var after := RemoveNotes(db, gone);
    forall c
      ensures HeldOpen(after, c) <==> HeldOpen(db, c)
    {
    }
    hide HeldOpen;
  }

  /** Both sweeps, against one database. */
  class RetentionSweeps {
    const batchSize: nat
    const maxBatches: nat
    var db: Db

    constructor (batchSize: nat, maxBatches: nat, db: Db)
      ensures this.batchSize == batchSize && this.maxBatches == maxBatches && this.db == db
    {
      this.batchSize, this.maxBatches, this.db := batchSize, maxBatches, db;
    }

    /** `_purge_chatbot` over conversations: the same as deleting, in one go, the oldest of the
        expired and unpinned, as many as the batches allow. */
    method PurgeConversations(chatbot: nat, cutoff: int)
      returns (deleted: nat, complete: bool, gone: set<nat>)
      requires Good(db) && batchSize >= 1 && maxBatches >= 1
      modifies this
      ensures Purged(gone, ExpiredConversations(old(db), chatbot, cutoff), Stamps(old(db)),
                     batchSize * maxBatches, complete)
      ensures db == RemoveConversations(old(db), gone) && deleted == |gone|
      ensures ConversationsPurged(old(db), db, chatbot, cutoff, batchSize * maxBatches, deleted, complete)
    {
      hide *;
      deleted, gone := 0, {};
      StartPurge(db, chatbot, cutoff);
      for round := 0 to maxBatches
        invariant db == RemoveConversations(old(db), gone) && deleted == |gone|
        invariant InFull(gone, ExpiredConversations(old(db), chatbot, cutoff), Stamps(old(db)), batchSize * round)
      {
        PoolsAreStamped(db, chatbot, cutoff);
        var batch := OldestFirst(ExpiredConversations(db, chatbot, cutoff), Stamps(db), batchSize);
        InFullIsPart(gone, ExpiredConversations(old(db), chatbot, cutoff), Stamps(old(db)), batchSize * round);
        ConversationRound(old(db), gone, batch, chatbot, cutoff, batchSize);
        RoundsFit(batchSize, round, maxBatches);
        NextRound(gone, batch, ExpiredConversations(old(db), chatbot, cutoff), Stamps(old(db)),
                  batchSize, batchSize * round, batchSize * maxBatches);
        if batch == {} {
          assert gone + batch == gone;
          PurgedConversations(old(db), gone, chatbot, cutoff, batchSize * maxBatches, true);
          return deleted, true, gone;
        }
        db := RemoveConversations(db, batch);
        deleted := deleted + |batch|;
        gone := gone + batch;
        if |batch| < batchSize {
          PurgedConversations(old(db), gone, chatbot, cutoff, batchSize * maxBatches, true);
          return deleted, true, gone;
        }
      }
      LastRound(gone, ExpiredConversations(old(db), chatbot, cutoff), Stamps(old(db)), batchSize * maxBatches);
      PurgedConversations(old(db), gone, chatbot, cutoff, batchSize * maxBatches, false);
      return deleted, false, gone;
    }

    /** `_purge_chatbot` over notes. */
    method PurgeNotes(chatbot: nat, cutoff: int) returns (deleted: nat, complete: bool, gone: set<nat>)
      requires batchSize >= 1 && maxBatches >= 1
      modifies this
      ensures Purged(gone, ExpiredNotes(old(db), chatbot, cutoff), NoteStamps(old(db)),
                     batchSize * maxBatches, complete)
      ensures db == RemoveNotes(old(db), gone) && deleted == |gone|
      ensures NotesPurged(old(db), db, chatbot, cutoff, batchSize * maxBatches, deleted, complete)
    {
      hide *;
      deleted, gone := 0, {};
      StartPurge(db, chatbot, cutoff);
      for round := 0 to maxBatches
        invariant db == RemoveNotes(old(db), gone) && deleted == |gone|
        invariant InFull(gone, ExpiredNotes(old(db), chatbot, cutoff), NoteStamps(old(db)), batchSize * round)
      {
        PoolsAreStamped(db, chatbot, cutoff);
        var batch := OldestFirst(ExpiredNotes(db, chatbot, cutoff), NoteStamps(db), batchSize);
        NoteRound(old(db), gone, batch, chatbot, cutoff, batchSize);
        RoundsFit(batchSize, round, maxBatches);
        NextRound(gone, batch, ExpiredNotes(old(db), chatbot, cutoff), NoteStamps(old(db)),
                  batchSize, batchSize * round, batchSize * maxBatches);
        if batch == {} {
          assert gone + batch == gone;
          PurgedNotes(old(db), gone, chatbot, cutoff, batchSize * maxBatches, true);
          return deleted, true, gone;
        }
        db := RemoveNotes(db, batch);
        deleted := deleted + |batch|;
        gone := gone + batch;
        if |batch| < batchSize {
          PurgedNotes(old(db), gone, chatbot, cutoff, batchSize * maxBatches, true);
          return deleted, true, gone;
        }
      }
      LastRound(gone, ExpiredNotes(old(db), chatbot, cutoff), NoteStamps(old(db)), batchSize * maxBatches);
      PurgedNotes(old(db), gone, chatbot, cutoff, batchSize * maxBatches, false);
      return deleted, false, gone;
    }
  }
}
