/** `app/services/ai/base.py`: keeping a model's private reasoning out of a streamed answer. */
module ReasoningFilters {
  import opened Text

  const THINK_OPEN: string := "<think>"
  const THINK_CLOSE: string := "</think>"

  function Awaited(inside: bool): string {
    if inside then THINK_CLOSE else THINK_OPEN
  }

  // ---------------------------------------------------------------------------------------
  // The reference: one recursive pass over a whole text

  /** What a visitor may read of `text`; an unclosed tag takes the rest of the text with it. */
  function Strip(text: string, inside: bool): string
    decreases |text|
  {
    var at := Find(text, Awaited(inside));
    if at == -1 then if inside then "" else text
    else if inside then Strip(text[at + |THINK_CLOSE|..], false)
    else text[..at] + Strip(text[at + |THINK_OPEN|..], true)
  }

  /** A closed span disappears and reading resumes after it. */
  lemma {:induction false} SpanRemoved(a: string, thought: string, b: string)
    requires Find(a + THINK_OPEN, THINK_OPEN) == |a|
    requires Find(thought + THINK_CLOSE, THINK_CLOSE) == |thought|
    ensures Strip((a + THINK_OPEN) + ((thought + THINK_CLOSE) + b), false) == a + Strip(b, false)
  {
    hide Find, FindFrom, OccursAt;
    var rest := (thought + THINK_CLOSE) + b;
    FindInLonger(thought + THINK_CLOSE, b, THINK_CLOSE);
    TakeBeyond(thought + THINK_CLOSE, b, 0);
    assert Strip(rest, true) == Strip(b, false);
    FindInLonger(a + THINK_OPEN, rest, THINK_OPEN);
    TakeBeyond(a + THINK_OPEN, rest, 0);
    Assoc(a, THINK_OPEN, rest);
    TakeWithin(a, THINK_OPEN + rest, |a|);
  }

  /** A span that is never closed takes the rest of the text with it. */
  lemma {:induction false} UnclosedSpanDropped(a: string, thought: string)
    requires Find(a + THINK_OPEN, THINK_OPEN) == |a| && Find(thought, THINK_CLOSE) == -1
    ensures Strip((a + THINK_OPEN) + thought, false) == a
  {
    hide Find, FindFrom, OccursAt;
    assert Strip(thought, true) == "";
    FindInLonger(a + THINK_OPEN, thought, THINK_OPEN);
    TakeBeyond(a + THINK_OPEN, thought, 0);
    Assoc(a, THINK_OPEN, thought);
    TakeWithin(a, THINK_OPEN + thought, |a|);
    assert a + "" == a;
  }

  // ---------------------------------------------------------------------------------------
  // The part of a text that must be held back

  /** The last `n` characters of `text` begin `tag` without completing it. */
  predicate TailOpensTag(text: string, tag: string, n: int) {
    0 <= n <= |text| && n < |tag| && text[|text| - n..] == tag[..n]
  }

  /** The longest tail of `text` that is a proper prefix of `tag`. */
  ghost predicate IsHeld(h: string, text: string, tag: string) {
    && TailOpensTag(text, tag, |h|) && h == tag[..|h|]
    && forall n :: TailOpensTag(text, tag, n) ==> n <= |h|
  }

  function HeldFrom(text: string, tag: string, size: nat): (h: string)
    requires size <= |text| && size < |tag|
    ensures TailOpensTag(text, tag, |h|) && h == tag[..|h|] && |h| <= size
    ensures forall n :: TailOpensTag(text, tag, n) && n <= size ==> n <= |h|
  {
    if size == 0 then ""
    else if TailOpensTag(text, tag, size) then tag[..size]
    else HeldFrom(text, tag, size - 1)
  }

  function Held(text: string, tag: string): (h: string)
    requires tag != ""
    ensures IsHeld(h, text, tag)
  {
    HeldFrom(text, tag, if |tag| - 1 < |text| then |tag| - 1 else |text|)
  }

  method PartialTagSuffix(text: string, tag: string) returns (held: string)
    requires tag != ""
    ensures held == Held(text, tag)
  {
    var size: nat := if |tag| - 1 < |text| then |tag| - 1 else |text|;
    while size > 0
      invariant size <= |text| && size < |tag|
      invariant HeldFrom(text, tag, size) == Held(text, tag)
    {
      if text[|text| - size..] == tag[..size] {
        return text[|text| - size..];
      }
      size := size - 1;
    }
    return "";
  }

  // ---------------------------------------------------------------------------------------
  // The incremental filter as a function of its buffer

  /** What has been released, what is held back, and whether a tag is open. */
  datatype Scanned = Scanned(out: string, buffer: string, inside: bool)

  function Scan(text: string, inside: bool): Scanned
    decreases |text|
  {
    var at := Find(text, Awaited(inside));
    var held := Held(text, Awaited(inside));
    if inside then
      if at == -1 then Scanned("", held, true)
      else Scan(text[at + |THINK_CLOSE|..], false)
    else
      if at == -1 then Scanned(text[..|text| - |held|], held, false)
      else
        var rest := Scan(text[at + |THINK_OPEN|..], true);
        Scanned(text[..at] + rest.out, rest.buffer, rest.inside)
  }

  /** Reading on from `s`. */
  function Continue(s: Scanned, more: string): Scanned {
    var t := Scan(s.buffer + more, s.inside);
    Scanned(s.out + t.out, t.buffer, t.inside)
  }

  /** `s`, had it already released `p`. */
  function Prefixed(p: string, s: Scanned): Scanned {
    s.(out := p + s.out)
  }

  /** What may be released at once, given that it cannot belong to a tag. */
  function DeadOut(dead: string, inside: bool): string {
    if inside then "" else dead
  }

  /** State after feeding the deltas one at a time, starting from a fresh filter. */
  function FeedAll(deltas: seq<string>): Scanned {
    if deltas == [] then Scanned("", "", false)
    else
      var before := FeedAll(deltas[..|deltas| - 1]);
      Continue(before, deltas[|deltas| - 1])
  }

  function Flushed(s: Scanned): string {
    if s.inside then "" else s.buffer
  }

  /** The class itself: `feed` loops over its own buffer, `flush` empties it. */
  class ReasoningFilter {
    var buffer: string
    var inside: bool

    constructor ()
      ensures buffer == "" && !inside
    {
      buffer, inside := "", false;
    }

    method Feed(delta: string) returns (visible: string)
      modifies this
      ensures Scanned(visible, buffer, inside) == Scan(old(buffer) + delta, old(inside))
    {
      hide Find, FindFrom, OccursAt, Held, HeldFrom, IsHeld, TailOpensTag;
      buffer := buffer + delta;
      ghost var whole := Scan(buffer, inside);
      var out: seq<string> := [];
      while buffer != ""
        invariant whole == Prefixed(Concat(out), Scan(buffer, inside))
        decreases |buffer|
      {
        if inside {
          var end := Find(buffer, THINK_CLOSE);
          if end == -1 {
            var held := PartialTagSuffix(buffer, THINK_CLOSE);
            HeldScansToItself(buffer, true);
            buffer := held;
            break;
          }
          buffer := buffer[end + |THINK_CLOSE|..];
          inside := false;
          continue;
        }
        var start := Find(buffer, THINK_OPEN);
        if start == -1 {
          var held := PartialTagSuffix(buffer, THINK_OPEN);
          HeldScansToItself(buffer, false);
          HeldIsTail(buffer, THINK_OPEN);
          PrefixedSnoc(out, buffer[..|buffer| - |held|], Scan(held, false));
          out := out + [buffer[..|buffer| - |held|]];
          buffer := held;
          break;
        }
        PrefixedSnoc(out, buffer[..start], Scan(buffer[start + |THINK_OPEN|..], true));
        out := out + [buffer[..start]];
        buffer := buffer[start + |THINK_OPEN|..];
        inside := true;
      }
      if buffer == "" { ScanEmpty(inside); }
      assert Scan(buffer, inside) == Scanned("", buffer, inside);
      visible := Concat(out);
      assert visible + "" == visible;
    }

    method Flush() returns (remainder: string)
      modifies this
      ensures remainder == Flushed(Scanned("", old(buffer), old(inside)))
      ensures buffer == "" && inside == old(inside)
    {
      remainder := if inside then "" else buffer;
      buffer := "";
    }
  }

  lemma PrefixedSnoc(out: seq<string>, x: string, s: Scanned)
    ensures Prefixed(Concat(out + [x]), s) == Prefixed(Concat(out), Prefixed(x, s))
  {
    ConcatSnoc(out, x);
    Assoc(Concat(out), x, s.out);
  }

  /** A held-back tail scans to itself, so the loop may stop there. */
  lemma HeldScansToItself(text: string, inside: bool)
    requires Find(text, Awaited(inside)) == -1
    ensures var h := Held(text, Awaited(inside));
            && Scan(h, inside) == Scanned("", h, inside)
            && Scan(text, inside) ==
               Prefixed(DeadOut(text[..|text| - |h|], inside), Scan(h, inside))
  {
    hide Find, FindFrom, OccursAt, Held, HeldFrom, IsHeld, TailOpensTag;
    var tag := Awaited(inside);
    HeldIsTail(text, tag);
    HeldItself(Held(text, tag), tag);
  }

  lemma HeldItself(h: string, tag: string)
    requires |h| < |tag| && h == tag[..|h|]
    ensures Held(h, tag) == h && Find(h, tag) == -1
  {
    assert h[0..] == h;
    assert TailOpensTag(h, tag, |h|);
  }

  // ---------------------------------------------------------------------------------------
  // Where the stream is cut does not matter

  lemma HeldIs(h: string, text: string, tag: string)
    requires tag != "" && IsHeld(h, text, tag)
    ensures Held(text, tag) == h
  {
    assert TailOpensTag(text, tag, |Held(text, tag)|);
  }

  lemma BeginsInHeld(dead: string, h: string, more: string, tag: string, j: int)
    requires tag != "" && Find(dead + h, tag) == -1 && Held(dead + h, tag) == h
    requires OccursAt(dead + (h + more), tag, j)
    ensures |dead| <= j
  {
    hide OccursAt, Find, FindFrom, Held, HeldFrom;
    var text := dead + h;
    Assoc(dead, h, more);
    if j + |tag| <= |text| {
      OccursWithin(text, more, tag, j);
    } else if j < |text| {
      CutOccurrence(text, more, tag, j);
    }
  }

  /** The part of an occurrence that lies before the cut is a candidate for being held. */
  lemma CutOccurrence(text: string, more: string, tag: string, j: int)
    requires OccursAt(text + more, tag, j) && j < |text| < j + |tag|
    ensures 0 <= j && TailOpensTag(text, tag, |text| - j)
  {
    forall i | 0 <= i < |text| - j
      ensures text[j + i] == tag[i]
    {
      assert (text + more)[j..j + |tag|][i] == (text + more)[j + i];
    }
  }

  /** In front of a held tail nothing can begin a tag, whatever arrives next. */
  lemma FindAfter(dead: string, h: string, more: string, tag: string)
    requires tag != "" && Find(dead + h, tag) == -1 && Held(dead + h, tag) == h
    ensures var k := Find(h + more, tag);
            Find(dead + (h + more), tag) == if k == -1 then -1 else |dead| + k
  {
    hide Find, FindFrom, OccursAt, Held, HeldFrom, IsHeld, TailOpensTag;
    var k, r := Find(h + more, tag), Find(dead + (h + more), tag);
    if r != -1 {
      BeginsInHeld(dead, h, more, tag, r);
      OccursShift(dead, h + more, tag, r - |dead|);
    }
    if k != -1 {
      OccursShift(dead, h + more, tag, k);
    }
  }

  lemma TailOfTail(dead: string, rest: string, n: nat, tag: string)
    requires n <= |rest|
    ensures TailOpensTag(dead + rest, tag, n) <==> TailOpensTag(rest, tag, n)
  {
    assert (dead + rest)[|dead + rest| - n..] == rest[|rest| - n..];
  }

  lemma {:induction false} TailReachesNoFurther(dead: string, h: string, more: string, n: nat, tag: string)
    requires tag != "" && Held(dead + h, tag) == h
    requires TailOpensTag(dead + (h + more), tag, n)
    ensures n <= |h + more|
  {
    if n > |more| {
      var text, m := dead + h, n - |more|;
      Assoc(dead, h, more);
      TakeWithin(text, more, |text| - m);
      assert text[|text| - m..] == (text[|text| - m..] + more)[..m] == tag[..n][..m] == tag[..m];
      assert TailOpensTag(text, tag, m);
    }
  }

  lemma {:induction false} HeldAfter(dead: string, h: string, more: string, tag: string)
    requires tag != "" && Held(dead + h, tag) == h
    ensures Held(dead + (h + more), tag) == Held(h + more, tag)
  {
    var long, short := dead + (h + more), h + more;
    var held := Held(short, tag);
    TailOfTail(dead, short, |held|, tag);
    forall n | TailOpensTag(long, tag, n)
      ensures n <= |held|
    {
      TailReachesNoFurther(dead, h, more, n, tag);
      TailOfTail(dead, short, n, tag);
    }
    HeldIs(held, long, tag);
  }

  /** Continuing from where a prefix left the filter is the same as scanning from the start. */
  lemma {:induction false} ScanAppend(a: string, b: string, inside: bool)
    ensures Scan(a + b, inside) == Continue(Scan(a, inside), b)
    decreases |a|
  {
    hide Find, FindFrom, OccursAt, Held, HeldFrom, IsHeld, TailOpensTag;
    var tag := Awaited(inside);
    var at := Find(a, tag);
    if at == -1 {
      ScanAppendHeld(a, b, inside);
    } else {
      FindInLonger(a, b, tag);
      TakeWithin(a, b, at + |tag|);
      TakeWithin(a, b, at);
      var rest := a[at + |tag|..];
      ScanAppend(rest, b, !inside);
      if !inside {
        var s := Scan(rest, true);
        Assoc(a[..at], s.out, Scan(s.buffer + b, s.inside).out);
      }
    }
  }

  lemma {:induction false} ScanAppendHeld(a: string, b: string, inside: bool)
    requires Find(a, Awaited(inside)) == -1
    ensures Scan(a + b, inside) == Continue(Scan(a, inside), b)
  {
    hide Find, FindFrom, OccursAt, Held, HeldFrom, IsHeld, TailOpensTag;
    var tag := Awaited(inside);
    var h := Held(a, tag);
    HeldIsTail(a, tag);
    var dead := a[..|a| - |h|];
    Assoc(dead, h, b);
    FindAfter(dead, h, b, tag);
    if Find(h + b, tag) == -1 {
      HeldAfter(dead, h, b, tag);
      ScanPastDeadHeld(dead, h + b, inside);
    } else {
      ScanPastDeadFound(dead, h + b, inside);
    }
  }

  lemma ScanPastDeadHeld(dead: string, rest: string, inside: bool)
    requires var tag := Awaited(inside);
             && Find(dead + rest, tag) == -1 && Find(rest, tag) == -1
             && Held(dead + rest, tag) == Held(rest, tag)
    ensures Scan(dead + rest, inside) == Prefixed(DeadOut(dead, inside), Scan(rest, inside))
  {
    hide Find, FindFrom, OccursAt, Held, HeldFrom, IsHeld, TailOpensTag;
    HeldIsTail(rest, Awaited(inside));
    TakeBeyond(dead, rest, |rest| - |Held(rest, Awaited(inside))|);
  }

  lemma ScanFound(text: string, inside: bool)
    requires Find(text, Awaited(inside)) != -1
    ensures var tag := Awaited(inside); var k := Find(text, tag);
            && k + |tag| <= |text|
            && Scan(text, inside) ==
               Prefixed(DeadOut(text[..k], inside), Scan(text[k + |tag|..], !inside))
  {
    hide Find, FindFrom, OccursAt, Held, HeldFrom, IsHeld, TailOpensTag;
  }

  lemma {:induction false} ScanPastDeadFound(dead: string, rest: string, inside: bool)
    requires var tag := Awaited(inside);
             Find(rest, tag) != -1 && Find(dead + rest, tag) == |dead| + Find(rest, tag)
    ensures Scan(dead + rest, inside) == Prefixed(DeadOut(dead, inside), Scan(rest, inside))
  {
    hide *;
    var tag := Awaited(inside);
    var k := Find(rest, tag);
    ScanFound(rest, inside);
    ScanFound(dead + rest, inside);
    TakeBeyond(dead, rest, k);
    TakeBeyond(dead, rest, k + |tag|);
    PrefixedTwice(dead, rest[..k], inside, Scan(rest[k + |tag|..], !inside));
  }

  lemma PrefixedTwice(p: string, q: string, inside: bool, s: Scanned)
    ensures Prefixed(DeadOut(p + q, inside), s)
         == Prefixed(DeadOut(p, inside), Prefixed(DeadOut(q, inside), s))
  {
    Assoc(p, q, s.out);
  }

  lemma ScanEmpty(inside: bool)
    ensures Scan("", inside) == Scanned("", "", inside)
  {
  }

  /** Feeding in pieces leaves the filter exactly where feeding the whole text would. */
  lemma {:induction false} FeedAllIsScan(deltas: seq<string>)
    ensures FeedAll(deltas) == Scan(Concat(deltas), false)
  {
    hide Find, FindFrom, OccursAt, Held, HeldFrom, IsHeld, TailOpensTag;
    if deltas == [] {
      ScanEmpty(false);
    } else {
      var front, last := deltas[..|deltas| - 1], deltas[|deltas| - 1];
      FeedAllIsScan(front);
      ConcatSnoc(front, last);
      assert front + [last] == deltas;
      ScanAppend(Concat(front), last, false);
    }
  }

  lemma {:induction false} ScanThenFlushIsStrip(text: string, inside: bool)
    ensures var s := Scan(text, inside); s.out + Flushed(s) == Strip(text, inside)
    decreases |text|
  {
    hide Find, FindFrom, OccursAt, Held, HeldFrom, IsHeld, TailOpensTag;
    var tag := Awaited(inside);
    var at := Find(text, tag);
    if at == -1 {
      HeldIsTail(text, tag);
    } else {
      var rest := text[at + |tag|..];
      ScanThenFlushIsStrip(rest, !inside);
      var s := Scan(rest, !inside);
      Assoc(text[..at], s.out, Flushed(s));
    }
  }

  lemma HeldIsTail(text: string, tag: string)
    requires tag != ""
    ensures var h := Held(text, tag);
            |h| <= |text| && |h| < |tag| && h == tag[..|h|] && text[..|text| - |h|] + h == text
  {
  }

  lemma {:induction false} ScanBuffer(text: string, inside: bool)
    ensures var s := Scan(text, inside);
            |s.buffer| < |Awaited(s.inside)| && s.buffer == Awaited(s.inside)[..|s.buffer|]
    decreases |text|
  {
    hide Find, FindFrom, OccursAt, Held, HeldFrom, IsHeld, TailOpensTag;
    var tag := Awaited(inside);
    var at := Find(text, tag);
    if at == -1 {
      HeldIsTail(text, tag);
    } else {
      ScanBuffer(text[at + |tag|..], !inside);
    }
  }

  /** The chunking theorem: what is released, plus what `flush` adds, is the stripped text. */
  lemma {:induction false} FilterIsStrip(deltas: seq<string>)
    ensures FeedAll(deltas).out + Flushed(FeedAll(deltas)) == Strip(Concat(deltas), false)
  {
    FeedAllIsScan(deltas);
    ScanThenFlushIsStrip(Concat(deltas), false);
  }

  /** After every delta the buffer is a proper prefix of the tag being waited for, and at most
      six characters a visitor is entitled to are still on hold. */
  lemma {:induction false} HoldsBackAtMostSix(deltas: seq<string>)
    ensures var s := FeedAll(deltas); var due := Strip(Concat(deltas), false);
            && |s.buffer| < |Awaited(s.inside)| && s.buffer == Awaited(s.inside)[..|s.buffer|]
            && s.out <= due && |due| - |s.out| <= 6
  {
    FeedAllIsScan(deltas);
    ScanBuffer(Concat(deltas), false);
    FilterIsStrip(deltas);
  }

  /** `LangChainChat.stream`: non-empty pieces only; a provider that raises skips the flush. */
  method StreamVisible(chunks: seq<string>, failsAfter: Option<nat>)
    returns (deltas: seq<string>, completed: bool)
    requires failsAfter.Some? ==> failsAfter.value <= |chunks|
    ensures completed == failsAfter.None?
    ensures deltas == VisibleDeltas(chunks, failsAfter)
  {
    hide *;
    var reasoning := new ReasoningFilter();
    var upTo := if failsAfter.Some? then failsAfter.value else |chunks|;
    deltas := [];
    NothingFed(chunks);
    for i := 0 to upTo
      invariant fresh(reasoning)
      invariant deltas == FedDeltas(chunks[..i])
      invariant reasoning.buffer == FeedAll(chunks[..i]).buffer
      invariant reasoning.inside == FeedAll(chunks[..i]).inside
    {
      var visible := reasoning.Feed(chunks[i]);
      if visible != "" {
        deltas := deltas + [visible];
      }
      FedOneMore(chunks, i);
    }
    completed := failsAfter.None?;
    if completed {
      var trailing := reasoning.Flush();
      if trailing != "" {
        deltas := deltas + [trailing];
      }
    }
    Finish(chunks, failsAfter);
  }

  lemma NothingFed(chunks: seq<string>)
    ensures chunks[..0] == [] && FedDeltas([]) == [] && FeedAll([]) == Scanned("", "", false)
  {
  }

  lemma {:induction false} FedOneMore(chunks: seq<string>, i: nat)
    requires i < |chunks|
    ensures var s := FeedAll(chunks[..i]);
            var t := Scan(s.buffer + chunks[i], s.inside);
            && FeedAll(chunks[..i + 1]) == Scanned(s.out + t.out, t.buffer, t.inside)
            && FedDeltas(chunks[..i + 1]) ==
               if t.out == "" then FedDeltas(chunks[..i]) else FedDeltas(chunks[..i]) + [t.out]
  {
    hide Scan;
    assert chunks[..i + 1][..i] == chunks[..i];
  }

  lemma {:induction false} Finish(chunks: seq<string>, failsAfter: Option<nat>)
    requires failsAfter.Some? ==> failsAfter.value <= |chunks|
    ensures failsAfter.Some? ==>
              VisibleDeltas(chunks, failsAfter) == FedDeltas(chunks[..failsAfter.value])
    ensures failsAfter.None? ==>
              var s := FeedAll(chunks[..|chunks|]);
              var trailing := Flushed(Scanned("", s.buffer, s.inside));
              VisibleDeltas(chunks, failsAfter) ==
              if trailing == "" then FedDeltas(chunks[..|chunks|])
              else FedDeltas(chunks[..|chunks|]) + [trailing]
  {
    hide Scan;
    assert chunks[..|chunks|] == chunks;
  }

  function FedDeltas(chunks: seq<string>): seq<string> {
    if chunks == [] then []
    else
      var front := chunks[..|chunks| - 1];
      var s := FeedAll(front);
      var visible := Scan(s.buffer + chunks[|chunks| - 1], s.inside).out;
      FedDeltas(front) + NonEmpty(visible)
  }

  function VisibleDeltas(chunks: seq<string>, failsAfter: Option<nat>): seq<string>
    requires failsAfter.Some? ==> failsAfter.value <= |chunks|
  {
    match failsAfter
    case Some(k) => FedDeltas(chunks[..k])
    case None =>
      var trailing := Flushed(FeedAll(chunks));
      FedDeltas(chunks) + NonEmpty(trailing)
  }

  lemma {:induction false} FedDeltasAreOut(chunks: seq<string>)
    ensures Concat(FedDeltas(chunks)) == FeedAll(chunks).out
    ensures "" !in FedDeltas(chunks)
  {
    hide Find, FindFrom, OccursAt, Held, HeldFrom, IsHeld, TailOpensTag;
    if chunks == [] {
    } else {
      var front := chunks[..|chunks| - 1];
      FedDeltasAreOut(front);
      var s := FeedAll(front);
      var visible := Scan(s.buffer + chunks[|chunks| - 1], s.inside).out;
      ConcatNonEmpty(FedDeltas(front), visible);
    }
  }

  /** What the rest of the platform sees of a model: never an empty delta; after a complete
      stream, exactly the stripped text; after a failed one, all but six characters of what had
      been produced by then. */
  lemma {:induction false} VisibleDeltasMeaning(chunks: seq<string>, failsAfter: Option<nat>)
    requires failsAfter.Some? ==> failsAfter.value <= |chunks|
    ensures "" !in VisibleDeltas(chunks, failsAfter)
    ensures failsAfter.None? ==>
              Concat(VisibleDeltas(chunks, failsAfter)) == Strip(Concat(chunks), false)
    ensures failsAfter.Some? ==>
              var due := Strip(Concat(chunks[..failsAfter.value]), false);
              var shown := Concat(VisibleDeltas(chunks, failsAfter));
              shown <= due && |due| - |shown| <= 6
  {
    hide Find, FindFrom, OccursAt, Held, HeldFrom, IsHeld, TailOpensTag;
    match failsAfter {
      case Some(k) =>
        FedDeltasAreOut(chunks[..k]);
        HoldsBackAtMostSix(chunks[..k]);
      case None =>
        FedDeltasAreOut(chunks);
        FilterIsStrip(chunks);
        ConcatNonEmpty(FedDeltas(chunks), Flushed(FeedAll(chunks)));
    }
  }

  /** A text without the opening tag is shown whole, down to a last `<` that might have begun one. */
  lemma {:induction false} NoTagShownWhole(chunks: seq<string>)
    requires forall j :: !OccursAt(Concat(chunks), "<think>", j)
    ensures Strip(Concat(chunks), false) == Concat(chunks)
    ensures FeedAll(chunks).out + Flushed(FeedAll(chunks)) == Concat(chunks)
    ensures Concat(VisibleDeltas(chunks, None)) == Concat(chunks)
  {
    assert Find(Concat(chunks), THINK_OPEN) == -1;
    hide Find, FindFrom, OccursAt, FeedAll, Scan;
    FilterIsStrip(chunks);
    VisibleDeltasMeaning(chunks, None);
  }

  /** Two ways of cutting one text agree, even on the state left behind. */
  lemma {:induction false} CutsAgree(deltas: seq<string>, others: seq<string>)
    requires Concat(deltas) == Concat(others)
    ensures FeedAll(deltas) == FeedAll(others)
  {
    FeedAllIsScan(deltas);
    FeedAllIsScan(others);
  }

  /** A stream cut short has only released the beginning of what it would have released. */
  lemma {:induction false} DeltasNeverOverstate(chunks: seq<string>, failsAfter: Option<nat>)
    requires failsAfter.Some? ==> failsAfter.value <= |chunks|
    ensures Concat(VisibleDeltas(chunks, failsAfter)) <= Strip(Concat(chunks), false)
  {
    hide Strip, Scan, FedDeltas, FeedAll, Flushed;
    VisibleDeltasMeaning(chunks, failsAfter);
    if failsAfter.Some? {
      var k := failsAfter.value;
      FedDeltasAreOut(chunks[..k]);
      assert chunks[..k] + chunks[k..] == chunks;
      ConcatAppend(chunks[..k], chunks[k..]);
      FeedAllIsScan(chunks[..k]);
      ScanAppend(Concat(chunks[..k]), Concat(chunks[k..]), false);
      ScanThenFlushIsStrip(Concat(chunks), false);
      var s := Scan(Concat(chunks[..k]), false);
      var t := Scan(s.buffer + Concat(chunks[k..]), s.inside);
      Assoc(s.out, t.out, Flushed(Scan(Concat(chunks), false)));
    }
  }
}
