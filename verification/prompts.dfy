/** `app/services/ai/prompts.py`: what of the retrieved passages reaches the model, and how the
    citations shown to the visitor line up with it. */
module Prompts {
  import opened Arithmetic
  import opened Text

  const NO_CONTEXT: string :=
    "No relevant reference material was retrieved for this question. Tell the user you do " +
    "not have information about it in the available documents."

  const EXCERPT_LENGTH := 300

  /** A retrieved chunk. Metadata keeps its order; a key may be present without a value. */
  datatype Passage = Passage(chunkId: nat, documentId: nat, content: string,
                             metadata: seq<(string, Option<string>)>)

  datatype Citation = Citation(marker: nat, chunkId: nat, documentId: nat, excerpt: string,
                               metadata: seq<(string, Option<string>)>)

  /** One passage as the model sees it, under its `[marker]`. */
  datatype Block = Block(marker: nat, descriptor: string, body: string)

  /** `s[:n]`, counting from the end when `n` is negative. */
  function Slice(s: string, n: int): string {
    if n >= 0 then s[..Min(n, |s|)]
    else if |s| + n >= 0 then s[..|s| + n]
    else ""
  }

  function BuildCitations(matches: seq<Passage>): (r: seq<Citation>)
    ensures |r| == |matches|
    ensures forall k :: 0 <= k < |r| ==>
              && r[k].marker == k + 1 && r[k].chunkId == matches[k].chunkId
              && r[k].documentId == matches[k].documentId && r[k].metadata == matches[k].metadata
              && r[k].excerpt <= matches[k].content && |r[k].excerpt| == Min(300, |matches[k].content|)
  {
    seq(|matches|, i requires 0 <= i < |matches| =>
      Citation(i + 1, matches[i].chunkId, matches[i].documentId,
               Slice(matches[i].content, EXCERPT_LENGTH), matches[i].metadata))
  }

  function Descriptor(metadata: seq<(string, Option<string>)>): string {
    Join(", ", Pairs(metadata))
  }

  function Pairs(metadata: seq<(string, Option<string>)>): seq<string> {
    if metadata == [] then []
    else Pair(metadata[0]) + Pairs(metadata[1..])
  }

  function Pair(entry: (string, Option<string>)): seq<string> {
    match entry.1
    case Some(v) => [entry.0 + "=" + v]
    case None => []
  }

  function Join(sep: string, parts: seq<string>): string {
    if parts == [] then ""
    else if |parts| == 1 then parts[0]
    else parts[0] + sep + Join(sep, parts[1..])
  }

  function Decimal(n: nat): string {
    if n < 10 then [['0', '1', '2', '3', '4', '5', '6', '7', '8', '9'][n]]
    else Decimal(n / 10) + Decimal(n % 10)
  }

  function Rendered(block: Block): string {
    "[" + Decimal(block.marker) + "]"
    + (if block.descriptor == "" then "" else " (" + block.descriptor + ")")
    + "\n" + block.body
  }

  /** The blocks still to come, with `budget` characters left and `position` next in line. */
  function Blocks(matches: seq<Passage>, position: nat, budget: int): seq<Block> {
    if matches == [] then []
    else
      var body := Body(matches[0].content, budget);
      if body == "" then []
      else
        [Block(position, Descriptor(matches[0].metadata), body)] +
        if budget - |body| <= 0 then [] else Blocks(matches[1..], position + 1, budget - |body|)
  }

  function Body(content: string, budget: int): string {
    if |content| > budget then Slice(content, budget) else content
  }

  lemma BlocksStep(matches: seq<Passage>, i: nat, budget: int)
    requires i < |matches|
    ensures var body := Body(matches[i].content, budget);
            var blocks := Blocks(matches[i..], i + 1, budget);
            var left := budget - |body|;
            && (body == "" ==> blocks == [])
            && (body != "" && left <= 0 ==>
                blocks == [Block(i + 1, Descriptor(matches[i].metadata), body)])
            && (body != "" && left > 0 ==>
                blocks == [Block(i + 1, Descriptor(matches[i].metadata), body)]
                          + Blocks(matches[i + 1..], i + 2, left))
  {
    hide Body, Descriptor;
    assert matches[i..][1..] == matches[i + 1..];
  }

  function RenderAll(blocks: seq<Block>): seq<string> {
    if blocks == [] then [] else [Rendered(blocks[0])] + RenderAll(blocks[1..])
  }

  lemma RenderSnoc(blocks: seq<Block>, block: Block)
    ensures RenderAll(blocks + [block]) == RenderAll(blocks) + [Rendered(block)]
  {
    if blocks != [] {
      assert (blocks + [block])[1..] == blocks[1..] + [block];
      RenderSnoc(blocks[1..], block);
    } else {
      assert blocks + [block] == [block];
    }
  }

  // ---------------------------------------------------------------------------------------
  // What the text is, place by place

  /** `parts` fill `text` from end to end, in order, with `sep` between one and the next. */
  ghost predicate LaidAt(text: string, sep: string, parts: seq<string>, at: seq<nat>) {
    && |at| == |parts| && (parts == [] ==> text == "") && (parts != [] ==> at[0] == 0)
    && (forall k :: 0 <= k < |parts| ==>
          at[k] + |parts[k]| <= |text| && text[at[k]..at[k] + |parts[k]|] == parts[k])
    && (forall k :: 0 <= k < |parts| - 1 ==>
          at[k + 1] == at[k] + |parts[k]| + |sep| <= |text| && text[at[k] + |parts[k]|..][..|sep|] == sep)
    && (parts != [] ==> at[|parts| - 1] + |parts[|parts| - 1]| == |text|)
  }

  ghost predicate Laid(text: string, sep: string, parts: seq<string>) {
    exists at: seq<nat> :: LaidAt(text, sep, parts, at)
  }

  /** Block after block: the marker, the descriptor in brackets if there is one, and the body on
      the next line, with a blank line between blocks. */
  ghost predicate Reads(text: string, blocks: seq<Block>) {
    exists parts: seq<string> ::
      && Laid(text, "\n\n", parts) && |parts| == |blocks|
      && forall k :: 0 <= k < |blocks| ==>
           parts[k] == (if blocks[k].descriptor == "" then "[" + Decimal(blocks[k].marker) + "]\n" + blocks[k].body
                        else "[" + Decimal(blocks[k].marker) + "] (" + blocks[k].descriptor + ")\n" + blocks[k].body)
  }

  lemma {:induction false} JoinIsLaid(sep: string, parts: seq<string>)
    ensures Laid(Join(sep, parts), sep, parts)
  {
    var text := Join(sep, parts);
    if |parts| <= 1 {
      var at: seq<nat> := if parts == [] then [] else [0];
      assert LaidAt(text, sep, parts, at);
    } else {
      JoinIsLaid(sep, parts[1..]);
      var rest := Join(sep, parts[1..]);
      var at: seq<nat> :| LaidAt(rest, sep, parts[1..], at);
      LaidBehind(rest, sep, parts, at);
    }
  }

  lemma InTail(text: string, shift: nat, rest: string, i: nat, j: nat)
    requires shift <= |text| && text[shift..] == rest && i <= j <= |rest|
    ensures shift + j <= |text| && text[shift + i..shift + j] == rest[i..j]
    ensures text[shift + i..] == rest[i..]
  {
    assert text[shift..][i..j] == text[shift + i..shift + j];
    assert text[shift..][i..] == text[shift + i..];
  }

  lemma LaidBehind(rest: string, sep: string, parts: seq<string>, at: seq<nat>)
    requires |parts| >= 2 && LaidAt(rest, sep, parts[1..], at)
    ensures Laid(parts[0] + sep + rest, sep, parts)
  {
    var shift := |parts[0]| + |sep|;
    var text := parts[0] + sep + rest;
    var moved := seq(|parts|, i requires 0 <= i < |parts| => if i == 0 then 0 else at[i - 1] + shift);
    PartsMoved(text, rest, sep, parts, at, moved);
    SepsMoved(text, rest, sep, parts, at, moved);
    LastMoved(rest, sep, parts, at);
    assert LaidAt(text, sep, parts, moved);
  }

  lemma LastMoved(rest: string, sep: string, parts: seq<string>, at: seq<nat>)
    requires |parts| >= 2 && LaidAt(rest, sep, parts[1..], at)
    ensures |at| == |parts| - 1 && at[|parts| - 2] + |parts[|parts| - 1]| == |rest| && at[0] == 0
  {
    var tail := parts[1..];
    assert |tail| == |parts| - 1 && tail[|tail| - 1] == parts[|parts| - 1];
    assert tail != [];
    assert at[|tail| - 1] + |tail[|tail| - 1]| == |rest|;
  }

  ghost predicate Moved(text: string, rest: string, sep: string, parts: seq<string>, at: seq<nat>, moved: seq<nat>) {
    && |parts| >= 2 && LaidAt(rest, sep, parts[1..], at) && text == parts[0] + sep + rest
    && |moved| == |parts| && moved[0] == 0
    && forall k :: 1 <= k < |parts| ==> moved[k] == at[k - 1] + |parts[0]| + |sep|
  }

  lemma PartsMoved(text: string, rest: string, sep: string, parts: seq<string>, at: seq<nat>, moved: seq<nat>)
    requires Moved(text, rest, sep, parts, at, moved)
    ensures forall k :: 0 <= k < |parts| ==>
              moved[k] + |parts[k]| <= |text| && text[moved[k]..moved[k] + |parts[k]|] == parts[k]
  {
    var shift := |parts[0]| + |sep|;
    assert text[shift..] == rest;
    assert text[..|parts[0]|] == parts[0];
    forall k | 1 <= k < |parts|
      ensures moved[k] + |parts[k]| <= |text| && text[moved[k]..moved[k] + |parts[k]|] == parts[k]
    {
      var i := k - 1;
      assert parts[1..][i] == parts[k];
      assert at[i] + |parts[k]| <= |rest| && rest[at[i]..at[i] + |parts[k]|] == parts[k];
      hide LaidAt;
      InTail(text, shift, rest, at[i], at[i] + |parts[k]|);
    }
  }

  lemma SepsMoved(text: string, rest: string, sep: string, parts: seq<string>, at: seq<nat>, moved: seq<nat>)
    requires Moved(text, rest, sep, parts, at, moved)
    ensures forall k :: 0 <= k < |parts| - 1 ==>
              && moved[k] + |parts[k]| + |sep| <= |text| && moved[k + 1] == moved[k] + |parts[k]| + |sep|
              && text[moved[k] + |parts[k]|..][..|sep|] == sep
  {
    var shift := |parts[0]| + |sep|;
    assert text[shift..] == rest;
    assert text[|parts[0]|..][..|sep|] == sep;
    forall k | 1 <= k < |parts| - 1
      ensures moved[k] + |parts[k]| + |sep| <= |text| && moved[k + 1] == moved[k] + |parts[k]| + |sep|
      ensures text[moved[k] + |parts[k]|..][..|sep|] == sep
    {
      var i := k - 1;
      assert parts[1..][i] == parts[k];
      var j := at[i] + |parts[k]|;
      assert at[i + 1] == j + |sep| <= |rest| && rest[j..][..|sep|] == sep;
      hide LaidAt;
      InTail(text, shift, rest, j, j + |sep|);
    }
    hide LaidAt;
  }

  lemma {:induction false} RenderedEach(blocks: seq<Block>)
    ensures |RenderAll(blocks)| == |blocks|
    ensures forall k :: 0 <= k < |blocks| ==> RenderAll(blocks)[k] == Rendered(blocks[k])
  {
    if blocks != [] {
      RenderedEach(blocks[1..]);
    }
  }

  lemma RenderedIs(block: Block)
    ensures Rendered(block) ==
              if block.descriptor == "" then "[" + Decimal(block.marker) + "]\n" + block.body
              else "[" + Decimal(block.marker) + "] (" + block.descriptor + ")\n" + block.body
  {
    hide Decimal;
    var number := "[" + Decimal(block.marker) + "]";
    if block.descriptor == "" {
      assert number + "" + "\n" + block.body == number + "\n" + block.body;
      assert number + "\n" == "[" + Decimal(block.marker) + "]\n";
    } else {
      assert number + (" (" + block.descriptor + ")") + "\n" + block.body
          == "[" + Decimal(block.marker) + "] (" + block.descriptor + ")\n" + block.body;
    }
  }

  lemma JoinedReads(blocks: seq<Block>)
    ensures Reads(Join("\n\n", RenderAll(blocks)), blocks)
  {
    hide Join, Laid, Rendered, Decimal, RenderAll;
    JoinIsLaid("\n\n", RenderAll(blocks));
    RenderedEach(blocks);
    forall k | 0 <= k < |blocks| {
      RenderedIs(blocks[k]);
    }
  }

  function Value(digits: string): nat {
    if digits == "" then 0
    else
      var last := digits[|digits| - 1];
      10 * Value(digits[..|digits| - 1]) + if '0' <= last <= '9' then (last - '0') as int else 0
  }

  /** A marker is its number written in digits: nothing in front, and it reads back. */
  lemma {:induction false} DecimalReads(n: nat)
    ensures var digits := Decimal(n);
            && digits != "" && (forall k :: 0 <= k < |digits| ==> '0' <= digits[k] <= '9')
            && (digits[0] == '0' ==> n == 0) && Value(digits) == n
  {
    if n < 10 {
      assert Decimal(n)[..0] == "";
    } else {
      DecimalReads(n / 10);
      DecimalReads(n % 10);
      assert Decimal(n)[..|Decimal(n)| - 1] == Decimal(n / 10);
    }
  }

  /** The descriptor lists `key=value` for every key that has a value, in order, between commas. */
  lemma {:induction false} DescriptorLists(metadata: seq<(string, Option<string>)>, key: string, value: string,
                                           more: seq<(string, Option<string>)>)
    ensures Laid(Descriptor(metadata), ", ", Pairs(metadata)) && Pairs([]) == []
    ensures Pairs(metadata + [(key, Some(value))] + more) == Pairs(metadata) + [key + "=" + value] + Pairs(more)
    ensures Pairs(metadata + [(key, None)] + more) == Pairs(metadata) + Pairs(more)
  {
    hide Join, Laid;
    JoinIsLaid(", ", Pairs(metadata));
    OnePair(key, value);
    hide Pairs;
    PairsAppend(metadata + [(key, Some(value))], more);
    PairsAppend(metadata, [(key, Some(value))]);
    PairsAppend(metadata + [(key, None)], more);
    PairsAppend(metadata, [(key, None)]);
    assert Pairs(metadata) + [] == Pairs(metadata);
  }

  lemma OnePair(key: string, value: string)
    ensures Pairs([]) == [] && Pairs([(key, Some(value))]) == [key + "=" + value] && Pairs([(key, None)]) == []
  {
    assert Pairs([]) == [];
    var with, without: seq<(string, Option<string>)> := [(key, Some(value))], [(key, None)];
    assert with[1..] == [] && without[1..] == [];
  }

  lemma {:induction false} PairsAppend(a: seq<(string, Option<string>)>, b: seq<(string, Option<string>)>)
    ensures Pairs(a + b) == Pairs(a) + Pairs(b)
  {
    hide Pair;
    if a == [] {
      assert a + b == b;
    } else {
      assert (a + b)[1..] == a[1..] + b && (a + b)[0] == a[0] && a + b != [];
      PairsStep(a);
      PairsStep(a + b);
      hide Pairs;
      PairsAppend(a[1..], b);
    }
  }

  lemma PairsStep(metadata: seq<(string, Option<string>)>)
    requires metadata != []
    ensures Pairs(metadata) == Pair(metadata[0]) + Pairs(metadata[1..])
  {
  }

  /** `_render_context` */
  method RenderContext(matches: seq<Passage>, maxCharacters: int) returns (text: string)
    ensures text == if matches == [] then NO_CONTEXT
                    else Join("\n\n", RenderAll(Blocks(matches, 1, maxCharacters)))
    ensures matches != [] ==> Reads(text, Blocks(matches, 1, maxCharacters))
  {
    hide *;
    if matches == [] {
      return NO_CONTEXT;
    }
    var blocks: seq<string> := [];
    ghost var done: seq<Block> := [];
    var budget, i := maxCharacters, 0;
    ghost var all := Blocks(matches, 1, maxCharacters);
    assert matches[0..] == matches;
    NothingRendered();
    while i < |matches|
      invariant 0 <= i <= |matches|
      invariant blocks == RenderAll(done)
      invariant i < |matches| ==> all == done + Blocks(matches[i..], i + 1, budget)
      invariant i == |matches| ==> all == done
    {
      BlocksStep(matches, i, budget);
      BodyIs(matches[i].content, budget);
      var body := matches[i].content;
      if |body| > budget {
        body := Slice(body, budget);
      }
      if body == "" {
        assert all == done;
        break;
      }
      var block := Block(i + 1, Descriptor(matches[i].metadata), body);
      RenderSnoc(done, block);
      blocks := blocks + [Rendered(block)];
      done := done + [block];
      budget := budget - |body|;
      i := i + 1;
      if budget <= 0 {
        assert all == done;
        break;
      }
      assert i == |matches| ==> matches[i..] == [];
      NoMatchesNoBlocks(i + 1, budget);
    }
    text := Join("\n\n", blocks);
    JoinedReads(all);
  }

  lemma NothingRendered()
    ensures RenderAll([]) == []
  {
  }

  lemma NoMatchesNoBlocks(position: nat, budget: int)
    ensures Blocks([], position, budget) == []
  {
  }

  lemma BodyIs(content: string, budget: int)
    ensures Body(content, budget) == if |content| > budget then Slice(content, budget) else content
  {
  }

  // ---------------------------------------------------------------------------------------
  // What the rendering carries

  function Bodies(blocks: seq<Block>): seq<string> {
    if blocks == [] then [] else [blocks[0].body] + Bodies(blocks[1..])
  }

  function Contents(matches: seq<Passage>): seq<string> {
    if matches == [] then [] else [matches[0].content] + Contents(matches[1..])
  }

  /** Passages up to the first one with nothing in it, which is where rendering stops. */
  function BeforeEmpty(matches: seq<Passage>): seq<Passage> {
    if matches == [] || matches[0].content == "" then []
    else [matches[0]] + BeforeEmpty(matches[1..])
  }

  lemma {:induction false} BodiesOfBlocks(matches: seq<Passage>, position: nat, budget: nat)
    ensures Concat(Bodies(Blocks(matches, position, budget)))
         == Slice(Concat(Contents(BeforeEmpty(matches))), budget)
  {
    if matches == [] || matches[0].content == "" || budget == 0 {
    } else {
      var content, rest := matches[0].content, matches[1..];
      var after := Concat(Contents(BeforeEmpty(rest)));
      ContentsCons(matches[0], BeforeEmpty(rest));
      var block := Block(position, Descriptor(matches[0].metadata), Body(content, budget));
      FirstBlock(matches, position, budget);
      SliceOverTwo(content, after, budget);
      if budget <= |content| {
        hide *;
        BodiesCons(block, []);
        NoBodies();
        assert [block] + [] == [block];
        assert content[..budget] + "" == content[..budget];
      } else {
        BodiesOfBlocks(rest, position + 1, budget - |content|);
        hide *;
        assert content[..|content|] == content;
        BodiesCons(block, Blocks(rest, position + 1, budget - |content|));
      }
    }
  }

  lemma SliceOverTwo(a: string, b: string, n: nat)
    ensures Slice(a + b, n) == if n <= |a| then a[..n] else a + Slice(b, n - |a|)
  {
    if n <= |a| {
      TakeWithin(a, b, n);
    } else {
      TakeBeyond(a, b, Min(n - |a|, |b|));
    }
  }

  lemma FirstBlock(matches: seq<Passage>, position: nat, budget: nat)
    requires matches != [] && matches[0].content != "" && budget > 0
    ensures var content := matches[0].content;
            && Body(content, budget) == content[..if budget <= |content| then budget else |content|]
            && BeforeEmpty(matches) == [matches[0]] + BeforeEmpty(matches[1..])
            && Blocks(matches, position, budget) ==
                 [Block(position, Descriptor(matches[0].metadata), Body(content, budget))] +
                 if budget <= |content| then [] else Blocks(matches[1..], position + 1, budget - |content|)
  {
    hide Descriptor;
  }

  lemma NoBodies()
    ensures Concat(Bodies([])) == ""
  {
  }

  lemma BodiesCons(block: Block, rest: seq<Block>)
    ensures Concat(Bodies([block] + rest)) == block.body + Concat(Bodies(rest))
  {
    assert ([block] + rest)[1..] == rest;
    assert ([block.body] + Bodies(rest))[1..] == Bodies(rest);
  }

  lemma ContentsCons(passage: Passage, rest: seq<Passage>)
    ensures Concat(Contents([passage] + rest)) == passage.content + Concat(Contents(rest))
  {
    assert ([passage] + rest)[1..] == rest;
    assert ([passage.content] + Contents(rest))[1..] == Contents(rest);
  }

  /** The context holds exactly the first `min(maxCharacters, total)` characters of the
      passages if and only if no empty passage cuts it short: either the budget is already
      used up before the first empty passage, or nothing but empty passages follows it. */
  lemma ContextIsBudgetPrefix(matches: seq<Passage>, maxCharacters: nat)
    ensures var shown := Concat(Bodies(Blocks(matches, 1, maxCharacters)));
            var kept := BeforeEmpty(matches);
            && shown <= Concat(Contents(matches)) && |shown| <= maxCharacters
            && (shown == Slice(Concat(Contents(matches)), maxCharacters) <==>
                || maxCharacters <= |Concat(Contents(kept))|
                || forall i :: |kept| <= i < |matches| ==> matches[i].content == "")
  {
    hide Contents, Blocks, Bodies, BeforeEmpty, Concat;
    BodiesOfBlocks(matches, 1, maxCharacters);
    SplitAtEmpty(matches);
    var kept := BeforeEmpty(matches);
    var rest := matches[|kept|..];
    var a, b := Concat(Contents(kept)), Concat(Contents(rest));
    EmptyConcat(rest);
    assert (forall i :: |kept| <= i < |matches| ==> matches[i].content == "") <==> b == "" by {
      assert forall i :: |kept| <= i < |matches| ==> matches[i] == rest[i - |kept|];
      assert forall i :: 0 <= i < |rest| ==> rest[i] == matches[i + |kept|];
    }
    SliceOfConcat(a, b, maxCharacters);
  }

  /** A concrete shortfall: an empty passage in front hides the one behind it, budget or not. */
  lemma EmptyPassageHidesRest()
    ensures var matches := [Passage(1, 1, "", []), Passage(2, 1, "x", [])];
            && Concat(Bodies(Blocks(matches, 1, 10))) == ""
            && Slice(Concat(Contents(matches)), 10) == "x"
  {
    var matches := [Passage(1, 1, "", []), Passage(2, 1, "x", [])];
    assert matches[1..] == [Passage(2, 1, "x", [])] && matches[1..][1..] == [];
    assert Contents(matches[1..]) == ["x"];
    assert Contents(matches) == ["", "x"];
    assert ["", "x"][1..] == ["x"] && ["x"][1..] == [];
    assert Concat(["x"]) == "x" && Concat(["", "x"]) == "x";
  }

  lemma SliceOfConcat(a: string, b: string, n: nat)
    ensures Slice(a, n) <= a + b && |Slice(a, n)| <= n
    ensures Slice(a, n) == Slice(a + b, n) <==> n <= |a| || b == ""
  {
    if n <= |a| {
      TakeWithin(a, b, n);
    } else {
      TakeBeyond(a, b, Min(n - |a|, |b|));
    }
  }

  lemma SplitAtEmpty(matches: seq<Passage>)
    ensures var kept := BeforeEmpty(matches);
            && |kept| <= |matches|
            && Concat(Contents(matches)) == Concat(Contents(kept)) + Concat(Contents(matches[|kept|..]))
  {
    if matches == [] || matches[0].content == "" {
      assert matches[0..] == matches;
    } else {
      var rest := matches[1..];
      SplitAtEmpty(rest);
      var kept := BeforeEmpty(rest);
      assert matches == [matches[0]] + rest;
      assert matches[1 + |kept|..] == rest[|kept|..];
      ContentsCons(matches[0], rest);
      ContentsCons(matches[0], kept);
      Assoc(matches[0].content, Concat(Contents(kept)), Concat(Contents(rest[|kept|..])));
    }
  }

  lemma EmptyConcat(matches: seq<Passage>)
    ensures Concat(Contents(matches)) == "" <==>
            forall i :: 0 <= i < |matches| ==> matches[i].content == ""
  {
    if matches != [] {
      EmptyConcat(matches[1..]);
      assert ([matches[0].content] + Contents(matches[1..]))[1..] == Contents(matches[1..]);
      assert forall i :: 1 <= i < |matches| ==> matches[i] == matches[1..][i - 1];
    }
  }

  /** With the passages ingestion stores, which are never empty, the condition always holds. */
  lemma ContextOfStoredPassages(matches: seq<Passage>, maxCharacters: nat)
    requires forall i :: 0 <= i < |matches| ==> matches[i].content != ""
    ensures Concat(Bodies(Blocks(matches, 1, maxCharacters)))
         == Slice(Concat(Contents(matches)), maxCharacters)
  {
    ContextIsBudgetPrefix(matches, maxCharacters);
    NothingEmpty(matches);
  }

  lemma NothingEmpty(matches: seq<Passage>)
    requires forall i :: 0 <= i < |matches| ==> matches[i].content != ""
    ensures BeforeEmpty(matches) == matches
  {
    if matches != [] {
      NothingEmpty(matches[1..]);
    }
  }

  /** A negative budget is not "nothing": Python's slice then drops characters from the end of
      the first passage and stops there. */
  lemma NegativeBudget(matches: seq<Passage>, maxCharacters: int)
    requires matches != [] && maxCharacters < 0
    ensures var content := matches[0].content;
            var shown := Concat(Bodies(Blocks(matches, 1, maxCharacters)));
            && shown == Slice(content, maxCharacters)
            && (shown == "" <==> |content| <= -maxCharacters)
  {
    hide Descriptor;
    var body := Slice(matches[0].content, maxCharacters);
    var block := Block(1, Descriptor(matches[0].metadata), body);
    if body != "" {
      BodiesCons(block, []);
      assert [block] + [] == [block];
      assert body + "" == body;
    }
  }

  lemma {:induction false} BlockIsPassage(matches: seq<Passage>, position: nat, budget: int, k: nat)
    requires budget >= 0 && k < |Blocks(matches, position, budget)|
    ensures k < |matches|
    ensures var block := Blocks(matches, position, budget)[k];
            && block.marker == position + k && block.descriptor == Descriptor(matches[k].metadata)
            && block.body != "" && block.body <= matches[k].content
            && (k + 1 < |Blocks(matches, position, budget)| ==> block.body == matches[k].content)
  {
    hide Descriptor;
    if k > 0 {
      BlockIsPassage(matches[1..], position + 1, budget - |matches[0].content|, k - 1);
    }
  }

  /** Block `k` and citation `k` carry the same marker and the same passage: the excerpt a
      visitor is shown and the text the model was given agree as far as both go. */
  lemma BlockMatchesCitation(matches: seq<Passage>, maxCharacters: nat, k: nat)
    requires k < |Blocks(matches, 1, maxCharacters)|
    ensures k < |matches|
    ensures var block, citation := Blocks(matches, 1, maxCharacters)[k], BuildCitations(matches)[k];
            && block.marker == citation.marker == k + 1
            && citation.chunkId == matches[k].chunkId
            && block.descriptor == Descriptor(citation.metadata)
            && (block.body <= citation.excerpt || citation.excerpt <= block.body)
            && (k + 1 < |Blocks(matches, 1, maxCharacters)| ==> citation.excerpt <= block.body)
  {
    BlockIsPassage(matches, 1, maxCharacters, k);
  }
}
