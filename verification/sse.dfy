/** The wire between the chat endpoint and the widget: `_sse` in `app/api/public/chat.py` prints
    server-sent events (section 9.2 of the WHATWG HTML Living Standard) and `consumeStream` in
    `frontend/apps/widget/src/widget.js` parses them back. */
module ServerSentEvents {
  import opened Text

  const BLANK_LINE: string := "\n\n"
  const NEWLINE: string := "\n"

  /** What `String.prototype.trim` removes. */
  predicate JsSpace(c: char) {
    || c in {'\t', '\n', '\U{0B}', '\U{0C}', '\r', ' ', '\U{A0}', '\U{1680}'}
    || '\U{2000}' <= c <= '\U{200A}'
    || c in {'\U{2028}', '\U{2029}', '\U{202F}', '\U{205F}', '\U{3000}', '\U{FEFF}'}
  }

  // ---------------------------------------------------------------------------------------
  // The printer

  /** `_sse`, once the payload has been serialised. */
  function Sse(event: string, data: string): string {
    FrameText(event, data) + BLANK_LINE
  }

  function FrameText(event: string, data: string): string {
    ("event: " + event) + (NEWLINE + ("data: " + data))
  }

  // ---------------------------------------------------------------------------------------
  // The parser, as a function of the text received

  /** `text.split(sep)` */
  function Split(text: string, sep: string): (pieces: seq<string>)
    requires sep != ""
    ensures pieces != []
    decreases |text|
  {
    var at := Find(text, sep);
    if at == -1 then [text] else [text[..at]] + Split(text[at + |sep|..], sep)
  }

  function Last(pieces: seq<string>): string
    requires pieces != []
  {
    pieces[|pieces| - 1]
  }

  function Init(pieces: seq<string>): seq<string>
    requires pieces != []
  {
    pieces[..|pieces| - 1]
  }

  /** The complete frames of a text, and the incomplete one after them. */
  datatype Framed = Framed(frames: seq<string>, rest: string)

  function Frames(text: string): Framed {
    var pieces := Split(text, BLANK_LINE);
    Framed(Init(pieces), Last(pieces))
  }

  datatype Fields = Fields(event: string, data: string)

  function ReadLine(fields: Fields, line: string): Fields {
    if "event:" <= line then fields.(event := Trim(line[6..], JsSpace))
    else if "data:" <= line then fields.(data := fields.data + Trim(line[5..], JsSpace))
    else fields
  }

  function ReadLines(lines: seq<string>): Fields {
    if lines == [] then Fields("message", "")
    else ReadLine(ReadLines(lines[..|lines| - 1]), lines[|lines| - 1])
  }

  /** The last line that names an event wins; without one it is a "message". */
  lemma {:induction false} LastEventWins(before: seq<string>, line: string, after: seq<string>)
    requires forall i :: 0 <= i < |after| ==> !("event:" <= after[i])
    ensures ReadLines(after).event == "message"
    ensures "event:" <= line ==> ReadLines(before + [line] + after).event == Trim(line[6..], JsSpace)
  {
    hide Trim, JsSpace;
    var lines := before + [line] + after;
    if after == [] {
      assert lines[..|lines| - 1] == before;
    } else {
      LastEventWins(before, line, after[..|after| - 1]);
      assert lines[..|lines| - 1] == before + [line] + after[..|after| - 1];
    }
  }

  /** What a data line carries. */
  function DataOf(line: string): string {
    if "data:" <= line then Trim(line[5..], JsSpace) else ""
  }

  function DataParts(lines: seq<string>): (parts: seq<string>)
    ensures |parts| == |lines| && forall i :: 0 <= i < |lines| ==> parts[i] == DataOf(lines[i])
  {
    seq(|lines|, i requires 0 <= i < |lines| => DataOf(lines[i]))
  }

  /** The data lines are joined as they come, each trimmed, and other lines add nothing. */
  lemma {:induction false} DataLinesJoin(lines: seq<string>)
    ensures ReadLines(lines).data == Concat(DataParts(lines))
  {
    hide *;
    if lines == [] {
      NoDataLines();
    } else {
      var n := |lines| - 1;
      DataLinesJoin(lines[..n]);
      OneDataLine(lines);
      DataPartsSnoc(lines);
      ConcatSnoc(DataParts(lines[..n]), DataOf(lines[n]));
    }
  }

  lemma NoDataLines()
    ensures ReadLines([]).data == Concat(DataParts([]))
  {
  }

  lemma DataPartsSnoc(lines: seq<string>)
    requires lines != []
    ensures DataParts(lines) == DataParts(lines[..|lines| - 1]) + [DataOf(lines[|lines| - 1])]
  {
    hide DataOf;
  }

  lemma OneDataLine(lines: seq<string>)
    requires lines != []
    ensures ReadLines(lines).data == ReadLines(lines[..|lines| - 1]).data + DataOf(lines[|lines| - 1])
  {
    hide Trim, JsSpace;
    var before, line := ReadLines(lines[..|lines| - 1]), lines[|lines| - 1];
    assert ReadLines(lines) == ReadLine(before, line);
    hide ReadLines;
    if "event:" <= line {
      assert line[0] == 'e';
      assert before.data + "" == before.data;
    } else if !("data:" <= line) {
      assert before.data + "" == before.data;
    }
  }

  /** A call to the handler, with the payload already parsed. */
  datatype Call<+T> = Call(event: string, payload: T)

  /** A frame without data is ignored; one whose data does not parse is logged and dropped. */
  function Handle<T>(frame: string, parse: string -> Option<T>): seq<Call<T>> {
    var fields := ReadLines(Split(frame, NEWLINE));
    if fields.data == "" then []
    else match parse(fields.data)
      case Some(payload) => [Call(fields.event, payload)]
      case None => []
  }

  /** The handler is called at most once a frame, and exactly when the frame's data lines together say
      something that parses; any other frame passes without a trace. */
  lemma {:induction false} HandledWhen<T>(frames: seq<string>, k: nat, parse: string -> Option<T>)
    requires k < |frames|
    ensures var fields := ReadLines(Split(frames[k], "\n"));
            Handle(frames[k], parse) ==
              if fields.data != "" && parse(fields.data).Some?
              then [Call(fields.event, parse(fields.data).value)] else []
    ensures HandleAll(frames, parse) ==
              HandleAll(frames[..k], parse) + Handle(frames[k], parse) + HandleAll(frames[k + 1..], parse)
  {
    hide ReadLines, Split;
    assert frames == frames[..k + 1] + frames[k + 1..];
    HandleOneMore(frames, k, parse);
    HandleAllAppend(frames[..k + 1], frames[k + 1..], parse);
    hide *;
  }

  function HandleAll<T>(frames: seq<string>, parse: string -> Option<T>): seq<Call<T>> {
    if frames == [] then []
    else HandleAll(frames[..|frames| - 1], parse) + Handle(frames[|frames| - 1], parse)
  }

  // ---------------------------------------------------------------------------------------
  // The parser as written: a buffer that survives from read to read

  class StreamConsumer<T> {
    const parse: string -> Option<T>
    var buffer: string
    var calls: seq<Call<T>>

    constructor (parse: string -> Option<T>)
      ensures this.parse == parse && buffer == "" && calls == []
    {
      this.parse := parse;
      buffer, calls := "", [];
    }

    method Pump(chunk: string)
      modifies this
      ensures var framed := Frames(old(buffer) + chunk);
              buffer == framed.rest && calls == old(calls) + HandleAll(framed.frames, parse)
    {
      hide Find, FindFrom, OccursAt, Split, ReadLines;
      buffer := buffer + chunk;
      var pieces := Split(buffer, BLANK_LINE);
      var frames := pieces[..|pieces| - 1];
      buffer := pieces[|pieces| - 1];
      for i := 0 to |frames|
        invariant buffer == pieces[|pieces| - 1]
        invariant calls == old(calls) + HandleAll(frames[..i], parse)
      {
        var event, data := ReadFrame(frames[i]);
        HandleOneMore(frames, i, parse);
        if data != "" {
          var parsed := parse(data);
          if parsed.Some? {
            calls := calls + [Call(event, parsed.value)];
          }
        }
      }
      assert frames[..|frames|] == frames;
    }
  }

  method ReadFrame(frame: string) returns (event: string, data: string)
    ensures Fields(event, data) == ReadLines(Split(frame, NEWLINE))
  {
    hide Trim, JsSpace, Split;
    event, data := "message", "";
    var lines := Split(frame, NEWLINE);
    for j := 0 to |lines|
      invariant Fields(event, data) == ReadLines(lines[..j])
    {
      assert lines[..j + 1][..j] == lines[..j];
      if "event:" <= lines[j] {
        event := Trim(lines[j][6..], JsSpace);
      } else if "data:" <= lines[j] {
        data := data + Trim(lines[j][5..], JsSpace);
      }
    }
    assert lines[..|lines|] == lines;
  }

  lemma HandleOneMore<T>(frames: seq<string>, i: nat, parse: string -> Option<T>)
    requires i < |frames|
    ensures HandleAll(frames[..i + 1], parse)
         == HandleAll(frames[..i], parse) + Handle(frames[i], parse)
  {
    assert frames[..i + 1][..i] == frames[..i];
  }

  /** `consumeStream`: pump until the network is done; what is left in the buffer is dropped. */
  method ConsumeStream<T>(chunks: seq<string>, parse: string -> Option<T>)
    returns (calls: seq<Call<T>>, leftover: string)
    ensures calls == HandleAll(Frames(Concat(chunks)).frames, parse)
    ensures leftover == Frames(Concat(chunks)).rest
  {
    hide *;
    var consumer := new StreamConsumer(parse);
    NothingConsumed(chunks, parse);
    for i := 0 to |chunks|
      invariant fresh(consumer) && consumer.parse == parse
      invariant Frames(Concat(chunks[..i])).rest == consumer.buffer
      invariant consumer.calls == HandleAll(Frames(Concat(chunks[..i])).frames, parse)
    {
      ConsumedOneMore(chunks, i, parse);
      consumer.Pump(chunks[i]);
    }
    assert chunks[..|chunks|] == chunks;
    return consumer.calls, consumer.buffer;
  }

  // ---------------------------------------------------------------------------------------
  // Chunk boundaries do not matter

  lemma {:induction false} SplitAppend(a: string, b: string, sep: string)
    requires sep != ""
    ensures Split(a + b, sep) == Init(Split(a, sep)) + Split(Last(Split(a, sep)) + b, sep)
    decreases |a|
  {
    hide *;
    var at := Find(a, sep);
    SplitOnce(a, sep);
    if at == -1 {
      NoneBefore(a, Split(a + b, sep));
    } else {
      FindInLonger(a, b, sep);
      SplitOnce(a + b, sep);
      TakeWithin(a, b, at);
      TakeWithin(a, b, at + |sep|);
      var rest := a[at + |sep|..];
      SplitAppend(rest, b, sep);
      var tail := Split(rest, sep);
      OneBefore(a[..at], tail, Split(Last(tail) + b, sep));
    }
  }

  lemma SplitOnce(text: string, sep: string)
    requires sep != ""
    ensures var at := Find(text, sep);
            && (at == -1 ==> Split(text, sep) == [text])
            && (at != -1 ==> at + |sep| <= |text| && Split(text, sep) == [text[..at]] + Split(text[at + |sep|..], sep))
  {
    hide Find, FindFrom, OccursAt;
  }

  lemma NoneBefore(text: string, pieces: seq<string>)
    ensures Init([text]) + pieces == pieces && Last([text]) == text
  {
  }

  lemma OneBefore(first: string, tail: seq<string>, more: seq<string>)
    requires tail != []
    ensures Init([first] + tail) + more == [first] + (Init(tail) + more) && Last([first] + tail) == Last(tail)
  {
    assert Init([first] + tail) == [first] + Init(tail);
  }

  /** Reading on after a cut gives the frames of the whole text, and the same remainder. */
  lemma FramesAppend(a: string, b: string)
    ensures var fa := Frames(a); var fb := Frames(fa.rest + b);
            Frames(a + b) == Framed(fa.frames + fb.frames, fb.rest)
  {
    hide Find, FindFrom, OccursAt, Split;
    SplitAppend(a, b, BLANK_LINE);
  }

  lemma {:induction false} HandleAllAppend<T>(xs: seq<string>, ys: seq<string>, parse: string -> Option<T>)
    ensures HandleAll(xs + ys, parse) == HandleAll(xs, parse) + HandleAll(ys, parse)
  {
    hide Handle;
    if ys == [] {
      assert xs + ys == xs;
    } else {
      var n := |ys| - 1;
      assert (xs + ys)[..|xs + ys| - 1] == xs + ys[..n];
      HandleAllAppend(xs, ys[..n], parse);
    }
  }

  /** A connection cut anywhere, inside a frame included, has delivered the first of the calls. */
  lemma CallsGrow<T>(a: string, b: string, parse: string -> Option<T>)
    ensures HandleAll(Frames(a).frames, parse) <= HandleAll(Frames(a + b).frames, parse)
  {
    FramesAppend(a, b);
    HandleAllAppend(Frames(a).frames, Frames(Frames(a).rest + b).frames, parse);
    hide Frames, HandleAll;
  }

  lemma NothingConsumed<T>(chunks: seq<string>, parse: string -> Option<T>)
    ensures Frames(Concat(chunks[..0])) == Framed([], "")
    ensures HandleAll(Frames(Concat(chunks[..0])).frames, parse) == []
  {
    assert chunks[..0] == [];
    assert Find("", BLANK_LINE) == -1;
  }

  lemma ConsumedOneMore<T>(chunks: seq<string>, i: nat, parse: string -> Option<T>)
    requires i < |chunks|
    ensures var before := Frames(Concat(chunks[..i]));
            var now := Frames(before.rest + chunks[i]);
            var after := Frames(Concat(chunks[..i + 1]));
            && after.rest == now.rest
            && HandleAll(after.frames, parse)
            == HandleAll(before.frames, parse) + HandleAll(now.frames, parse)
  {
    hide Frames, Handle, HandleAll, Concat;
    assert chunks[..i + 1] == chunks[..i] + [chunks[i]];
    ConcatSnoc(chunks[..i], chunks[i]);
    FramesAppend(Concat(chunks[..i]), chunks[i]);
    var before := Frames(Concat(chunks[..i]));
    HandleAllAppend(before.frames, Frames(before.rest + chunks[i]).frames, parse);
  }

  // ---------------------------------------------------------------------------------------
  // What is printed is what is read

  /** What the printer's two arguments have to satisfy for the frame to survive the trip. JSON
      text does: section 7 of RFC 8259 makes it escape line feeds, and it starts and ends with
      a bracket. */
  predicate Printable(s: string) {
    '\n' !in s && s != "" && !JsSpace(s[0]) && !JsSpace(s[|s| - 1])
  }

  datatype Printed = Printed(event: string, data: string)

  function Wire(events: seq<Printed>): string {
    if events == [] then ""
    else Sse(events[0].event, events[0].data) + Wire(events[1..])
  }

  lemma FindNewline(a: string, b: string)
    requires '\n' !in a
    ensures Find(a + (NEWLINE + b), NEWLINE) == |a|
  {
    var text := a + (NEWLINE + b);
    assert text[|a|..|a| + 1] == NEWLINE;
    assert OccursAt(text, NEWLINE, |a|);
    var r := Find(text, NEWLINE);
    assert text[r..r + 1][0] == text[r];
  }

  lemma NoNewline(a: string)
    requires '\n' !in a
    ensures Find(a, NEWLINE) == -1
  {
    NewlineOccurs(a, Find(a, NEWLINE));
  }

  lemma NewlineOccurs(a: string, j: int)
    ensures OccursAt(a, NEWLINE, j) ==> '\n' in a
  {
    if OccursAt(a, NEWLINE, j) {
      assert a[j..j + 1][0] == a[j];
    }
  }

  lemma FindBlankLine(body: string, rest: string)
    requires forall i :: 0 <= i < |body| && body[i] == '\n' ==> i + 1 < |body| && body[i + 1] != '\n'
    ensures Find((body + BLANK_LINE) + rest, BLANK_LINE) == |body|
  {
    var text := (body + BLANK_LINE) + rest;
    assert text[|body|..|body| + 2] == BLANK_LINE;
    assert OccursAt(text, BLANK_LINE, |body|);
    var r := Find(text, BLANK_LINE);
    assert text[r..r + 2][0] == text[r] && text[r..r + 2][1] == text[r + 1];
  }

  lemma FrameHasNoBlankLine(event: string, data: string)
    requires '\n' !in event && '\n' !in data
    ensures var body := FrameText(event, data);
            forall i :: 0 <= i < |body| && body[i] == '\n' ==> i + 1 < |body| && body[i + 1] != '\n'
  {
    var body, first, second := FrameText(event, data), "event: " + event, "data: " + data;
    forall i | 0 <= i < |body| && i != |first|
      ensures body[i] != '\n'
    {
      if i < |first| {
        assert body[i] == first[i];
        assert i >= 7 ==> first[i] == event[i - 7];
      } else {
        assert body[i] == second[i - |first| - 1];
        assert i - |first| - 1 >= 6 ==> second[i - |first| - 1] == data[i - |first| - 7];
      }
    }
  }

  lemma {:induction false} ReadPrintedFrame(event: string, data: string)
    requires Printable(event) && Printable(data)
    ensures ReadLines(Split(FrameText(event, data), NEWLINE)) == Fields(event, data)
  {
    SplitPrintedFrame(event, data);
    ReadTwoLines("event: " + event, "data: " + data);
    ReadPrintedLines(event, data);
  }

  lemma ReadTwoLines(first: string, second: string)
    ensures ReadLines([first, second]) == ReadLine(ReadLine(Fields("message", ""), first), second)
  {
    hide ReadLine;
    assert [first, second][..1] == [first] && [first][..0] == [];
    assert ReadLines([first]) == ReadLine(ReadLines([]), first);
    assert ReadLines([first, second]) == ReadLine(ReadLines([first]), second);
  }

  lemma {:induction false} ReadPrintedLines(event: string, data: string)
    requires Printable(event) && Printable(data)
    ensures ReadLine(Fields("message", ""), "event: " + event) == Fields(event, "")
    ensures ReadLine(Fields(event, ""), "data: " + data) == Fields(event, data)
  {
    hide Trim, JsSpace;
    var first, second := "event: " + event, "data: " + data;
    assert first[6..] == " " + event && first[0] == 'e';
    assert second[5..] == " " + data && second[0] == 'd';
    TrimOneSpace(event);
    TrimOneSpace(data);
    assert "" + data == data;
  }

  lemma TrimOneSpace(s: string)
    requires Printable(s)
    ensures Trim(" " + s, JsSpace) == s
  {
    assert (" " + s)[1..] == s;
  }

  lemma SplitPrintedFrame(event: string, data: string)
    requires Printable(event) && Printable(data)
    ensures Split(FrameText(event, data), NEWLINE) == ["event: " + event, "data: " + data]
  {
    hide Find, FindFrom, OccursAt;
    var first, second := "event: " + event, "data: " + data;
    FindNewline(first, second);
    NoNewline(second);
    TakeBeyond(first, NEWLINE + second, 0);
    TakeBeyond(first, NEWLINE + second, 1);
    assert (NEWLINE + second)[1..] == second;
    assert first + (NEWLINE + second)[..0] == first;
  }

  lemma {:induction false} FramesOfWire(events: seq<Printed>)
    requires forall i :: 0 <= i < |events| ==> Printable(events[i].event) && Printable(events[i].data)
    ensures Frames(Wire(events)) == Framed(FrameTexts(events), "")
  {
    hide Find, FindFrom, OccursAt, JsSpace;
    if events == [] {
      assert Find("", BLANK_LINE) == -1;
    } else {
      var body, rest := FrameText(events[0].event, events[0].data), Wire(events[1..]);
      FrameHasNoBlankLine(events[0].event, events[0].data);
      FindBlankLine(body, rest);
      TakeBeyond(body + BLANK_LINE, rest, 0);
      Assoc(body, BLANK_LINE, rest);
      TakeWithin(body, BLANK_LINE + rest, |body|);
      FramesOfWire(events[1..]);
      var tail := Split(rest, BLANK_LINE);
      assert Init([body] + tail) == [body] + Init(tail);
    }
  }

  function FrameTexts(events: seq<Printed>): (r: seq<string>)
    ensures |r| == |events|
    ensures forall i :: 0 <= i < |events| ==> r[i] == FrameText(events[i].event, events[i].data)
  {
    if events == [] then []
    else [FrameText(events[0].event, events[0].data)] + FrameTexts(events[1..])
  }

  /** A serialiser and the matching parser: `json.dumps` and `JSON.parse`. */
  ghost predicate Lawful<T(!new)>(dump: T -> string, parse: string -> Option<T>) {
    forall payload :: Printable(dump(payload)) && parse(dump(payload)) == Some(payload)
  }

  function Print<T>(calls: seq<Call<T>>, dump: T -> string): (r: seq<Printed>)
    ensures |r| == |calls|
    ensures forall i :: 0 <= i < |calls| ==> r[i] == Printed(calls[i].event, dump(calls[i].payload))
  {
    seq(|calls|, i requires 0 <= i < |calls| => Printed(calls[i].event, dump(calls[i].payload)))
  }

  /** However the network cuts the printed text, the handler is called with exactly the events
      that were printed, in order, and nothing is left in the buffer. */
  lemma {:induction false} WireRoundTrip<T(!new)>(calls: seq<Call<T>>, chunks: seq<string>,
                               dump: T -> string, parse: string -> Option<T>)
    requires Lawful(dump, parse)
    requires forall i :: 0 <= i < |calls| ==> Printable(calls[i].event)
    requires Concat(chunks) == Wire(Print(calls, dump))
    ensures Frames(Concat(chunks)).rest == ""
    ensures HandleAll(Frames(Concat(chunks)).frames, parse) == calls
  {
    hide Frames, Printable, HandleAll;
    var events := Print(calls, dump);
    FramesOfWire(events);
    HandlePrinted(calls, FrameTexts(events), dump, parse);
  }

  lemma {:induction false} HandlePrinted<T(!new)>(calls: seq<Call<T>>, frames: seq<string>,
                                                 dump: T -> string, parse: string -> Option<T>)
    requires Lawful(dump, parse)
    requires forall i :: 0 <= i < |calls| ==> Printable(calls[i].event)
    requires |frames| == |calls|
    requires forall i :: 0 <= i < |calls| ==> frames[i] == FrameText(calls[i].event, dump(calls[i].payload))
    ensures HandleAll(frames, parse) == calls
  {
    hide Printable, ReadLines, Split, FrameText;
    if calls == [] {
    } else {
      var n := |calls| - 1;
      HandlePrinted(calls[..n], frames[..n], dump, parse);
      ReadPrintedFrame(calls[n].event, dump(calls[n].payload));
      NotEmpty(dump(calls[n].payload));
      assert calls[..n] + [calls[n]] == calls;
    }
  }

  lemma NotEmpty(s: string)
    requires Printable(s)
    ensures s != ""
  {
  }
}
