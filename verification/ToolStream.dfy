/**
  Printing tool blocks as an event stream and reading such a stream back.  The
  JSON encoder is a parameter: two ways of dumping, one escaping everything but
  printable ASCII, and one loader that undoes both.
*/
module ToolStream {
  import opened Prelude
  import opened Text
  import opened Json
  import opened Sse
  import opened SseFrame
  import opened ToolInput

  type Dumper = Json -> string

  predicate Printable(s: string) { forall c :: c in s ==> ' ' <= c <= '~' }

  /** Every float in the value has a literal that reads as itself, as Python's own literals do; 1 and 1.00 do not. */
  predicate Readable(load: Loader, j: Json) {
    match j
    case Float(literal) => load(literal) == Some(j)
    case Arr(items) => forall i :: 0 <= i < |items| ==> Readable(load, items[i])
    case Obj(fields) => forall key | key in fields :: Readable(load, fields[key])
    case _ => true
  }

  predicate ReadableDict(load: Loader, j: Json) { j.Obj? && Readable(load, j) }

  ghost predicate Dumps(dump: Dumper, load: Loader) {
    forall j: Json :: ReadableDict(load, j) ==>
      && load(dump(j)) == Some(j)
      && |dump(j)| >= 2 && dump(j)[0] == '{' && dump(j)[|dump(j)| - 1] == '}'
  }

  /** What `json.dumps` and `json.loads` promise for dicts; an empty text is no JSON. */
  ghost predicate Codec(ascii: Dumper, raw: Dumper, load: Loader) {
    && Dumps(ascii, load) && Dumps(raw, load) && load("") == None
    && forall j: Json :: ReadableDict(load, j) ==> Printable(ascii(j))
  }

  // ----- printing ---------------------------------------------------------

  /** An event before it is printed. */
  datatype Item = Item(name: string, payload: Json)

  function Body(ascii: Dumper, item: Item): string {
    ("event: " + item.name) + "\n" + ("data: " + ascii(item.payload))
  }

  /** `_sse_event` */
  function SseEvent(ascii: Dumper, item: Item): string { Body(ascii, item) + BREAK }

  function SseEvents(ascii: Dumper, items: seq<Item>): (r: seq<string>)
    ensures |r| == |items|
  {
    if items == [] then [] else [SseEvent(ascii, items[0])] + SseEvents(ascii, items[1..])
  }

  datatype ToolBlock = ToolBlock(id: Json, name: Json, input: Json)

  predicate Named(b: ToolBlock) { b.name.Str? && Strip(b.name.s) != "" }

  /** The id a block is sent under: its own, or a made-up one. */
  function SentId(b: ToolBlock, made: int -> string, index: nat): string {
    if b.id.Str? && Strip(b.id.s) != "" then b.id.s else made(index)
  }

  function SentInput(b: ToolBlock): (r: Json)
    requires b.name.Str?
    ensures r.Obj?
  {
    if b.input.Obj? then TrimInput(b.name.s, b.input) else TrimInput(b.name.s, Obj(map[]))
  }

  /** A block as it is sent: its id, its name and its trimmed input. */
  datatype Sent = Sent(id: string, name: string, input: Json)

  function Prepare(b: ToolBlock, made: int -> string, index: nat): (r: Option<Sent>)
    ensures r.Some? <==> Named(b)
    ensures r.Some? ==> r.value.input.Obj?
  {
    if Named(b) then Some(Sent(SentId(b, made, index), b.name.s, SentInput(b))) else None
  }

  /** What every block is sent as; a block without a name is skipped but keeps its index. */
  function PrepareAll(blocks: seq<ToolBlock>, made: int -> string): seq<Option<Sent>> {
    seq(|blocks|, i requires 0 <= i < |blocks| => Prepare(blocks[i], made, i))
  }

  function StartItem(s: Sent, index: nat): Item {
    Item("content_block_start", Obj(map[
      "type" := Str("content_block_start"), "index" := Int(index),
      "content_block" := Obj(map["type" := Str("tool_use"), "id" := Str(s.id), "name" := Str(s.name), "input" := Obj(map[])])]))
  }

  function DeltaItem(raw: Dumper, s: Sent, index: nat): Item {
    Item("content_block_delta", Obj(map[
      "type" := Str("content_block_delta"), "index" := Int(index),
      "delta" := Obj(map["type" := Str("input_json_delta"), "partial_json" := Str(raw(s.input))])]))
  }

  function StopItem(index: nat): Item {
    Item("content_block_stop", Obj(map["type" := Str("content_block_stop"), "index" := Int(index)]))
  }

  /** The events of the blocks from index on. */
  function BlockItems(raw: Dumper, sents: seq<Option<Sent>>, index: nat): seq<Item>
    decreases |sents|
  {
    if sents == [] then []
    else if sents[0].None? then BlockItems(raw, sents[1..], index + 1)
    else [StartItem(sents[0].value, index), DeltaItem(raw, sents[0].value, index), StopItem(index)]
         + BlockItems(raw, sents[1..], index + 1)
  }

  /** The start event with its message emptied; `fallback` when there is none. */
  function PreparedStart(start: Json, fallback: Json): Json {
    if !start.Obj? then fallback
    else if Get(start, "message").Obj? then
      var message := Get(start, "message").fields["content" := Arr([])]["stop_reason" := Null]["stop_sequence" := Null];
      Obj(start.fields["message" := Obj(message)])
    else start
  }

  function SentUsage(usage: Json): Json {
    if usage.Obj? && Truthy(usage) then usage else Obj(map["output_tokens" := Int(0)])
  }

  function ClosingItems(usage: Json): seq<Item> {
    [Item("message_delta", Obj(map[
       "type" := Str("message_delta"),
       "delta" := Obj(map["stop_reason" := Str("tool_use"), "stop_sequence" := Null]),
       "usage" := SentUsage(usage)])),
     Item("message_stop", Obj(map["type" := Str("message_stop")]))]
  }

  function StreamItems(raw: Dumper, made: int -> string, blocks: seq<ToolBlock>, start: Json, fallback: Json, usage: Json): seq<Item> {
    if blocks == [] then []
    else [Item("message_start", PreparedStart(start, fallback))] + BlockItems(raw, PrepareAll(blocks, made), 0) + ClosingItems(usage)
  }

  /** The three events of a named block, printed. */
  function BlockEvents(ascii: Dumper, raw: Dumper, s: Sent, index: nat): seq<string> {
    [SseEvent(ascii, StartItem(s, index)), SseEvent(ascii, DeltaItem(raw, s, index)), SseEvent(ascii, StopItem(index))]
  }

  /** What is printed so far, and what is still to come, are the events of all blocks. */
  ghost predicate PrintedUpTo(ascii: Dumper, raw: Dumper, sents: seq<Option<Sent>>, index: nat, events: seq<string>)
    requires index <= |sents|
  {
    events + SseEvents(ascii, BlockItems(raw, sents[index..], index)) == SseEvents(ascii, BlockItems(raw, sents, 0))
  }

  lemma PrintOneMore(ascii: Dumper, raw: Dumper, sents: seq<Option<Sent>>, index: nat, events: seq<string>)
    requires index < |sents| && PrintedUpTo(ascii, raw, sents, index, events)
    ensures PrintedUpTo(ascii, raw, sents, index + 1,
                        events + if sents[index].Some? then BlockEvents(ascii, raw, sents[index].value, index) else [])
  {
    assert sents[index..][0] == sents[index] && sents[index..][1..] == sents[index + 1..];
    NextBlock(ascii, raw, sents[index..], index);
    var three := if sents[index].Some? then BlockEvents(ascii, raw, sents[index].value, index) else [];
    Associate(events, three, SseEvents(ascii, BlockItems(raw, sents[index + 1..], index + 1)));
  }

  /** The loop over the blocks. */
  method PrintBlocks(ascii: Dumper, raw: Dumper, made: int -> string, blocks: seq<ToolBlock>) returns (events: seq<string>)
    ensures events == SseEvents(ascii, BlockItems(raw, PrepareAll(blocks, made), 0))
  {
    events := [];
    ghost var sents := PrepareAll(blocks, made);
    assert sents[0..] == sents;
    for index := 0 to |blocks|
      invariant PrintedUpTo(ascii, raw, sents, index, events)
    {
      PrintOneMore(ascii, raw, sents, index, events);
      var sent := Prepare(blocks[index], made, index);
      if sent.Some? {
        events := events + BlockEvents(ascii, raw, sent.value, index);
      }
    }
  }

  lemma NextBlock(ascii: Dumper, raw: Dumper, sents: seq<Option<Sent>>, index: nat)
    requires sents != []
    ensures SseEvents(ascii, BlockItems(raw, sents, index))
            == (if sents[0].Some? then BlockEvents(ascii, raw, sents[0].value, index) else [])
               + SseEvents(ascii, BlockItems(raw, sents[1..], index + 1))
  {
    if sents[0].Some? {
      var a, b, c := StartItem(sents[0].value, index), DeltaItem(raw, sents[0].value, index), StopItem(index);
      SseEventsAppend(ascii, [a, b, c], BlockItems(raw, sents[1..], index + 1));
      ThreeEvents(ascii, a, b, c);
    }
  }

  /** `_anthropic_tool_blocks_stream` */
  method ToolBlocksStream(ascii: Dumper, raw: Dumper, made: int -> string, blocks: seq<ToolBlock>,
                          start: Json, fallback: Json, usage: Json) returns (events: seq<string>)
    ensures events == SseEvents(ascii, StreamItems(raw, made, blocks, start, fallback, usage))
  {
    if blocks == [] {
      return [];
    }
    var first := Item("message_start", PreparedStart(start, fallback));
    var middle := PrintBlocks(ascii, raw, made, blocks);
    var last := SseEvents(ascii, ClosingItems(usage));
    events := [SseEvent(ascii, first)] + middle + last;
    ghost var items := BlockItems(raw, PrepareAll(blocks, made), 0);
    SseEventsAppend(ascii, [first], items);
    SseEventsAppend(ascii, [first] + items, ClosingItems(usage));
  }

  lemma ThreeEvents(ascii: Dumper, a: Item, b: Item, c: Item)
    ensures SseEvents(ascii, [a, b, c]) == [SseEvent(ascii, a), SseEvent(ascii, b), SseEvent(ascii, c)]
  {
    assert [a, b, c][1..] == [b, c] && [b, c][1..] == [c];
    assert SseEvents(ascii, [c]) == [SseEvent(ascii, c)];
  }

  lemma {:induction false} SseEventsAppend(ascii: Dumper, a: seq<Item>, b: seq<Item>)
    ensures SseEvents(ascii, a + b) == SseEvents(ascii, a) + SseEvents(ascii, b)
  {
    if a == [] {
      assert a + b == b;
    } else {
      assert (a + b)[1..] == a[1..] + b;
      SseEventsAppend(ascii, a[1..], b);
    }
  }

  // ----- parsing ----------------------------------------------------------

  datatype Parsed = Parsed(kind: Json, payload: Json)

  function ParseData(load: Loader, name: Option<string>, data: seq<string>): seq<Parsed> {
    if data == [] then []
    else
      (match load(data[0])
       case Some(Obj(fields)) =>
         if data[0] == "" || data[0] == "[DONE]" then []
         else [Parsed(if name.Some? then Str(name.value) else Get(Obj(fields), "type"), Obj(fields))]
       case _ => [])
      + ParseData(load, name, data[1..])
  }

  function ParseFrame(load: Loader, frame: string): seq<Parsed> {
    var lines := SplitLines(frame);
    var data := DataTexts(lines);
    if data != [] then ParseData(load, EventName(lines), data)
    else match load(frame)
      case Some(Obj(fields)) => [Parsed(Get(Obj(fields), "type"), Obj(fields))]
      case _ => []
  }

  function ParseFrames(load: Loader, frames: seq<string>): seq<Parsed> {
    if frames == [] then [] else ParseFrame(load, frames[0]) + ParseFrames(load, frames[1..])
  }

  /** `_stream_item_events` of a text item: the text is split at every blank line. */
  function ParseText(load: Loader, text: string): seq<Parsed> {
    if text == "" then [] else ParseFrames(load, Frames(text).0 + [Frames(text).1])
  }

  // ----- reading back -----------------------------------------------------

  /** One accumulating tool block: what its start said and the JSON fragments since. */
  datatype Entry = Entry(id: Json, name: Json, input: Json, parts: seq<string>)

  /** A dict in insertion order. */
  type Blocks = seq<(int, Entry)>

  function Find(blocks: Blocks, index: int): Option<Entry> {
    if blocks == [] then None else if blocks[0].0 == index then Some(blocks[0].1) else Find(blocks[1..], index)
  }

  function Assign(blocks: Blocks, index: int, e: Entry): Blocks {
    if blocks == [] then [(index, e)]
    else if blocks[0].0 == index then [(index, e)] + blocks[1..]
    else [blocks[0]] + Assign(blocks[1..], index, e)
  }

  datatype Reading = Reading(start: Option<Json>, usage: Option<Json>, blocks: Blocks)

  function Kind(p: Parsed): Json {
    var t := Get(p.payload, "type");
    if Truthy(t) then t else p.kind
  }

  function ReadOne(r: Reading, p: Parsed): Reading {
    var index := AsIndex(Get(p.payload, "index"));
    if Kind(p) == Str("message_start") then r.(start := Some(p.payload))
    else if Kind(p) == Str("message_delta") then
      if Get(p.payload, "usage").Obj? then r.(usage := Some(Get(p.payload, "usage"))) else r
    else if Kind(p) == Str("content_block_start") then
      var block := Get(p.payload, "content_block");
      if index.None? || !block.Obj? || Get(block, "type") != Str("tool_use") then r
      else
        var input := if Get(block, "input").Obj? then Get(block, "input") else Obj(map[]);
        r.(blocks := Assign(r.blocks, index.value, Entry(Get(block, "id"), Get(block, "name"), input, [])))
    else if Kind(p) == Str("content_block_delta") then
      var delta := Get(p.payload, "delta");
      if index.None? || !delta.Obj? || Get(delta, "type") != Str("input_json_delta") then r
      else
        var found := Find(r.blocks, index.value);
        var e := if found.Some? then found.value else Entry(Null, Null, Obj(map[]), []);
        var part := Get(delta, "partial_json");
        r.(blocks := Assign(r.blocks, index.value, if part.Str? then e.(parts := e.parts + [part.s]) else e))
    else r
  }

  function ReadAll(r: Reading, ps: seq<Parsed>): Reading
    decreases |ps|
  {
    if ps == [] then r else ReadAll(ReadOne(r, ps[0]), ps[1..])
  }

  /** The finished input of an entry: its start's, overlaid with the joined fragments if they parse. */
  function FinishedInput(load: Loader, e: Entry): Json {
    var text := Flatten(e.parts);
    if Strip(text) == "" || !e.input.Obj? then e.input
    else
      var parsed := Coerce(load, Str(text));
      if parsed.Some? && parsed.value.Obj? then Obj(e.input.fields + parsed.value.fields) else e.input
  }

  const NOTHING := Reading(None, None, [])

  // ----- printing, then parsing -------------------------------------------

  predicate Clean(s: string) { forall c :: c in s ==> !IsLineBreak(c) }

  lemma {:induction false} LineEndAt(a: string, rest: string)
    requires Clean(a) && (rest == "" || IsLineBreak(rest[0]))
    ensures LineEnd(a + rest) == |a|
  {
    if a == "" {
      assert a + rest == rest;
    } else {
      assert a[0] in a && (a + rest)[1..] == a[1..] + rest;
      assert Clean(a[1..]) by { forall c | c in a[1..] ensures !IsLineBreak(c) { assert c in a; } }
      LineEndAt(a[1..], rest);
    }
  }

  lemma OneLine(b: string)
    requires Clean(b) && b != ""
    ensures SplitLines(b) == [b]
  {
    LineEndAt(b, "");
    assert b + "" == b;
  }

  lemma TwoLines(a: string, b: string)
    requires Clean(a) && Clean(b) && b != ""
    ensures SplitLines(a + "\n" + b) == [a, b]
  {
    var s := a + "\n" + b;
    LineEndAt(a, "\n" + b);
    assert s == a + ("\n" + b);
    assert s[..|a|] == a && s[|a|] == '\n' && s[|a| + 1..] == b;
    OneLine(b);
  }

  lemma NewlineAt(a: string, b: string, i: nat)
    requires Clean(a) && Clean(b) && i < |a + "\n" + b|
    ensures (a + "\n" + b)[i] == '\n' ==> i == |a|
  {
    if i < |a| {
      assert (a + "\n" + b)[i] == a[i] && a[i] in a;
    } else if i > |a| {
      assert (a + "\n" + b)[i] == b[i - |a| - 1] && b[i - |a| - 1] in b;
    }
  }

  lemma NoBreakIn(a: string, b: string)
    requires Clean(a) && Clean(b)
    ensures FindBreak(a + "\n" + b).None?
  {
    var r := FindBreak(a + "\n" + b);
    if r.Some? {
      NewlineAt(a, b, r.value);
      NewlineAt(a, b, r.value + 1);
    }
  }

  lemma {:induction false} BreakAfter(body: string, rest: string)
    requires FindBreak(body).None? && body != "" && body[|body| - 1] != '\n'
    ensures FindBreak(body + BREAK + rest) == Some(|body|)
  {
    var s := body + BREAK + rest;
    if |body| == 1 {
      assert s[1..] == BREAK + rest && s[0] == body[0] && s[1] == '\n';
      assert (BREAK + rest)[0] == '\n' && (BREAK + rest)[1] == '\n';
    } else {
      assert s[0] == body[0] && s[1] == body[1];
      assert s[1..] == body[1..] + BREAK + rest;
      BreakAfter(body[1..], rest);
    }
  }

  /** Event names the printer uses: not empty, printable, no blanks. */
  predicate GoodName(name: string) { name != "" && forall i :: 0 <= i < |name| ==> '!' <= name[i] <= '~' }

  predicate GoodItems(load: Loader, items: seq<Item>) {
    forall i :: 0 <= i < |items| ==> GoodName(items[i].name) && ReadableDict(load, items[i].payload)
  }

  lemma BodyLines(ascii: Dumper, raw: Dumper, load: Loader, item: Item)
    requires Codec(ascii, raw, load) && GoodName(item.name) && ReadableDict(load, item.payload)
    ensures SplitLines(Body(ascii, item)) == ["event: " + item.name, "data: " + ascii(item.payload)]
    ensures FindBreak(Body(ascii, item)).None? && Body(ascii, item) != ""
    ensures Body(ascii, item)[|Body(ascii, item)| - 1] == '}'
  {
    var a, b := "event: " + item.name, "data: " + ascii(item.payload);
    forall c | c in a ensures !IsLineBreak(c) {
      assert c in "event: " || c in item.name;
    }
    forall c | c in b ensures !IsLineBreak(c) { assert c in "data: " || c in ascii(item.payload); }
    TwoLines(a, b);
    NoBreakIn(a, b);
  }

  lemma NameReads(name: string)
    requires GoodName(name)
    ensures Strip("event: " + name) == "event: " + name && Strip(("event: " + name)[6..]) == name
    ensures StartsWith("event: " + name, "event:") && !StartsWith("event: " + name, "data:")
  {
    var line := "event: " + name;
    StripTight(line);
    assert line[..6] == "event:";
    assert line[6..] == " " + name;
    StripBlankHead(name);
  }

  lemma DataReads(text: string)
    requires |text| >= 2 && text[0] == '{' && text[|text| - 1] == '}'
    ensures Strip("data: " + text) == "data: " + text && Strip(("data: " + text)[5..]) == text
    ensures StartsWith("data: " + text, "data:") && !StartsWith("data: " + text, "event:")
  {
    var line := "data: " + text;
    StripTight(line);
    assert line[..5] == "data:";
    assert line[5..] == " " + text;
    StripBlankHead(text);
    assert line[0] == 'd';
  }

  lemma StripBlankHead(s: string)
    requires s != "" && !IsSpace(s[0]) && !IsSpace(s[|s| - 1])
    ensures Strip(" " + s) == s
  {
    assert (" " + s)[1..] == s;
    assert LStrip(s) == s;
  }

  /** What two lines, an event line and a data line, are read as. */
  lemma TwoLineTexts(a: string, b: string, name: string, data: string)
    requires Strip(a) == a && StartsWith(a, "event:") && !StartsWith(a, "data:") && Strip(a[6..]) == name != ""
    requires Strip(b) == b && StartsWith(b, "data:") && !StartsWith(b, "event:") && Strip(b[5..]) == data
    ensures DataTexts([a, b]) == [data] && EventName([a, b]) == Some(name)
  {
    assert [a, b][1..] == [b] && [b][1..] == [];
    assert DataTexts([b]) == [data] + DataTexts([]);
    assert [a, b][..1] == [a] && [a][..0] == [];
    assert EventName([a]) == Some(name);
  }

  lemma LinesParse(load: Loader, frame: string, a: string, b: string, name: string, data: string, payload: Json)
    requires SplitLines(frame) == [a, b]
    requires DataTexts([a, b]) == [data] && EventName([a, b]) == Some(name)
    requires load(data) == Some(payload) && payload.Obj? && data != "" && data[0] == '{'
    ensures ParseFrame(load, frame) == [Parsed(Str(name), payload)]
  {
    OneDatum(load, Some(name), data, payload);
  }

  lemma EventLinesRead(name: string, data: string)
    requires GoodName(name) && |data| >= 2 && data[0] == '{' && data[|data| - 1] == '}'
    ensures DataTexts(["event: " + name, "data: " + data]) == [data]
    ensures EventName(["event: " + name, "data: " + data]) == Some(name)
  {
    NameReads(name);
    DataReads(data);
    TwoLineTexts("event: " + name, "data: " + data, name, data);
  }

  lemma FrameParses(ascii: Dumper, raw: Dumper, load: Loader, item: Item)
    requires Codec(ascii, raw, load) && GoodName(item.name) && ReadableDict(load, item.payload)
    ensures ParseFrame(load, Body(ascii, item)) == [Parsed(Str(item.name), item.payload)]
  {
    var data := ascii(item.payload);
    BodyLines(ascii, raw, load, item);
    EventLinesRead(item.name, data);
    LinesParse(load, Body(ascii, item), "event: " + item.name, "data: " + data, item.name, data, item.payload);
  }

  lemma OneDatum(load: Loader, name: Option<string>, data: string, payload: Json)
    requires name.Some? && load(data) == Some(payload) && payload.Obj? && data != "" && data[0] == '{'
    ensures ParseData(load, name, [data]) == [Parsed(Str(name.value), payload)]
  {
    assert [data][1..] == [];
    assert ParseData(load, name, []) == [];
  }

  function AsParsed(items: seq<Item>): seq<Parsed> {
    if items == [] then [] else [Parsed(Str(items[0].name), items[0].payload)] + AsParsed(items[1..])
  }

  function Bodies(ascii: Dumper, items: seq<Item>): seq<string> {
    if items == [] then [] else [Body(ascii, items[0])] + Bodies(ascii, items[1..])
  }

  lemma {:induction false} PrintedFrames(ascii: Dumper, raw: Dumper, load: Loader, items: seq<Item>)
    requires Codec(ascii, raw, load) && GoodItems(load, items)
    ensures Frames(Flatten(SseEvents(ascii, items))) == (Bodies(ascii, items), "")
    decreases |items|
  {
    if items != [] {
      var body, rest := Body(ascii, items[0]), Flatten(SseEvents(ascii, items[1..]));
      var text := Flatten(SseEvents(ascii, items));
      assert text == body + BREAK + rest;
      BodyLines(ascii, raw, load, items[0]);
      BreakAfter(body, rest);
      assert text[..|body|] == body && text[|body| + 2..] == rest;
      PrintedFrames(ascii, raw, load, items[1..]);
    }
  }

  lemma EmptyFrameParses(ascii: Dumper, raw: Dumper, load: Loader)
    requires Codec(ascii, raw, load)
    ensures ParseFrames(load, [""]) == []
  {
    assert SplitLines("") == [] && DataTexts([]) == [];
    assert [""][1..] == [] && ParseFrame(load, "") == [];
  }

  lemma FirstBodyParses(ascii: Dumper, load: Loader, items: seq<Item>)
    requires items != []
    ensures ParseFrames(load, Bodies(ascii, items) + [""])
            == ParseFrame(load, Body(ascii, items[0])) + ParseFrames(load, Bodies(ascii, items[1..]) + [""])
  {
    assert (Bodies(ascii, items) + [""])[1..] == Bodies(ascii, items[1..]) + [""];
  }

  lemma {:induction false} BodiesParse(ascii: Dumper, raw: Dumper, load: Loader, items: seq<Item>)
    requires Codec(ascii, raw, load) && GoodItems(load, items)
    ensures ParseFrames(load, Bodies(ascii, items) + [""]) == AsParsed(items)
    decreases |items|
  {
    if items == [] {
      EmptyFrameParses(ascii, raw, load);
      assert Bodies(ascii, items) + [""] == [""];
    } else {
      FrameParses(ascii, raw, load, items[0]);
      BodiesParse(ascii, raw, load, items[1..]);
      FirstBodyParses(ascii, load, items);
    }
  }

  /** Parsing what was printed gives the events back, in order. */
  lemma ParsePrinted(ascii: Dumper, raw: Dumper, load: Loader, items: seq<Item>)
    requires Codec(ascii, raw, load) && GoodItems(load, items)
    ensures ParseText(load, Flatten(SseEvents(ascii, items))) == AsParsed(items)
  {
    PrintedFrames(ascii, raw, load, items);
    BodiesParse(ascii, raw, load, items);
  }
}
