/** The printer and the parser of tool streams are inverse to each other. */
module ToolStreamTheorem {
  import opened Prelude
  import opened Text
  import opened Json
  import opened Sse
  import opened ToolInput
  import opened ToolStream

  /** What the reader should hold: every named block at its own index, with one fragment. */
  function Expected(raw: Dumper, sents: seq<Option<Sent>>, index: nat): Blocks
    decreases |sents|
  {
    if sents == [] then []
    else (if sents[0].Some? then [(index as int, EntryOf(raw, sents[0].value))] else [])
         + Expected(raw, sents[1..], index + 1)
  }

  function EntryOf(raw: Dumper, s: Sent): Entry { Entry(Str(s.id), Str(s.name), Obj(map[]), [raw(s.input)]) }

  lemma KindsDiffer()
    ensures "content_block_start" != "content_block_delta" && "content_block_start" != "content_block_stop"
    ensures "content_block_delta" != "content_block_stop" && "message_start" != "message_delta"
    ensures "content_block_start" != "message_start" && "content_block_start" != "message_delta"
    ensures "content_block_delta" != "message_start" && "content_block_delta" != "message_delta"
    ensures "content_block_stop" != "message_start" && "content_block_stop" != "message_delta"
    ensures "message_stop" != "message_start" && "message_stop" != "message_delta"
    ensures "message_stop" != "content_block_start" && "message_stop" != "content_block_delta"
    ensures "message_delta" != "content_block_start" && "message_delta" != "content_block_delta"
  {
    assert "content_block_start"[14] != "content_block_delta"[14];
    assert "message_start"[8] != "message_delta"[8];
    assert |"content_block_start"| == 19 && |"content_block_delta"| == 19 && |"content_block_stop"| == 18;
    assert |"message_start"| == 13 && |"message_delta"| == 13 && |"message_stop"| == 12;
  }

  ghost predicate Unused(blocks: Blocks, index: int) {
    forall k :: 0 <= k < |blocks| ==> blocks[k].0 != index
  }

  lemma {:induction false} AssignFresh(blocks: Blocks, index: int, e: Entry)
    requires Unused(blocks, index)
    ensures Find(blocks, index) == None && Assign(blocks, index, e) == blocks + [(index, e)]
  {
    if blocks != [] {
      assert Unused(blocks[1..], index);
      AssignFresh(blocks[1..], index, e);
    }
  }

  lemma {:induction false} AssignLast(blocks: Blocks, index: int, e: Entry, f: Entry)
    requires Unused(blocks, index)
    ensures Find(blocks + [(index, e)], index) == Some(e)
    ensures Assign(blocks + [(index, e)], index, f) == blocks + [(index, f)]
  {
    if blocks != [] {
      assert Unused(blocks[1..], index);
      assert (blocks + [(index, e)])[1..] == blocks[1..] + [(index, e)];
      AssignLast(blocks[1..], index, e, f);
    }
  }

  lemma KeysDiffer()
    ensures "type" != "index" && "type" != "content_block" && "index" != "content_block" && "type" != "delta"
    ensures "index" != "delta" && "type" != "partial_json" && "type" != "id" && "type" != "name" && "type" != "input"
    ensures "id" != "name" && "id" != "input" && "name" != "input" && "delta" != "usage" && "type" != "usage"
  {
    assert |"type"| == 4 && |"index"| == 5 && |"content_block"| == 13 && |"delta"| == 5 && |"usage"| == 5;
    assert |"partial_json"| == 12 && |"id"| == 2 && |"name"| == 4 && |"input"| == 5;
    assert "index"[0] != "delta"[0] && "type"[0] != "name"[0] && "delta"[0] != "usage"[0];
  }

  /** The fields of a start event, as the reader asks for them. */
  ghost predicate IsStart(p: Json, index: int, id: Json, name: Json) {
    var block := Get(p, "content_block");
    && Get(p, "type") == Str("content_block_start") && Get(p, "index") == Int(index)
    && block.Obj? && Get(block, "type") == Str("tool_use") && Get(block, "id") == id && Get(block, "name") == name
    && Get(block, "input") == Obj(map[])
  }

  ghost predicate IsDelta(p: Json, index: int, part: string) {
    var delta := Get(p, "delta");
    && Get(p, "type") == Str("content_block_delta") && Get(p, "index") == Int(index)
    && delta.Obj? && Get(delta, "type") == Str("input_json_delta") && Get(delta, "partial_json") == Str(part)
  }

  lemma Get4(a: string, x: Json, b: string, y: Json, c: string, z: Json, d: string, w: Json)
    requires a != b && a != c && a != d && b != c && b != d && c != d
    ensures var o := Obj(map[a := x, b := y, c := z, d := w]);
            Get(o, a) == x && Get(o, b) == y && Get(o, c) == z && Get(o, d) == w
  {
  }

  lemma Get3(a: string, x: Json, b: string, y: Json, c: string, z: Json)
    requires a != b && a != c && b != c
    ensures var o := Obj(map[a := x, b := y, c := z]);
            Get(o, a) == x && Get(o, b) == y && Get(o, c) == z
  {
  }

  lemma StartFields(s: Sent, index: nat)
    ensures IsStart(StartItem(s, index).payload, index, Str(s.id), Str(s.name))
  {
    KeysDiffer();
    var block := Obj(map["type" := Str("tool_use"), "id" := Str(s.id), "name" := Str(s.name), "input" := Obj(map[])]);
    Get4("type", Str("tool_use"), "id", Str(s.id), "name", Str(s.name), "input", Obj(map[]));
    Get3("type", Str("content_block_start"), "index", Int(index), "content_block", block);
  }

  lemma DeltaFields(raw: Dumper, s: Sent, index: nat)
    ensures IsDelta(DeltaItem(raw, s, index).payload, index, raw(s.input))
  {
    KeysDiffer();
    var delta := Obj(map["type" := Str("input_json_delta"), "partial_json" := Str(raw(s.input))]);
    Get3("type", Str("content_block_delta"), "index", Int(index), "delta", delta);
  }

  lemma StartReads(r: Reading, kind: Json, p: Json, index: int, id: Json, name: Json)
    requires IsStart(p, index, id, name) && Unused(r.blocks, index)
    ensures ReadOne(r, Parsed(kind, p)) == r.(blocks := r.blocks + [(index, Entry(id, name, Obj(map[]), []))])
  {
    KindsDiffer();
    AssignFresh(r.blocks, index, Entry(id, name, Obj(map[]), []));
  }

  lemma DeltaReads(r: Reading, kind: Json, p: Json, index: int, part: string, blocks: Blocks, e: Entry)
    requires IsDelta(p, index, part) && Unused(blocks, index) && r.blocks == blocks + [(index, e)]
    ensures ReadOne(r, Parsed(kind, p)) == r.(blocks := blocks + [(index, e.(parts := e.parts + [part]))])
  {
    KindsDiffer();
    AssignLast(blocks, index, e, e.(parts := e.parts + [part]));
  }

  lemma StopReads(index: nat, r: Reading)
    ensures ReadOne(r, Parsed(Str("content_block_stop"), StopItem(index).payload)) == r
  {
    KindsDiffer();
  }

  lemma {:induction false} ReadAllAppend(r: Reading, a: seq<Parsed>, b: seq<Parsed>)
    ensures ReadAll(r, a + b) == ReadAll(ReadAll(r, a), b)
    decreases |a|
  {
    if a == [] {
      assert a + b == b;
    } else {
      assert (a + b)[1..] == a[1..] + b;
      ReadAllAppend(ReadOne(r, a[0]), a[1..], b);
    }
  }

  lemma {:induction false} AsParsedAppend(a: seq<Item>, b: seq<Item>)
    ensures AsParsed(a + b) == AsParsed(a) + AsParsed(b)
  {
    if a == [] {
      assert a + b == b;
    } else {
      assert (a + b)[1..] == a[1..] + b;
      AsParsedAppend(a[1..], b);
    }
  }

  lemma ReadThree(r: Reading, a: Parsed, b: Parsed, c: Parsed)
    ensures ReadAll(r, [a, b, c]) == ReadOne(ReadOne(ReadOne(r, a), b), c)
  {
    assert [a, b, c][1..] == [b, c] && [b, c][1..] == [c] && [c][1..] == [];
    var r1 := ReadOne(r, a);
    var r2 := ReadOne(r1, b);
    assert ReadAll(r2, [c]) == ReadAll(ReadOne(r2, c), []);
    assert ReadAll(r1, [b, c]) == ReadAll(r2, [c]);
  }

  lemma ParsedThree(a: Item, b: Item, c: Item)
    ensures AsParsed([a, b, c]) == [Parsed(Str(a.name), a.payload), Parsed(Str(b.name), b.payload), Parsed(Str(c.name), c.payload)]
  {
    assert [a, b, c][1..] == [b, c] && [b, c][1..] == [c] && [c][1..] == [];
    assert AsParsed([c]) == [Parsed(Str(c.name), c.payload)] + AsParsed([]);
    assert AsParsed([b, c]) == [Parsed(Str(b.name), b.payload)] + AsParsed([c]);
  }

  /** A start, a delta and an event that changes nothing add one entry. */
  lemma ThreeRead(r: Reading, a: Item, b: Item, c: Item, index: int, id: Json, name: Json, part: string)
    requires IsStart(a.payload, index, id, name) && IsDelta(b.payload, index, part) && Unused(r.blocks, index)
    requires forall q: Reading :: ReadOne(q, Parsed(Str(c.name), c.payload)) == q
    ensures ReadAll(r, AsParsed([a, b, c])) == r.(blocks := r.blocks + [(index, Entry(id, name, Obj(map[]), [part]))])
  {
    ParsedThree(a, b, c);
    var p0, p1, p2 := Parsed(Str(a.name), a.payload), Parsed(Str(b.name), b.payload), Parsed(Str(c.name), c.payload);
    ReadThree(r, p0, p1, p2);
    StartReads(r, Str(a.name), a.payload, index, id, name);
    DeltaReads(ReadOne(r, p0), Str(b.name), b.payload, index, part, r.blocks, Entry(id, name, Obj(map[]), []));
    assert [] + [part] == [part];
  }

  lemma BlockReads(raw: Dumper, s: Sent, index: nat, r: Reading)
    requires Unused(r.blocks, index)
    ensures ReadAll(r, AsParsed([StartItem(s, index), DeltaItem(raw, s, index), StopItem(index)]))
            == r.(blocks := r.blocks + [(index as int, EntryOf(raw, s))])
  {
    StartFields(s, index);
    DeltaFields(raw, s, index);
    forall q: Reading ensures ReadOne(q, Parsed(Str(StopItem(index).name), StopItem(index).payload)) == q {
      StopReads(index, q);
    }
    ThreeRead(r, StartItem(s, index), DeltaItem(raw, s, index), StopItem(index),
              index, Str(s.id), Str(s.name), raw(s.input));
  }

  ghost predicate BelowIndex(blocks: Blocks, index: int) {
    forall k :: 0 <= k < |blocks| ==> blocks[k].0 < index
  }

  lemma {:induction false} BlocksReadBack(raw: Dumper, sents: seq<Option<Sent>>, index: nat, r: Reading)
    requires BelowIndex(r.blocks, index)
    ensures ReadAll(r, AsParsed(BlockItems(raw, sents, index))) == r.(blocks := r.blocks + Expected(raw, sents, index))
    decreases |sents|
  {
    if sents == [] {
      assert r.blocks + [] == r.blocks;
    } else if sents[0].None? {
      BlocksReadBack(raw, sents[1..], index + 1, r);
      assert [] + Expected(raw, sents[1..], index + 1) == Expected(raw, sents[1..], index + 1);
    } else {
      var three := [StartItem(sents[0].value, index), DeltaItem(raw, sents[0].value, index), StopItem(index)];
      var head := [(index as int, EntryOf(raw, sents[0].value))];
      var r' := r.(blocks := r.blocks + head);
      BlockReads(raw, sents[0].value, index, r);
      BlocksReadBack(raw, sents[1..], index + 1, r');
      ReadTwoParts(r, three, r', BlockItems(raw, sents[1..], index + 1));
      Associate(r.blocks, head, Expected(raw, sents[1..], index + 1));
    }
  }

  lemma ReadTwoParts(r: Reading, a: seq<Item>, s: Reading, b: seq<Item>)
    requires ReadAll(r, AsParsed(a)) == s
    ensures ReadAll(r, AsParsed(a + b)) == ReadAll(s, AsParsed(b))
  {
    AsParsedAppend(a, b);
    ReadAllAppend(r, AsParsed(a), AsParsed(b));
  }

  /** The start event reads as one: its type, if it has any, says message_start. */
  ghost predicate StartLike(start: Json) {
    start.Obj? && (Truthy(Get(start, "type")) ==> Get(start, "type") == Str("message_start"))
  }

  lemma ClosingReads(usage: Json, r: Reading)
    ensures ReadAll(r, AsParsed(ClosingItems(usage))) == r.(usage := Some(SentUsage(usage)))
  {
    KindsDiffer();
    var items := ClosingItems(usage);
    var p0 := Parsed(Str(items[0].name), items[0].payload);
    var p1 := Parsed(Str(items[1].name), items[1].payload);
    assert items[1..] == [items[1]] && items[1..][1..] == [];
    assert AsParsed(items[1..]) == [p1] + AsParsed([]);
    assert AsParsed(items) == [p0] + [p1];
    var r1 := ReadOne(r, p0);
    assert ReadOne(r1, p1) == r1;
    assert [p0, p1][1..] == [p1] && [p1][1..] == [];
    assert ReadAll(r1, [p1]) == ReadAll(ReadOne(r1, p1), []);
    assert ReadAll(r, [p0, p1]) == ReadAll(r1, [p1]);
  }

  lemma GoodAppend(load: Loader, a: seq<Item>, b: seq<Item>)
    requires GoodItems(load, a) && GoodItems(load, b)
    ensures GoodItems(load, a + b)
  {
  }

  lemma NamesAreGood()
    ensures GoodName("message_start") && GoodName("message_delta") && GoodName("message_stop")
    ensures GoodName("content_block_start") && GoodName("content_block_delta") && GoodName("content_block_stop")
  {
  }

  lemma {:induction false} GoodBlockItems(raw: Dumper, load: Loader, sents: seq<Option<Sent>>, index: nat)
    ensures GoodItems(load, BlockItems(raw, sents, index))
    decreases |sents|
  {
    if sents != [] {
      GoodBlockItems(raw, load, sents[1..], index + 1);
      if sents[0].Some? {
        GoodTriple(raw, load, sents[0].value, index);
        GoodAppend(load, [StartItem(sents[0].value, index), DeltaItem(raw, sents[0].value, index), StopItem(index)],
                   BlockItems(raw, sents[1..], index + 1));
      }
    }
  }

  lemma {:induction false} GoodTriple(raw: Dumper, load: Loader, s: Sent, index: nat)
    ensures GoodItems(load, [StartItem(s, index), DeltaItem(raw, s, index), StopItem(index)])
  {
    NamesAreGood();
    PayloadsAreReadable(raw, load, s, index);
  }

  lemma {:induction false} PayloadsAreReadable(raw: Dumper, load: Loader, s: Sent, index: nat)
    ensures ReadableDict(load, StartItem(s, index).payload) && ReadableDict(load, DeltaItem(raw, s, index).payload)
    ensures ReadableDict(load, StopItem(index).payload)
  {
    assert Readable(load, Obj(map[]));
    var block := Obj(map["type" := Str("tool_use"), "id" := Str(s.id), "name" := Str(s.name), "input" := Obj(map[])]);
    var delta := Obj(map["type" := Str("input_json_delta"), "partial_json" := Str(raw(s.input))]);
    assert Readable(load, block) && Readable(load, delta);
  }

  lemma {:induction false} ClosingIsGood(load: Loader, usage: Json)
    requires Readable(load, usage)
    ensures GoodItems(load, ClosingItems(usage))
  {
    NamesAreGood();
    assert Readable(load, Obj(map["output_tokens" := Int(0)]));
    var delta := Obj(map["stop_reason" := Str("tool_use"), "stop_sequence" := Null]);
    assert Readable(load, delta) && Readable(load, SentUsage(usage));
    assert ReadableDict(load, Obj(map["type" := Str("message_delta"), "delta" := delta, "usage" := SentUsage(usage)]));
    assert ReadableDict(load, Obj(map["type" := Str("message_stop")]));
  }

  lemma {:induction false} StartIsReadable(load: Loader, start: Json, fallback: Json)
    requires Readable(load, start) && Readable(load, fallback) && PreparedStart(start, fallback).Obj?
    ensures ReadableDict(load, PreparedStart(start, fallback))
  {
    var message := Get(start, "message");
    if start.Obj? && message.Obj? {
      assert Readable(load, message);
      assert Readable(load, Obj(message.fields["content" := Arr([])]["stop_reason" := Null]["stop_sequence" := Null]));
    }
  }

  lemma {:induction false} TrimmedIsReadable(load: Loader, tool: string, input: Json)
    requires ReadableDict(load, input)
    ensures ReadableDict(load, TrimInput(tool, input))
  {
    FieldIsReadable(load, input, "file_path");
    FieldIsReadable(load, TrimField(input, "file_path"), "path");
  }

  lemma {:induction false} FieldIsReadable(load: Loader, input: Json, field: string)
    requires ReadableDict(load, input)
    ensures ReadableDict(load, TrimField(input, field))
  {
  }

  /**
    Round trip: the concatenated stream of any list of tool blocks, parsed and
    accumulated again, yields the named blocks in order, each at its index, with
    the start event and the usage that were sent.
  */
  lemma StreamRoundTrip(ascii: Dumper, raw: Dumper, load: Loader, made: int -> string, blocks: seq<ToolBlock>,
                        start: Json, fallback: Json, usage: Json)
    requires Codec(ascii, raw, load) && StartLike(PreparedStart(start, fallback)) && blocks != []
    requires Readable(load, start) && Readable(load, fallback) && Readable(load, usage)
    ensures ReadAll(NOTHING, ParseText(load, Flatten(SseEvents(ascii, StreamItems(raw, made, blocks, start, fallback, usage)))))
            == Reading(Some(PreparedStart(start, fallback)), Some(SentUsage(usage)), Expected(raw, PrepareAll(blocks, made), 0))
  {
    StartIsReadable(load, start, fallback);
    SentsRoundTrip(ascii, raw, load, PrepareAll(blocks, made), Item("message_start", PreparedStart(start, fallback)), usage);
  }

  lemma SentsRoundTrip(ascii: Dumper, raw: Dumper, load: Loader, sents: seq<Option<Sent>>, first: Item, usage: Json)
    requires Codec(ascii, raw, load) && first.name == "message_start" && StartLike(first.payload)
    requires Readable(load, first.payload) && Readable(load, usage)
    ensures ReadAll(NOTHING, ParseText(load, Flatten(SseEvents(ascii, [first] + BlockItems(raw, sents, 0) + ClosingItems(usage)))))
            == Reading(Some(first.payload), Some(SentUsage(usage)), Expected(raw, sents, 0))
  {
    var middle, last := BlockItems(raw, sents, 0), ClosingItems(usage);
    GoodStream(raw, load, sents, first, usage);
    ParsePrinted(ascii, raw, load, [first] + middle + last);
    var r := NOTHING.(start := Some(first.payload));
    ReadFirst(first);
    BlocksReadBack(raw, sents, 0, r);
    assert [] + Expected(raw, sents, 0) == Expected(raw, sents, 0);
    var r' := r.(blocks := Expected(raw, sents, 0));
    ReadTwoParts(NOTHING, [first], r, middle);
    ReadTwoParts(NOTHING, [first] + middle, r', last);
    ClosingReads(usage, r');
  }

  lemma GoodStream(raw: Dumper, load: Loader, sents: seq<Option<Sent>>, first: Item, usage: Json)
    requires first.name == "message_start" && ReadableDict(load, first.payload) && Readable(load, usage)
    ensures GoodItems(load, [first] + BlockItems(raw, sents, 0) + ClosingItems(usage))
  {
    NamesAreGood();
    GoodBlockItems(raw, load, sents, 0);
    ClosingIsGood(load, usage);
    GoodAppend(load, [first], BlockItems(raw, sents, 0));
    GoodAppend(load, [first] + BlockItems(raw, sents, 0), ClosingItems(usage));
  }

  lemma ReadFirst(first: Item)
    requires first.name == "message_start" && StartLike(first.payload)
    ensures ReadAll(NOTHING, AsParsed([first])) == NOTHING.(start := Some(first.payload))
  {
    KindsDiffer();
    var p := Parsed(Str(first.name), first.payload);
    assert [first][1..] == [];
    assert AsParsed([first]) == [p] + AsParsed([]) == [p];
    assert [p][1..] == [];
    assert ReadAll(NOTHING, [p]) == ReadAll(ReadOne(NOTHING, p), []);
  }

  /** The reader holds one entry for each named block, in order, and no other. */
  lemma {:induction false} EntriesAreNamedBlocks(raw: Dumper, sents: seq<Option<Sent>>, index: nat, i: nat)
    requires i < |sents|
    ensures sents[i].Some? ==> (index + i, EntryOf(raw, sents[i].value)) in Expected(raw, sents, index)
    ensures forall k :: 0 <= k < |Expected(raw, sents, index)| ==>
              var p := Expected(raw, sents, index)[k];
              index <= p.0 < index + |sents| && sents[p.0 - index].Some? && p.1 == EntryOf(raw, sents[p.0 - index].value)
    ensures forall k, l :: 0 <= k < l < |Expected(raw, sents, index)| ==>
              Expected(raw, sents, index)[k].0 < Expected(raw, sents, index)[l].0
    decreases |sents|
  {
    var rest := Expected(raw, sents[1..], index + 1);
    if |sents| == 1 {
      assert rest == [];
    } else {
      EntriesAreNamedBlocks(raw, sents[1..], index + 1, if i == 0 then 0 else i - 1);
      assert forall k :: 0 <= k < |rest| ==> rest[k].0 > index;
    }
  }

  /** Each entry finishes to the input that was sent: the block's own, up to Read path trimming. */
  lemma EntryFinishes(ascii: Dumper, raw: Dumper, load: Loader, s: Sent)
    requires Codec(ascii, raw, load) && ReadableDict(load, s.input)
    ensures FinishedInput(load, EntryOf(raw, s)) == s.input
  {
    var text := raw(s.input);
    assert Flatten([text]) == text + Flatten([]) == text;
    StripTight(text);
    assert map[] + s.input.fields == s.input.fields;
  }

  /** The entry gives block i back: its name, its id or else one made for it, and its trimmed input or else none. */
  predicate GivesBack(load: Loader, made: int -> string, e: Entry, b: ToolBlock, i: int)
    requires b.name.Str?
  {
    && e.name == b.name
    && e.id == (if b.id.Str? && Strip(b.id.s) != "" then b.id else Str(made(i)))
    && FinishedInput(load, e) == TrimInput(b.name.s, if b.input.Obj? then b.input else Obj(map[]))
  }

  lemma PreparedGivesBack(ascii: Dumper, raw: Dumper, load: Loader, made: int -> string, b: ToolBlock, s: Sent, index: nat)
    requires Codec(ascii, raw, load) && Prepare(b, made, index) == Some(s) && Readable(load, b.input)
    ensures b.name.Str? && GivesBack(load, made, EntryOf(raw, s), b, index)
  {
    TrimmedIsReadable(load, b.name.s, if b.input.Obj? then b.input else Obj(map[]));
    EntryFinishes(ascii, raw, load, s);
  }

  /** The reader holds an entry for block i that gives it back. */
  ghost predicate ComesBack(raw: Dumper, load: Loader, made: int -> string, sents: seq<Option<Sent>>, i: int, b: ToolBlock)
    requires b.name.Str?
  {
    exists e :: (i, e) in Expected(raw, sents, 0) && GivesBack(load, made, e, b, i)
  }

  /** Put together: every block whose name is not blank comes back, at its index. */
  lemma {:induction false} BlocksComeBack(ascii: Dumper, raw: Dumper, load: Loader, made: int -> string, blocks: seq<ToolBlock>)
    requires Codec(ascii, raw, load) && forall i :: 0 <= i < |blocks| ==> Readable(load, blocks[i].input)
    ensures forall i :: 0 <= i < |blocks| && blocks[i].name.Str? && Strip(blocks[i].name.s) != "" ==>
              ComesBack(raw, load, made, PrepareAll(blocks, made), i, blocks[i])
  {
    var sents := PrepareAll(blocks, made);
    forall i | 0 <= i < |blocks| && blocks[i].name.Str? && Strip(blocks[i].name.s) != ""
      ensures ComesBack(raw, load, made, sents, i, blocks[i])
    {
      var s := sents[i].value;
      PreparedGivesBack(ascii, raw, load, made, blocks[i], s, i);
      EntryIsThere(raw, load, made, sents, i, s, EntryOf(raw, s), blocks[i]);
    }
  }

  lemma {:induction false} EntryIsThere(raw: Dumper, load: Loader, made: int -> string, sents: seq<Option<Sent>>, i: nat,
                                        s: Sent, e: Entry, b: ToolBlock)
    requires i < |sents| && sents[i] == Some(s) && e == EntryOf(raw, s) && b.name.Str? && GivesBack(load, made, e, b, i)
    ensures ComesBack(raw, load, made, sents, i, b)
  {
    EntriesAreNamedBlocks(raw, sents, 0, i);
    assert (i as int, e) in Expected(raw, sents, 0);
  }

  /** And no other block does: an entry's index is that of a block whose name is not blank. */
  lemma {:induction false} OthersAreSkipped(raw: Dumper, made: int -> string, blocks: seq<ToolBlock>, k: nat)
    requires k < |Expected(raw, PrepareAll(blocks, made), 0)|
    ensures var i := Expected(raw, PrepareAll(blocks, made), 0)[k].0;
            0 <= i < |blocks| && blocks[i].name.Str? && Strip(blocks[i].name.s) != ""
  {
    if blocks != [] { EntriesAreNamedBlocks(raw, PrepareAll(blocks, made), 0, 0); }
  }

  // ----- the ends of the stream ---------------------------------------------

  /** The start that is sent: the given one with its message emptied, and nothing else about it changed. */
  predicate EmptiedStart(start: Json, fallback: Json, sent: Json) {
    if !start.Obj? then sent == fallback
    else if !Get(start, "message").Obj? then sent == start
    else
      var was, now := Get(start, "message"), Get(sent, "message");
      && sent.Obj? && sent.fields.Keys == start.fields.Keys
      && (forall key :: key in start.fields && key != "message" ==> sent.fields[key] == start.fields[key])
      && now.Obj? && Get(now, "content") == Arr([])
      && "stop_reason" in now.fields && now.fields["stop_reason"] == Null
      && "stop_sequence" in now.fields && now.fields["stop_sequence"] == Null
      && forall key :: key in was.fields && key != "content" && key != "stop_reason" && key != "stop_sequence" ==>
           key in now.fields && now.fields[key] == was.fields[key]
  }

  lemma {:induction false} StartIsEmptied(start: Json, fallback: Json)
    ensures EmptiedStart(start, fallback, PreparedStart(start, fallback))
  {
    assert |"content"| == 7 && |"stop_reason"| == 11 && |"stop_sequence"| == 13;
  }

  /** The stream tells its start, and the usage that was given if there was any. */
  lemma {:induction false} StreamTellsStartAndUsage(ascii: Dumper, raw: Dumper, load: Loader, made: int -> string,
                                                    blocks: seq<ToolBlock>, start: Json, fallback: Json, usage: Json)
    requires Codec(ascii, raw, load) && StartLike(PreparedStart(start, fallback)) && blocks != []
    requires Readable(load, start) && Readable(load, fallback) && Readable(load, usage)
    ensures var items := StreamItems(raw, made, blocks, start, fallback, usage);
            var r := ReadAll(NOTHING, ParseText(load, Flatten(SseEvents(ascii, items))));
            && r.start.Some? && EmptiedStart(start, fallback, r.start.value)
            && r.usage == Some(if usage.Obj? && usage.fields != map[] then usage else Obj(map["output_tokens" := Int(0)]))
  {
    StreamRoundTrip(ascii, raw, load, made, blocks, start, fallback, usage);
    StartIsEmptied(start, fallback);
  }

  /** It ends by saying that it stopped for a tool use. */
  lemma {:induction false} StreamEndsForToolUse(ascii: Dumper, raw: Dumper, load: Loader, made: int -> string, blocks: seq<ToolBlock>,
                                                start: Json, fallback: Json, usage: Json)
    requires Codec(ascii, raw, load) && PreparedStart(start, fallback).Obj? && blocks != []
    requires Readable(load, start) && Readable(load, fallback) && Readable(load, usage)
    ensures var ps := ParseText(load, Flatten(SseEvents(ascii, StreamItems(raw, made, blocks, start, fallback, usage))));
            && |ps| >= 2
            && ps[|ps| - 2].kind == Str("message_delta")
            && Get(Get(ps[|ps| - 2].payload, "delta"), "stop_reason") == Str("tool_use")
            && ps[|ps| - 1].kind == Str("message_stop") && Get(ps[|ps| - 1].payload, "type") == Str("message_stop")
  {
    StartIsReadable(load, start, fallback);
    var first, middle := Item("message_start", PreparedStart(start, fallback)), BlockItems(raw, PrepareAll(blocks, made), 0);
    GoodStream(raw, load, PrepareAll(blocks, made), first, usage);
    ParsePrinted(ascii, raw, load, [first] + middle + ClosingItems(usage));
    AsParsedAppend([first] + middle, ClosingItems(usage));
    ClosingParsed(usage);
  }

  lemma {:induction false} ClosingParsed(usage: Json)
    ensures var ps := AsParsed(ClosingItems(usage));
            && |ps| == 2 && ps[0].kind == Str("message_delta") && ps[1].kind == Str("message_stop")
            && Get(Get(ps[0].payload, "delta"), "stop_reason") == Str("tool_use")
            && Get(ps[1].payload, "type") == Str("message_stop")
  {
    KeysDiffer();
    var items := ClosingItems(usage);
    assert items[1..] == [items[1]] && items[1..][1..] == [];
    assert AsParsed(items[1..]) == [Parsed(Str(items[1].name), items[1].payload)] + AsParsed([]);
    var delta := Obj(map["stop_reason" := Str("tool_use"), "stop_sequence" := Null]);
    assert |"stop_reason"| == 11 && |"stop_sequence"| == 13;
    Get3("type", Str("message_delta"), "delta", delta, "usage", SentUsage(usage));
    assert Get(delta, "stop_reason") == Str("tool_use");
  }

  // ----- reading any stream -------------------------------------------------

  /** Each datum of a frame is an event of its own, if it is a dict and no end marker. */
  lemma {:induction false} EachDatumParses(load: Loader, name: Option<string>, data: seq<string>, datum: string)
    ensures ParseData(load, name, [datum] + data) == ParseData(load, name, [datum]) + ParseData(load, name, data)
    ensures ParseData(load, name, [datum])
            == if datum != "" && datum != "[DONE]" && load(datum).Some? && load(datum).value.Obj?
               then [Parsed(if name.Some? then Str(name.value) else Get(load(datum).value, "type"), load(datum).value)] else []
    ensures ParseData(load, name, []) == []
  {
    assert ([datum] + data)[1..] == data && [datum][1..] == [];
  }

  /** A fragment for an index that no start has opened begins an entry without id and name. */
  lemma {:induction false} DeltaOpensEntry(r: Reading, kind: Json, p: Json, index: int, part: string)
    requires IsDelta(p, index, part) && Unused(r.blocks, index)
    ensures ReadOne(r, Parsed(kind, p)) == r.(blocks := r.blocks + [(index, Entry(Null, Null, Obj(map[]), [part]))])
  {
    KindsDiffer();
    AssignFresh(r.blocks, index, Entry(Null, Null, Obj(map[]), [part]));
    assert [] + [part] == [part];
  }

  /** The fragments, joined, overlay the input of the start where they decode; otherwise that stands. */
  lemma {:induction false} FragmentsOverlay(load: Loader, e: Entry)
    requires e.input.Obj?
    ensures var text := Flatten(e.parts);
            var parsed := Coerce(load, Str(text));
            var input := FinishedInput(load, e);
            if Strip(text) == "" || parsed == None then input == e.input
            else && input.Obj? && input.fields.Keys == e.input.fields.Keys + parsed.value.fields.Keys
                 && forall key :: key in input.fields ==>
                      input.fields[key] == if key in parsed.value.fields then parsed.value.fields[key] else e.input.fields[key]
  {
  }
}
