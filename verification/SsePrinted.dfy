/** What the frame filter makes of a printed event stream, in terms of the events themselves. */
module SsePrinted {
  import opened Prelude
  import opened Text
  import opened Json
  import opened Sse
  import opened SseFrame
  import opened ToolStream

  /** What kind of event it is: its payload's type, or its name when that is missing. */
  function KindOf(item: Item): Json {
    if Truthy(Get(item.payload, "type")) then Get(item.payload, "type") else Str(item.name)
  }

  /** The event is about the block at this index; Python takes a bool for 0 or 1. */
  predicate At(item: Item, index: int) {
    var i := Get(item.payload, "index");
    i == Int(index) || (i == Bool(false) && index == 0) || (i == Bool(true) && index == 1)
  }

  predicate Starts(item: Item, index: int, blockType: string) {
    && KindOf(item) == Str("content_block_start") && At(item, index)
    && Get(item.payload, "content_block").Obj? && Get(Get(item.payload, "content_block"), "type") == Str(blockType)
  }

  predicate Stops(item: Item, index: int) { KindOf(item) == Str("content_block_stop") && At(item, index) }

  predicate ThinksAt(item: Item, index: int) {
    && KindOf(item) == Str("content_block_delta") && At(item, index)
    && Get(item.payload, "delta").Obj? && Get(Get(item.payload, "delta"), "type") == Str("thinking_delta")
  }

  lemma BlockKindsDiffer()
    ensures "content_block_start" != "content_block_stop" && "content_block_start" != "content_block_delta"
    ensures "content_block_stop" != "content_block_delta"
  {
    assert |"content_block_start"| == 19 && |"content_block_stop"| == 18 && |"content_block_delta"| == 19;
    assert "content_block_start"[14] == 's' && "content_block_delta"[14] == 'd';
  }

  /** The reader sees in an event exactly what it is. */
  lemma {:induction false} SignalIs(item: Item)
    ensures var s := SignalOf(Event(Some(item.name), item.payload));
            && (forall i, t :: s == Opens(i, t) <==> Starts(item, i, t))
            && (forall i :: s == Closes(i) <==> Stops(item, i))
            && (forall i :: s == Thinks(i) <==> ThinksAt(item, i))
  {
    BlockKindsDiffer();
    IndexIs(item);
  }

  lemma IndexIs(item: Item)
    ensures forall i :: AsIndex(Get(item.payload, "index")) == Some(i) <==> At(item, i)
  {
  }

  /** A printed event is read back from its frame. */
  lemma {:induction false} PrintedEventReads(ascii: Dumper, raw: Dumper, load: Loader, item: Item)
    requires Codec(ascii, raw, load) && GoodName(item.name) && ReadableDict(load, item.payload)
    ensures FrameEvent(load, Body(ascii, item)) == Some(Event(Some(item.name), item.payload))
  {
    var data := ascii(item.payload);
    BodyLines(ascii, raw, load, item);
    EventLinesRead(item.name, data);
    assert data[0] == '{' && "[DONE]"[0] == '[';
  }

  /** So what the filter reads from a printed event is what the event is, and nothing from any other. */
  lemma {:induction false} PrintedSignal(ascii: Dumper, raw: Dumper, load: Loader, item: Item)
    requires Codec(ascii, raw, load) && GoodName(item.name) && ReadableDict(load, item.payload)
    ensures var s := Decoder(load)(Body(ascii, item));
            && (forall i, t :: s == Opens(i, t) <==> Starts(item, i, t))
            && (forall i :: s == Closes(i) <==> Stops(item, i))
            && (forall i :: s == Thinks(i) <==> ThinksAt(item, i))
  {
    PrintedEventReads(ascii, raw, load, item);
    SignalIs(item);
  }

  // ----- lines ---------------------------------------------------------------

  /** A text is read line by line, and no line holds a line break. */
  lemma {:induction false} LineByLine(line: string, rest: string)
    requires Clean(line)
    ensures SplitLines(line + ("\n" + rest)) == [line] + SplitLines(rest)
  {
    var s := line + ("\n" + rest);
    LineEndAt(line, "\n" + rest);
    assert s[|line|] == '\n' && s[..|line|] == line && s[|line| + 1..] == rest;
  }

  lemma {:induction false} LinesAreClean(s: string)
    ensures forall line :: line in SplitLines(s) ==> Clean(line)
    decreases |s|
  {
    if s != "" {
      var n := LineEnd(s);
      FirstLineIsClean(s);
      if n < |s| {
        var rest := s[if s[n] == '\r' && n + 1 < |s| && s[n + 1] == '\n' then n + 2 else n + 1..];
        LinesAreClean(rest);
        assert SplitLines(s) == [s[..n]] + SplitLines(rest);
      } else {
        assert s[..n] == s;
      }
    }
  }

  lemma {:induction false} FirstLineIsClean(s: string)
    ensures Clean(s[..LineEnd(s)])
  {
    var line := s[..LineEnd(s)];
    forall c | c in line ensures !IsLineBreak(c) {
      var i :| 0 <= i < |line| && line[i] == c;
      assert s[i] == c;
    }
  }

  /** Of several names the last one counts. */
  lemma {:induction false} LastNameWins(lines: seq<string>, name: string)
    requires GoodName(name)
    ensures EventName(lines + ["event: " + name]) == Some(name)
  {
    NameReads(name);
    assert (lines + ["event: " + name])[|lines|] == "event: " + name;
  }

  /** And a line that gives none leaves the name there was. */
  lemma {:induction false} OtherLinesNameNothing(lines: seq<string>, line: string)
    requires !StartsWith(Strip(line), "event:")
    ensures EventName(lines + [line]) == EventName(lines)
  {
    assert (lines + [line])[..|lines|] == lines;
  }

  // ----- frames that say nothing -------------------------------------------

  lemma {:induction false} DataOfTwo(a: string, b: string)
    ensures |DataTexts(["data: " + a, "data: " + b])| == 2 && |DataTexts(["data: " + a])| == 1
  {
    IsDataLine(a);
    IsDataLine(b);
    assert ["data: " + a, "data: " + b][1..] == ["data: " + b] && ["data: " + b][1..] == [] && ["data: " + a][1..] == [];
    assert |DataTexts(["data: " + b])| == 1 + |DataTexts([])|;
  }

  /** However it ends, a line that begins so is a data line. */
  lemma {:induction false} IsDataLine(text: string)
    ensures StartsWith(Strip("data: " + text), "data:") && !StartsWith(Strip("data: " + text), "event:")
  {
    var line := "data: " + text;
    assert LStrip(line) == line;
    KeepsHead(line, 5);
    assert line[..5] == "data:" && line[4] == ':' && !IsSpace(line[4]);
    assert Strip(line)[..5] == "data:" && "data:"[0] != "event:"[0];
  }

  /** Stripping the end leaves what comes before a character that is not blank. */
  lemma {:induction false} KeepsHead(s: string, n: nat)
    requires 0 < n <= |s| && !IsSpace(s[n - 1])
    ensures n <= |RStrip(s)| && RStrip(s)[..n] == s[..n]
    decreases |s|
  {
    if IsSpace(s[|s| - 1]) { KeepsHead(s[..|s| - 1], n); }
  }

  /** A frame with two data lines is passed on unread. */
  lemma {:induction false} TwoDataLinesAreSilent(load: Loader, a: string, b: string)
    requires Clean(a) && Clean(b)
    ensures Decoder(load)(("data: " + a) + "\n" + ("data: " + b)) == Silent
  {
    CleanData(a);
    CleanData(b);
    DataOfTwo(a, b);
    TwoLinesAreSilent(load, "data: " + a, "data: " + b);
  }

  lemma {:induction false} TwoLinesAreSilent(load: Loader, x: string, y: string)
    requires Clean(x) && Clean(y) && y != "" && |DataTexts([x, y])| == 2
    ensures Decoder(load)(x + "\n" + y) == Silent
  {
    TwoLines(x, y);
  }

  /** So is one whose data is the marker at the end of a stream, or no dict. */
  lemma {:induction false} NoDictIsSilent(load: Loader, text: string)
    requires Clean(text) && text != "" && !IsSpace(text[0]) && !IsSpace(text[|text| - 1])
    requires text == "[DONE]" || load(text).None? || !load(text).value.Obj?
    ensures Decoder(load)("data: " + text) == Silent
  {
    CleanData(text);
    OneData(text);
    OneLineIsSilent(load, "data: " + text, text);
  }

  lemma {:induction false} OneLineIsSilent(load: Loader, line: string, text: string)
    requires Clean(line) && line != "" && DataTexts([line]) == [text]
    requires text == "[DONE]" || load(text).None? || !load(text).value.Obj?
    ensures Decoder(load)(line) == Silent
  {
    OneLine(line);
  }

  lemma CleanData(text: string)
    requires Clean(text)
    ensures Clean("data: " + text)
  {
    forall c | c in "data: " + text ensures !IsLineBreak(c) { assert c in "data: " || c in text; }
  }

  lemma {:induction false} OneData(text: string)
    requires text != "" && !IsSpace(text[0]) && !IsSpace(text[|text| - 1])
    ensures DataTexts(["data: " + text]) == [text]
  {
    var line := "data: " + text;
    StripTight(line);
    IsDataLine(text);
    assert line[5..] == " " + text;
    StripBlankHead(text);
    assert [line][1..] == [] && DataTexts([line]) == [Strip(line[5..])] + DataTexts([]);
  }

  // ----- a printed stream, filtered ----------------------------------------

  /** The type of the block open at an index after some events: what the last start or stop for it says. */
  ghost function OpenIn(items: seq<Item>, index: int): Option<string> {
    if items == [] then None
    else
      var init, last := items[..|items| - 1], items[|items| - 1];
      if t :| Starts(last, index, t) then Some(t) else if Stops(last, index) then None else OpenIn(init, index)
  }

  /** Event i is a thinking delta where no thinking block is open. */
  ghost predicate StrayItem(items: seq<Item>, i: nat)
    requires i < |items|
  {
    exists index :: ThinksAt(items[i], index) && OpenIn(items[..i], index) != Some("thinking")
  }

  ghost function KeptItems(items: seq<Item>): seq<Item> {
    if items == [] then []
    else KeptItems(items[..|items| - 1]) + (if StrayItem(items, |items| - 1) then [] else [items[|items| - 1]])
  }

  lemma {:induction false} BodiesSnoc(ascii: Dumper, items: seq<Item>, last: Item)
    ensures Bodies(ascii, items + [last]) == Bodies(ascii, items) + [Body(ascii, last)]
    ensures |Bodies(ascii, items)| == |items|
    decreases |items|
  {
    if items == [] {
      assert items + [last] == [last] && [last][1..] == [];
    } else {
      BodiesSnoc(ascii, items[1..], last);
      assert (items + [last])[1..] == items[1..] + [last];
    }
  }

  lemma {:induction false} BodiesUpTo(ascii: Dumper, items: seq<Item>)
    requires items != []
    ensures var init, last := items[..|items| - 1], items[|items| - 1];
            && Bodies(ascii, items) == Bodies(ascii, init) + [Body(ascii, last)]
            && |Bodies(ascii, items)| == |items|
            && Bodies(ascii, items)[..|items| - 1] == Bodies(ascii, init)
            && Bodies(ascii, items)[|items| - 1] == Body(ascii, last)
  {
    var init, last := items[..|items| - 1], items[|items| - 1];
    assert items == init + [last];
    BodiesSnoc(ascii, init, last);
  }

  lemma {:induction false} GoodUpTo(load: Loader, items: seq<Item>)
    requires items != [] && GoodItems(load, items)
    ensures var last := items[|items| - 1];
            GoodItems(load, items[..|items| - 1]) && GoodName(last.name) && ReadableDict(load, last.payload)
  {
  }

  /** The block that the filter sees open is the one the events have opened. */
  lemma {:induction false} OpenIsOpen(ascii: Dumper, raw: Dumper, load: Loader, items: seq<Item>, index: int)
    requires Codec(ascii, raw, load) && GoodItems(load, items)
    ensures OpenType(Decoder(load), Bodies(ascii, items), index) == OpenIn(items, index)
    decreases |items|
  {
    if items != [] {
      var init, last := items[..|items| - 1], items[|items| - 1];
      BodiesUpTo(ascii, items);
      GoodUpTo(load, items);
      OpenIsOpen(ascii, raw, load, init, index);
      PrintedSignal(ascii, raw, load, last);
      OneStart(last, index);
      LastDecides(Decoder(load), Bodies(ascii, items), index, last);
    }
  }

  lemma OneStart(item: Item, index: int)
    ensures forall t, u :: Starts(item, index, t) && Starts(item, index, u) ==> t == u
    ensures forall t :: Starts(item, index, t) ==> !Stops(item, index)
  {
    BlockKindsDiffer();
  }

  /** How the last frame decides what is open, whatever the reader. */
  lemma {:induction false} LastDecides(read: Reader, frames: seq<string>, index: int, item: Item)
    requires frames != []
    requires forall i, t :: read(frames[|frames| - 1]) == Opens(i, t) <==> Starts(item, i, t)
    requires forall i :: read(frames[|frames| - 1]) == Closes(i) <==> Stops(item, i)
    ensures forall t :: Starts(item, index, t) ==> OpenType(read, frames, index) == Some(t)
    ensures (forall t :: !Starts(item, index, t)) ==>
              OpenType(read, frames, index)
              == if Stops(item, index) then None else OpenType(read, frames[..|frames| - 1], index)
  {
    var s := read(frames[|frames| - 1]);
    if s.Opens? { assert Starts(item, s.index, s.blockType); }
    if s.Closes? { assert Stops(item, s.index); }
  }

  lemma {:induction false} StrayIsStray(ascii: Dumper, raw: Dumper, load: Loader, items: seq<Item>)
    requires Codec(ascii, raw, load) && GoodItems(load, items) && items != []
    ensures |Bodies(ascii, items)| == |items|
    ensures Stray(Decoder(load), Bodies(ascii, items), |items| - 1) <==> StrayItem(items, |items| - 1)
  {
    var init, last := items[..|items| - 1], items[|items| - 1];
    BodiesUpTo(ascii, items);
    GoodUpTo(load, items);
    PrintedSignal(ascii, raw, load, last);
    var s := Decoder(load)(Body(ascii, last));
    if s.Thinks? {
      assert ThinksAt(last, s.index);
      OpenIsOpen(ascii, raw, load, init, s.index);
      forall i | ThinksAt(last, i) ensures i == s.index { assert s == Thinks(i); }
    } else {
      forall i ensures !ThinksAt(last, i) { assert s != Thinks(i); }
    }
  }

  lemma {:induction false} KeptArePrinted(ascii: Dumper, raw: Dumper, load: Loader, items: seq<Item>)
    requires Codec(ascii, raw, load) && GoodItems(load, items)
    ensures WithoutStrays(Decoder(load), Bodies(ascii, items)) == SseEvents(ascii, KeptItems(items))
    ensures Strays(Decoder(load), Bodies(ascii, items)) == |items| - |KeptItems(items)|
    decreases |items|
  {
    if items != [] {
      var init, last := items[..|items| - 1], items[|items| - 1];
      var stray := StrayItem(items, |items| - 1);
      BodiesUpTo(ascii, items);
      GoodUpTo(load, items);
      KeptArePrinted(ascii, raw, load, init);
      StrayIsStray(ascii, raw, load, items);
      WithoutLast(Decoder(load), Bodies(ascii, items));
      KeptLast(items);
      PrintedLast(ascii, KeptItems(init), last, stray);
    }
  }

  lemma KeptLast(items: seq<Item>)
    requires items != []
    ensures KeptItems(items)
            == KeptItems(items[..|items| - 1]) + (if StrayItem(items, |items| - 1) then [] else [items[|items| - 1]])
  {
  }

  lemma {:induction false} PrintedLast(ascii: Dumper, kept: seq<Item>, last: Item, stray: bool)
    ensures SseEvents(ascii, kept + (if stray then [] else [last]))
            == SseEvents(ascii, kept) + (if stray then [] else [Body(ascii, last) + BREAK])
  {
    SseEventsAppend(ascii, kept, if stray then [] else [last]);
    assert SseEvents(ascii, []) == [] && SseEvents(ascii, [last]) == [SseEvent(ascii, last)] + SseEvents(ascii, []);
  }

  lemma WithoutLast(read: Reader, frames: seq<string>)
    requires frames != []
    ensures var init, last := frames[..|frames| - 1], frames[|frames| - 1];
            var stray := Stray(read, frames, |frames| - 1);
            && WithoutStrays(read, frames) == WithoutStrays(read, init) + (if stray then [] else [last + BREAK])
            && Strays(read, frames) == Strays(read, init) + (if stray then 1 else 0)
  {
  }

  /**
    Of a printed stream the filter removes exactly the thinking deltas that come
    where no thinking block is open, and counts them; every other event, text deltas
    among them, passes as it was printed.
  */
  lemma {:induction false} PrintedStreamIsFiltered(ascii: Dumper, raw: Dumper, load: Loader, items: seq<Item>)
    requires Codec(ascii, raw, load) && GoodItems(load, items)
    ensures var f := FilterText(Decoder(load), Flatten(SseEvents(ascii, items)));
            f.out == SseEvents(ascii, KeptItems(items)) && f.dropped == |items| - |KeptItems(items)|
  {
    PrintedFrames(ascii, raw, load, items);
    assert Bodies(ascii, items) + [] == Bodies(ascii, items);
    FilterRemovesStrays(Decoder(load), Bodies(ascii, items));
    KeptArePrinted(ascii, raw, load, items);
  }
}
