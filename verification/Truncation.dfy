/**
  Truncating long tool results.  The structured candidates of a JSON text and
  the digest in the marker are parameters; everything else is the code's own.
*/
module Truncation {
  import opened Prelude
  import opened Json

  /** `limit` in characters; `candidates` are the texts tried for a JSON text, in order. */
  datatype Config = Config(limit: nat, sha: string -> string, candidates: string -> seq<string>)

  // ----- one text ---------------------------------------------------------

  function Digits(n: nat): (d: string)
    ensures d != ""
  {
    if n < 10 then [('0' as int + n) as char] else Digits(n / 10) + [('0' as int + n % 10) as char]
  }

  const OPENING := "\n\n... ("
  const TRUNCATED := " characters truncated; sha256_hash: "
  const CLOSING := ") ...\n\n"

  function Marker(c: Config, text: string): string
    requires |text| > c.limit
  {
    OPENING + Digits(|text| - c.limit) + TRUNCATED + c.sha(text) + CLOSING
  }

  /** The first candidate within the limit. */
  function FirstFitting(limit: int, candidates: seq<string>): (r: Option<string>)
    ensures r.Some? ==> |r.value| <= limit && r.value in candidates
    ensures r.None? ==> forall s :: s in candidates ==> |s| > limit
  {
    if candidates == [] then None
    else if |candidates[0]| <= limit then Some(candidates[0])
    else FirstFitting(limit, candidates[1..])
  }

  function HeadAndTail(c: Config, text: string): string
    requires |text| > c.limit
  {
    Around(c.limit, Marker(c, text), text)
  }

  /** As much of both ends of the text as fits around the marker. */
  function Around(limit: nat, marker: string, text: string): string
    requires |text| > limit
  {
    var budget := if limit > |marker| then limit - |marker| else 0;
    text[..budget / 2] + marker + text[|text| - budget / 2..]
  }

  /** `_summarize` */
  function Summarize(c: Config, text: string): string {
    if |text| <= c.limit then text
    else
      var fitting := FirstFitting(c.limit, c.candidates(text));
      if fitting.Some? then fitting.value else HeadAndTail(c, text)
  }

  /** The marker of a text that needs one fits the limit. */
  predicate MarkerFits(c: Config, text: string) {
    |text| > c.limit ==> FirstFitting(c.limit, c.candidates(text)).Some? || |Marker(c, text)| <= c.limit
  }

  /** The limit is kept exactly when the marker fits it. */
  lemma SummaryFitsIff(c: Config, text: string)
    ensures |Summarize(c, text)| <= c.limit <==> MarkerFits(c, text)
  {
  }

  /** A summary that had to cut text keeps a head and a tail of equal length around the marker. */
  lemma SummaryKeepsEnds(c: Config, text: string) returns (half: nat)
    requires |text| > c.limit && FirstFitting(c.limit, c.candidates(text)).None? && MarkerFits(c, text)
    ensures 2 * half + |Marker(c, text)| <= c.limit <= 2 * half + |Marker(c, text)| + 1 && half <= |text|
    ensures Summarize(c, text) == text[..half] + Marker(c, text) + text[|text| - half..]
  {
    half := EndsAround(c.limit, Marker(c, text), text);
  }

  lemma EndsAround(limit: nat, marker: string, text: string) returns (half: nat)
    requires |marker| <= limit < |text|
    ensures 2 * half + |marker| <= limit <= 2 * half + |marker| + 1 && half <= |text|
    ensures Around(limit, marker, text) == text[..half] + marker + text[|text| - half..]
  {
    half := (limit - |marker|) / 2;
  }

  // ----- blocks -----------------------------------------------------------

  function Texts(items: seq<Json>): seq<string> {
    if items == [] then []
    else if items[0].Obj? && Get(items[0], "text").Str? then [Get(items[0], "text").s] + Texts(items[1..])
    else Texts(items[1..])
  }

  function NonTexts(items: seq<Json>): (r: seq<Json>)
    ensures forall j :: j in r ==> !(j.Obj? && Get(j, "text").Str?)
  {
    if items == [] then []
    else if items[0].Obj? && Get(items[0], "text").Str? then NonTexts(items[1..])
    else [items[0]] + NonTexts(items[1..])
  }

  function JoinLines(lines: seq<string>): string {
    if lines == [] then "" else if |lines| == 1 then lines[0] else lines[0] + "\n" + JoinLines(lines[1..])
  }

  /** Where a tool result's text was found: in `text`, in string content, or in a content list with these extras. */
  datatype Place = InText | InContent | InList(extras: seq<Json>)

  /** `_extract_tool_result_text` */
  function Extract(block: Json): Option<(string, Place)> {
    if Get(block, "text").Str? then Some((Get(block, "text").s, InText))
    else match Get(block, "content")
      case Str(s) => Some((s, InContent))
      case Arr(items) => if Texts(items) == [] then None else Some((JoinLines(Texts(items)), InList(NonTexts(items))))
      case _ => None
  }

  function TextItem(text: string): Json { Obj(map["type" := Str("text"), "text" := Str(text)]) }

  /** `_replace_tool_result_text` */
  function ReplaceText(block: Json, place: Place, summary: string): Json
    requires block.Obj?
  {
    match place
    case InText => Obj(block.fields["text" := Str(summary)])
    case InContent => Obj(block.fields["content" := Str(summary)])
    case InList(extras) => Obj(block.fields["content" := Arr([TextItem(summary)] + extras)])
  }

  /** The text of a block that truncation looks at. */
  function TextOf(block: Json): Option<string> {
    if !block.Obj? then None
    else if Get(block, "type") == Str("tool_result") then (if Extract(block).Some? then Some(Extract(block).value.0) else None)
    else if Get(block, "type") == Str("text") && Get(block, "text").Str? then Some(Get(block, "text").s)
    else None
  }

  predicate TooLong(c: Config, block: Json) { TextOf(block).Some? && |TextOf(block).value| > c.limit }

  function TruncateBlock(c: Config, block: Json): Json {
    if !TooLong(c, block) then block
    else if Get(block, "type") == Str("tool_result") then
      ReplaceText(block, Extract(block).value.1, Summarize(c, Extract(block).value.0))
    else Obj(block.fields["text" := Str(Summarize(c, Get(block, "text").s))])
  }

  function TruncateBlocks(c: Config, blocks: seq<Json>): (r: seq<Json>) {
    seq(|blocks|, k requires 0 <= k < |blocks| => TruncateBlock(c, blocks[k]))
  }

  // ----- messages ---------------------------------------------------------

  predicate IsUser(m: Json) { m.Obj? && Get(m, "role") == Str("user") }

  function TruncateMessage(c: Config, m: Json): Json {
    if !IsUser(m) then m
    else match Get(m, "content")
      case Str(s) => if |s| > c.limit then Obj(m.fields["content" := Str(Summarize(c, s))]) else m
      case Arr(blocks) => Obj(m.fields["content" := Arr(TruncateBlocks(c, blocks))])
      case _ => m
  }

  function Truncate(c: Config, ms: seq<Json>, kept: set<nat>): seq<Json> {
    seq(|ms|, i requires 0 <= i < |ms| => if i in kept then ms[i] else TruncateMessage(c, ms[i]))
  }

  /** The index the caller protects: the first message that is not a system message. */
  function Protected(ms: seq<Json>): set<nat> {
    if FirstOther(ms).Some? then {FirstOther(ms).value} else {}
  }

  function FirstOther(ms: seq<Json>): (r: Option<nat>)
    ensures r.Some? ==> r.value < |ms| && Get(ms[r.value], "role") != Str("system")
    ensures forall i :: 0 <= i < (if r.Some? then r.value else |ms|) ==> Get(ms[i], "role") == Str("system")
  {
    if ms == [] then None
    else if Get(ms[0], "role") != Str("system") then Some(0)
    else
      var r := FirstOther(ms[1..]);
      assert forall i :: 0 < i < |ms| ==> ms[i] == ms[1..][i - 1];
      if r.Some? then Some(r.value + 1) else None
  }

  // ----- the methods ------------------------------------------------------

  /** One round of the loop over a message's blocks. */
  method TruncateOne(c: Config, block: Json) returns (newBlock: Json, changed: bool)
    ensures newBlock == TruncateBlock(c, block)
    ensures !changed ==> newBlock == block
  {
    newBlock, changed := block, false;
    if block.Obj? {
      if Get(block, "type") == Str("tool_result") {
        var extracted := Extract(block);
        if extracted.Some? && extracted.value.0 != "" && |extracted.value.0| > c.limit {
          newBlock := ReplaceText(block, extracted.value.1, Summarize(c, extracted.value.0));
          changed := true;
        }
      } else if Get(block, "type") == Str("text") {
        var text := Get(block, "text");
        if text.Str? && |text.s| > c.limit {
          newBlock := Obj(block.fields["text" := Str(Summarize(c, text.s))]);
          changed := true;
        }
      }
    }
  }

  lemma {:induction false} BlocksSnoc(c: Config, blocks: seq<Json>, k: nat)
    requires k < |blocks|
    ensures TruncateBlocks(c, blocks)[..k + 1] == TruncateBlocks(c, blocks)[..k] + [TruncateBlock(c, blocks[k])]
  {
    var out := TruncateBlocks(c, blocks);
    assert out[..k + 1] == out[..k] + [out[k]];
  }

  method TruncateContent(c: Config, blocks: seq<Json>) returns (newBlocks: seq<Json>, changed: bool)
    ensures newBlocks == TruncateBlocks(c, blocks)
    ensures !changed ==> newBlocks == blocks
  {
    newBlocks, changed := [], false;
    for k := 0 to |blocks|
      invariant newBlocks == TruncateBlocks(c, blocks)[..k]
      invariant !changed ==> newBlocks == blocks[..k]
    {
      var block, cut := TruncateOne(c, blocks[k]);
      BlocksSnoc(c, blocks, k);
      assert blocks[..k + 1] == blocks[..k] + [blocks[k]];
      newBlocks := newBlocks + [block];
      changed := changed || cut;
    }
  }

  /** `_truncate_tool_results` */
  method TruncateToolResults(c: Config, ms: seq<Json>, kept: set<nat>) returns (truncated: seq<Json>)
    ensures truncated == Truncate(c, ms, kept)
  {
    truncated := [];
    for i := 0 to |ms|
      invariant truncated == Truncate(c, ms, kept)[..i]
    {
      var m := ms[i];
      if i !in kept && IsUser(m) {
        var content := Get(m, "content");
        if content.Str? && |content.s| > c.limit {
          m := Obj(m.fields["content" := Str(Summarize(c, content.s))]);
        } else if content.Arr? {
          var newBlocks, changed := TruncateContent(c, content.items);
          if changed {
            m := Obj(m.fields["content" := Arr(newBlocks)]);
          } else {
            assert m.fields["content" := Arr(content.items)] == m.fields;
          }
        }
      }
      truncated := truncated + [m];
    }
  }

  // ----- what truncation achieves -----------------------------------------

  /** Room for the marker: what it takes besides the count and the digest. */
  lemma MarkerLength(c: Config, text: string)
    requires |text| > c.limit
    ensures |Marker(c, text)| == 50 + |Digits(|text| - c.limit)| + |c.sha(text)|
  {
  }

  predicate BlockMarkerFits(c: Config, block: Json) { TextOf(block).Some? ==> MarkerFits(c, TextOf(block).value) }

  predicate MarkersFit(c: Config, m: Json) {
    match Get(m, "content")
    case Str(s) => MarkerFits(c, s)
    case Arr(blocks) => forall k :: 0 <= k < |blocks| ==> BlockMarkerFits(c, blocks[k])
    case _ => true
  }

  lemma {:induction false} ExtrasHaveNoText(items: seq<Json>)
    requires forall j :: j in items ==> !(j.Obj? && Get(j, "text").Str?)
    ensures Texts(items) == [] && NonTexts(items) == items
  {
    if items != [] { ExtrasHaveNoText(items[1..]); }
  }

  /** A replaced text is found again where it was put, and nothing else with it. */
  lemma ReplacedIsExtracted(block: Json, summary: string)
    requires block.Obj? && Extract(block).Some?
    ensures var place := Extract(block).value.1;
            && ReplaceText(block, place, summary).Obj?
            && Extract(ReplaceText(block, place, summary)) == Some((summary, place))
            && Get(ReplaceText(block, place, summary), "type") == Get(block, "type")
  {
    assert "text"[2] != "type"[2] && "content"[0] != "type"[0] && "content"[0] != "text"[0];
    match Extract(block).value.1
    case InList(extras) =>
      ExtrasHaveNoText(extras);
      assert Get(TextItem(summary), "text") == Str(summary);
      assert ([TextItem(summary)] + extras)[1..] == extras;
      assert Texts([TextItem(summary)] + extras) == [summary] + Texts(extras);
      assert NonTexts([TextItem(summary)] + extras) == extras;
    case _ =>
  }

  lemma TruncatedResultFits(c: Config, block: Json, summary: string)
    requires block.Obj? && Get(block, "type") == Str("tool_result") && Extract(block).Some? && |summary| <= c.limit
    ensures !TooLong(c, ReplaceText(block, Extract(block).value.1, summary))
  {
    ReplacedIsExtracted(block, summary);
  }

  lemma TruncatedTextFits(c: Config, block: Json, summary: string)
    requires block.Obj? && Get(block, "type") == Str("text") && |summary| <= c.limit
    ensures !TooLong(c, Obj(block.fields["text" := Str(summary)]))
  {
    assert "text"[2] != "type"[2] && |"text"| == 4 && |"tool_result"| == 11;
    var b := Obj(block.fields["text" := Str(summary)]);
    assert Get(b, "text") == Str(summary) && Get(b, "type") == Get(block, "type");
  }

  /** A truncated block has no text beyond the limit. */
  lemma TruncatedBlockFits(c: Config, block: Json)
    requires BlockMarkerFits(c, block)
    ensures !TooLong(c, TruncateBlock(c, block))
  {
    if TooLong(c, block) {
      var text := TextOf(block).value;
      SummaryFitsIff(c, text);
      if Get(block, "type") == Str("tool_result") {
        TruncatedResultFits(c, block, Summarize(c, text));
      } else {
        TruncatedTextFits(c, block, Summarize(c, text));
      }
    }
  }

  predicate MessageFits(c: Config, m: Json) {
    match Get(m, "content")
    case Str(s) => |s| <= c.limit
    case Arr(blocks) => forall k :: 0 <= k < |blocks| ==> !TooLong(c, blocks[k])
    case _ => true
  }

  lemma {:induction false} TruncatedFits(c: Config, m: Json)
    requires IsUser(m) ==> MarkersFit(c, m)
    ensures var t := TruncateMessage(c, m);
            && Get(t, "role") == Get(m, "role")
            && (if IsUser(m) then MessageFits(c, t) else t == m)
  {
    assert "role"[0] != "content"[0];
    if IsUser(m) {
      match Get(m, "content")
      case Str(s) => SummaryFitsIff(c, s);
      case Arr(blocks) =>
        forall k | 0 <= k < |blocks| ensures !TooLong(c, TruncateBlocks(c, blocks)[k]) {
          TruncatedBlockFits(c, blocks[k]);
        }
        assert Get(TruncateMessage(c, m), "content") == Arr(TruncateBlocks(c, blocks));
      case _ =>
    }
  }

  lemma {:induction false} FittingMessageStays(c: Config, m: Json)
    requires MessageFits(c, m)
    ensures TruncateMessage(c, m) == m
  {
    if IsUser(m) && Get(m, "content").Arr? {
      var blocks := Get(m, "content").items;
      assert TruncateBlocks(c, blocks) == blocks;
      assert m.fields["content" := Arr(blocks)] == m.fields;
    }
  }

  /** With room for the markers of the user messages it cuts, truncation is idempotent. */
  lemma {:induction false} TruncatingTwice(c: Config, ms: seq<Json>, kept: set<nat>)
    requires forall i :: 0 <= i < |ms| && i !in kept && IsUser(ms[i]) ==> MarkersFit(c, ms[i])
    ensures Truncate(c, Truncate(c, ms, kept), kept) == Truncate(c, ms, kept)
  {
    var once := Truncate(c, ms, kept);
    forall i | 0 <= i < |ms| && i !in kept ensures TruncateMessage(c, once[i]) == once[i] {
      TruncatedFits(c, ms[i]);
      if IsUser(ms[i]) {
        FittingMessageStays(c, once[i]);
      }
    }
  }

  // ----- stability of the prompt ------------------------------------------

  lemma {:induction false} FirstOtherOfLonger(ms: seq<Json>, more: seq<Json>)
    ensures FirstOther(ms).Some? ==> FirstOther(ms + more) == FirstOther(ms)
    ensures FirstOther(ms).None? && FirstOther(ms + more).Some? ==> FirstOther(ms + more).value >= |ms|
  {
    var a, b := FirstOther(ms), FirstOther(ms + more);
    assert forall i :: 0 <= i < |ms| ==> (ms + more)[i] == ms[i];
    if a.Some? {
      assert Get((ms + more)[a.value], "role") != Str("system");
    }
  }

  /** A longer history's truncation begins with the shorter one's: nothing behind the cache breakpoint changes. */
  lemma {:induction false} PrefixIsStable(c: Config, ms: seq<Json>, more: seq<Json>)
    ensures Truncate(c, ms, Protected(ms)) <= Truncate(c, ms + more, Protected(ms + more))
  {
    FirstOtherOfLonger(ms, more);
    var short, long := Truncate(c, ms, Protected(ms)), Truncate(c, ms + more, Protected(ms + more));
    forall i | 0 <= i < |ms| ensures short[i] == long[i] {
      assert (ms + more)[i] == ms[i];
      assert i in Protected(ms) <==> i in Protected(ms + more);
    }
  }

  /** Truncation protects the same message again. */
  lemma {:induction false} ProtectedStays(c: Config, ms: seq<Json>)
    ensures Protected(Truncate(c, ms, Protected(ms))) == Protected(ms)
  {
    var out := Truncate(c, ms, Protected(ms));
    forall i | 0 <= i < |ms| ensures Get(out[i], "role") == Get(ms[i], "role") {
      assert "role"[0] != "content"[0];
    }
    var a, b := FirstOther(ms), FirstOther(out);
    if a.Some? { assert Get(out[a.value], "role") != Str("system"); }
    if b.Some? { assert Get(ms[b.value], "role") != Str("system"); }
  }

  // ----- in plain terms -----------------------------------------------------

  /** The candidate taken is the first that fits. */
  lemma {:induction false} FirstFittingIsFirst(limit: int, candidates: seq<string>)
    ensures var r := FirstFitting(limit, candidates);
            if r.None? then forall s :: s in candidates ==> |s| > limit
            else exists k :: 0 <= k < |candidates| && candidates[k] == r.value && |candidates[k]| <= limit
                             && forall j :: 0 <= j < k ==> |candidates[j]| > limit
  {
    if candidates != [] && |candidates[0]| > limit {
      var rest := candidates[1..];
      FirstFittingIsFirst(limit, rest);
      if FirstFitting(limit, rest).Some? {
        var k :| 0 <= k < |rest| && rest[k] == FirstFitting(limit, rest).value && |rest[k]| <= limit
                 && forall j :: 0 <= j < k ==> |rest[j]| > limit;
        assert candidates[k + 1] == rest[k];
        assert forall j :: 0 < j < k + 1 ==> candidates[j] == rest[j - 1];
      }
    }
  }

  /** The number that digits spell. */
  function Number(digits: string): int {
    if digits == "" then 0 else 10 * Number(digits[..|digits| - 1]) + (digits[|digits| - 1] as int - '0' as int)
  }

  lemma {:induction false} DigitsSpellNumber(n: nat)
    ensures Number(Digits(n)) == n && forall c :: c in Digits(n) ==> '0' <= c <= '9'
  {
    if n >= 10 {
      DigitsSpellNumber(n / 10);
      assert Digits(n)[..|Digits(n)| - 1] == Digits(n / 10);
    } else {
      assert Number("") == 0 && Digits(n)[..0] == "";
    }
  }

  predicate IsText(item: Json) { item.Obj? && Get(item, "text").Str? }

  /** The texts of a content list in order, and all its other items in order. */
  lemma {:induction false} ListIsParted(items: seq<Json>)
    ensures NonTexts(items) == Filter((item: Json) => !IsText(item), items)
    ensures var texts := Filter((item: Json) => IsText(item), items);
            |Texts(items)| == |texts| && forall k :: 0 <= k < |texts| ==> Get(texts[k], "text") == Str(Texts(items)[k])
  {
    if items != [] {
      ListIsParted(items[1..]);
      FilterSame((item: Json) => !IsText(item), (item: Json) => !IsText(item), items[1..]);
    }
  }

  /** Lines are joined by line feeds. */
  lemma {:induction false} JoinOneMore(lines: seq<string>, line: string)
    ensures JoinLines(lines + [line]) == if lines == [] then line else JoinLines(lines) + "\n" + line
  {
    if lines == [] {
      assert lines + [line] == [line];
    } else {
      JoinOneMore(lines[1..], line);
      assert (lines + [line])[1..] == lines[1..] + [line] && (lines + [line])[0] == lines[0];
    }
  }

  lemma {:induction false} JoinedIsLonger(lines: seq<string>, line: string)
    requires line in lines
    ensures |line| <= |JoinLines(lines)|
  {
    if |lines| > 1 && line != lines[0] { JoinedIsLonger(lines[1..], line); }
  }

  lemma {:induction false} TextIsAmongTexts(items: seq<Json>, item: Json)
    requires item in items && IsText(item)
    ensures Get(item, "text").s in Texts(items)
  {
    if item != items[0] { TextIsAmongTexts(items[1..], item); }
  }

  /** No text of the block is longer than the limit, wherever a client would find it. */
  predicate NoLongText(limit: nat, block: Json) {
    && (Get(block, "type") == Str("text") && Get(block, "text").Str? ==> |Get(block, "text").s| <= limit)
    && (Get(block, "type") == Str("tool_result") ==>
          if Get(block, "text").Str? then |Get(block, "text").s| <= limit
          else match Get(block, "content")
            case Str(s) => |s| <= limit
            case Arr(items) => forall item :: item in items && IsText(item) ==> |Get(item, "text").s| <= limit
            case _ => true)
  }

  lemma {:induction false} FittingBlockHasNoLongText(c: Config, block: Json)
    requires !TooLong(c, block)
    ensures NoLongText(c.limit, block)
  {
    assert |"text"| == 4 && |"tool_result"| == 11;
    if block.Obj? && Get(block, "type") == Str("tool_result") && !Get(block, "text").Str? && Get(block, "content").Arr? {
      var items := Get(block, "content").items;
      forall item | item in items && IsText(item) ensures |Get(item, "text").s| <= c.limit {
        TextIsAmongTexts(items, item);
        JoinedIsLonger(Texts(items), Get(item, "text").s);
      }
    }
  }

  /** A user message whose markers have room holds no text beyond the limit any more. */
  lemma {:induction false} NoLongTextIsLeft(c: Config, m: Json)
    requires m.Obj? && Get(m, "role") == Str("user") && MarkersFit(c, m)
    ensures match Get(TruncateMessage(c, m), "content")
            case Str(s) => |s| <= c.limit
            case Arr(blocks) => forall block :: block in blocks ==> NoLongText(c.limit, block)
            case _ => true
  {
    TruncatedFits(c, m);
    var t := TruncateMessage(c, m);
    if Get(t, "content").Arr? {
      forall block | block in Get(t, "content").items ensures NoLongText(c.limit, block) {
        var k :| 0 <= k < |Get(t, "content").items| && Get(t, "content").items[k] == block;
        FittingBlockHasNoLongText(c, block);
      }
    }
  }

  /** Truncation touches nothing but that text: a block keeps its other fields, a message its other fields and its number of blocks. */
  lemma {:induction false} OnlyTextChanges(c: Config, block: Json)
    ensures var b := TruncateBlock(c, block);
            && (block.Obj? ==> b.Obj? && b.fields.Keys == block.fields.Keys)
            && (!block.Obj? ==> b == block)
            && (forall key :: key != "text" && key != "content" ==> Get(b, key) == Get(block, key))
            && (Get(block, "text").Str? ==> Get(b, "content") == Get(block, "content"))
            && (!Get(block, "text").Str? ==> Get(b, "text") == Get(block, "text"))
  {
    assert |"text"| == 4 && |"content"| == 7;
  }

  lemma {:induction false} OnlyContentChanges(c: Config, m: Json)
    ensures var t := TruncateMessage(c, m);
            && (forall key :: key != "content" ==> Get(t, key) == Get(m, key))
            && (Get(m, "content").Arr? ==> Get(t, "content").Arr? && |Get(t, "content").items| == |Get(m, "content").items|)
  {
  }
}
