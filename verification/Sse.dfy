/**
  The incremental filter for server-sent events: frames end in a blank line, and
  a thinking delta for a block that is not an open thinking block is dropped.
*/
module Sse {
  import opened Prelude

  const BREAK := "\n\n"

  // ----- frames -----------------------------------------------------------

  /** Where the first "\n\n" starts. */
  function FindBreak(s: string): (r: Option<nat>)
    ensures r.Some? ==> r.value + 2 <= |s| && s[r.value] == '\n' && s[r.value + 1] == '\n'
  {
    if |s| < 2 then None
    else if s[0] == '\n' && s[1] == '\n' then Some(0)
    else
      var r := FindBreak(s[1..]);
      if r.None? then None else Some(r.value + 1)
  }

  /** It is the first one: no earlier place, and none at all when there is no result, has two newlines. */
  lemma {:induction false} BreakIsFirst(s: string, i: nat)
    requires i + 1 < |s| && (FindBreak(s).Some? ==> i < FindBreak(s).value)
    ensures !(s[i] == '\n' && s[i + 1] == '\n')
  {
    if i > 0 { BreakIsFirst(s[1..], i - 1); }
  }

  /** The complete frames of a text, without their blank lines, and what follows the last one. */
  function Frames(s: string): (r: (seq<string>, string))
    decreases |s|
  {
    var k := FindBreak(s);
    if k.None? then ([], s)
    else
      var rest := Frames(s[k.value + 2..]);
      ([s[..k.value]] + rest.0, rest.1)
  }

  // ----- the filter as a function -----------------------------------------

  /** What the filter reads out of an event. */
  datatype Signal = Opens(index: int, blockType: string) | Closes(index: int) | Thinks(index: int) | Silent

  /** How a frame is read; the frame syntax itself is in module SseFrame. */
  type Reader = string -> Signal

  type Types = map<int, string>

  datatype Filtered = Filtered(out: seq<string>, types: Types, dropped: nat)

  predicate Passes(types: Types, s: Signal) {
    s.Thinks? ==> s.index in types && types[s.index] == "thinking"
  }

  function After(types: Types, s: Signal): Types {
    match s
    case Opens(i, t) => types[i := t]
    case Closes(i) => types - {i}
    case _ => types
  }

  /** Filtering complete frames, from a given map of open blocks. */
  function FilterFrames(read: Reader, types: Types, frames: seq<string>): Filtered
    decreases |frames|
  {
    if frames == [] then Filtered([], types, 0)
    else
      var s := read(frames[0]);
      var rest := FilterFrames(read, After(types, s), frames[1..]);
      if Passes(types, s) then rest.(out := [frames[0] + BREAK] + rest.out)
      else rest.(dropped := rest.dropped + 1)
  }

  function RStripNewlines(s: string): (r: string)
    ensures r <= s && (r != "" ==> r[|r| - 1] != '\n') && forall i :: |r| <= i < |s| ==> s[i] == '\n'
  {
    if s != "" && s[|s| - 1] == '\n' then RStripNewlines(s[..|s| - 1]) else s
  }

  /** What `flush` makes of the text after the last blank line. */
  function Tail(rest: string): seq<string> { if rest == "" then [] else [RStripNewlines(rest)] }

  /** The whole stream fed at once and flushed. */
  function FilterText(read: Reader, text: string): Filtered {
    FilterFrames(read, map[], Frames(text).0 + Tail(Frames(text).1))
  }

  lemma {:induction false} FilterFramesAppend(read: Reader, types: Types, a: seq<string>, b: seq<string>)
    ensures var fa := FilterFrames(read, types, a);
            var fb := FilterFrames(read, fa.types, b);
            FilterFrames(read, types, a + b) == Filtered(fa.out + fb.out, fb.types, fa.dropped + fb.dropped)
    decreases |a|
  {
    if a == [] {
      assert a + b == b;
    } else {
      FilterFramesAppend(read, After(types, read(a[0])), a[1..], b);
      assert (a + b)[1..] == a[1..] + b;
    }
  }

  lemma FirstFrame(s: string, k: nat)
    requires FindBreak(s) == Some(k)
    ensures Frames(s) == ([s[..k]] + Frames(s[k + 2..]).0, Frames(s[k + 2..]).1)
  {
  }

  /** Frames found early stay found: splitting a + b is splitting a, then its remainder with b. */
  lemma {:induction false} FramesAppend(a: string, b: string)
    ensures Frames(a + b) == (Frames(a).0 + Frames(Frames(a).1 + b).0, Frames(Frames(a).1 + b).1)
    decreases |a|
  {
    var k := FindBreak(a);
    if k.Some? {
      BreakStays(a, b);
      var head, rest := a[..k.value], a[k.value + 2..];
      PartsOfLonger(a, b, k.value);
      FramesAppend(rest, b);
      FirstFrame(a, k.value);
      FirstFrame(a + b, k.value);
      Associate([head], Frames(rest).0, Frames(Frames(rest).1 + b).0);
    } else {
      assert [] + Frames(a + b).0 == Frames(a + b).0;
    }
  }

  lemma PartsOfLonger(a: string, b: string, k: nat)
    requires k + 2 <= |a|
    ensures (a + b)[..k] == a[..k] && (a + b)[k + 2..] == a[k + 2..] + b
  {
  }

  lemma {:induction false} BreakStays(a: string, b: string)
    requires FindBreak(a).Some?
    ensures FindBreak(a + b) == FindBreak(a)
  {
    if !(a[0] == '\n' && a[1] == '\n') {
      BreakStays(a[1..], b);
      assert (a + b)[1..] == a[1..] + b;
    }
  }

  // ----- the filter in place ----------------------------------------------

  class Sanitizer {
    const read: Reader
    var blockTypes: Types
    var buffer: string
    var dropped: nat

    constructor (read: Reader)
      ensures this.read == read && blockTypes == map[] && buffer == "" && dropped == 0
    {
      this.read := read;
      blockTypes, buffer, dropped := map[], "", 0;
    }

    /** `_sanitize_frame`: whether the frame passes. */
    method SanitizeFrame(frame: string) returns (out: seq<string>)
      modifies this
      ensures var f := FilterFrames(read, old(blockTypes), [frame]);
              out == f.out && blockTypes == f.types && dropped == old(dropped) + f.dropped
      ensures buffer == old(buffer)
    {
      var s := read(frame);
      if s.Thinks? && !(s.index in blockTypes && blockTypes[s.index] == "thinking") {
        dropped := dropped + 1;
        return [];
      }
      match s {
        case Opens(i, t) => blockTypes := blockTypes[i := t];
        case Closes(i) => blockTypes := blockTypes - {i};
        case _ =>
      }
      return [frame + BREAK];
    }

    method Feed(text: string) returns (out: seq<string>)
      modifies this
      ensures var (frames, rest) := Frames(old(buffer) + text);
              var f := FilterFrames(read, old(blockTypes), frames);
              out == f.out && buffer == rest && blockTypes == f.types && dropped == old(dropped) + f.dropped
    {
      buffer := buffer + text;
      ghost var whole := Frames(buffer);
      ghost var done := [];
      out := [];
      assert done + Frames(buffer).0 == Frames(buffer).0;
      while FindBreak(buffer).Some?
        invariant whole == (done + Frames(buffer).0, Frames(buffer).1)
        invariant var f := FilterFrames(read, old(blockTypes), done);
                  out == f.out && blockTypes == f.types && dropped == old(dropped) + f.dropped
        decreases |buffer|
      {
        var k := FindBreak(buffer).value;
        var frame := buffer[..k];
        assert Frames(buffer).0 == [frame] + Frames(buffer[k + 2..]).0;
        assert done + ([frame] + Frames(buffer[k + 2..]).0) == (done + [frame]) + Frames(buffer[k + 2..]).0;
        FilterFramesAppend(read, old(blockTypes), done, [frame]);
        buffer := buffer[k + 2..];
        var kept := SanitizeFrame(frame);
        out := out + kept;
        done := done + [frame];
      }
      assert done + [] == done;
    }

    method Flush() returns (out: seq<string>)
      modifies this
      ensures var f := FilterFrames(read, old(blockTypes), Tail(old(buffer)));
              out == f.out && buffer == "" && blockTypes == f.types && dropped == old(dropped) + f.dropped
    {
      if buffer == "" {
        return [];
      }
      var frame := RStripNewlines(buffer);
      buffer := "";
      out := SanitizeFrame(frame);
    }
  }

  /**
    A stream of text items, in any chunks, filtered and flushed: the output, the
    block map and the drop count depend on the concatenated text alone.
  */
  method SanitizeItems(read: Reader, chunks: seq<string>) returns (out: seq<string>, dropped: nat, types: Types)
    ensures Filtered(out, types, dropped) == FilterText(read, Flatten(chunks))
  {
    var sanitizer := new Sanitizer(read);
    out := [];
    for i := 0 to |chunks|
      invariant fresh(sanitizer) && sanitizer.read == read
      invariant sanitizer.buffer == Frames(Flatten(chunks[..i])).1
      invariant var f := FilterFrames(read, map[], Frames(Flatten(chunks[..i])).0);
                out == f.out && sanitizer.blockTypes == f.types && sanitizer.dropped == f.dropped
    {
      ghost var before := Flatten(chunks[..i]);
      assert chunks[..i + 1] == chunks[..i] + [chunks[i]];
      FlattenAppend(chunks[..i], [chunks[i]]);
      assert Flatten([chunks[i]]) == chunks[i];
      FramesAppend(before, chunks[i]);
      FilterFramesAppend(read, map[], Frames(before).0, Frames(Frames(before).1 + chunks[i]).0);
      var more := sanitizer.Feed(chunks[i]);
      out := out + more;
    }
    assert chunks[..|chunks|] == chunks;
    var (frames, rest) := Frames(Flatten(chunks));
    FilterFramesAppend(read, map[], frames, Tail(rest));
    var more := sanitizer.Flush();
    out, dropped, types := out + more, sanitizer.dropped, sanitizer.blockTypes;
  }

  // ----- theorems ---------------------------------------------------------

  /** Feeding chunk by chunk, as a function: what `feed` returns and keeps, item after item. */
  function FeedAll(read: Reader, types: Types, buffer: string, chunks: seq<string>): (r: (Filtered, string))
    decreases |chunks|
  {
    if chunks == [] then (Filtered([], types, 0), buffer)
    else
      var f := FilterFrames(read, types, Frames(buffer + chunks[0]).0);
      var g := FeedAll(read, f.types, Frames(buffer + chunks[0]).1, chunks[1..]);
      (Filtered(f.out + g.0.out, g.0.types, f.dropped + g.0.dropped), g.1)
  }

  /** Chunking invariance: any two ways of cutting the same text give the same result. */
  lemma {:induction false} ChunkingIsInvisible(read: Reader, types: Types, buffer: string, chunks: seq<string>)
    requires FindBreak(buffer).None?
    ensures FeedAll(read, types, buffer, chunks).0 == FilterFrames(read, types, Frames(buffer + Flatten(chunks)).0)
    ensures FeedAll(read, types, buffer, chunks).1 == Frames(buffer + Flatten(chunks)).1
    decreases |chunks|
  {
    if chunks == [] {
      assert buffer + Flatten(chunks) == buffer;
    } else {
      var head, tail := buffer + chunks[0], Flatten(chunks[1..]);
      var f := FilterFrames(read, types, Frames(head).0);
      var rest := Frames(head).1;
      RemainderHasNoBreak(head);
      ChunkingIsInvisible(read, f.types, rest, chunks[1..]);
      FeedStep(read, types, buffer, chunks);
      FilterTwoParts(read, types, head, tail);
      Associate(buffer, chunks[0], tail);
    }
  }

  lemma FeedStep(read: Reader, types: Types, buffer: string, chunks: seq<string>)
    requires chunks != []
    ensures var f := FilterFrames(read, types, Frames(buffer + chunks[0]).0);
            var g := FeedAll(read, f.types, Frames(buffer + chunks[0]).1, chunks[1..]);
            FeedAll(read, types, buffer, chunks) == (Filtered(f.out + g.0.out, g.0.types, f.dropped + g.0.dropped), g.1)
  {
  }

  lemma FilterTwoParts(read: Reader, types: Types, head: string, tail: string)
    ensures var f := FilterFrames(read, types, Frames(head).0);
            var g := FilterFrames(read, f.types, Frames(Frames(head).1 + tail).0);
            && FilterFrames(read, types, Frames(head + tail).0) == Filtered(f.out + g.out, g.types, f.dropped + g.dropped)
            && Frames(head + tail).1 == Frames(Frames(head).1 + tail).1
  {
    FramesAppend(head, tail);
    FilterFramesAppend(read, types, Frames(head).0, Frames(Frames(head).1 + tail).0);
  }

  lemma {:induction false} RemainderHasNoBreak(s: string)
    ensures FindBreak(Frames(s).1).None?
    decreases |s|
  {
    var k := FindBreak(s);
    if k.Some? { RemainderHasNoBreak(s[k.value + 2..]); }
  }

  /** The type of the block open at an index after some frames: what the last start or stop for it says. */
  function OpenType(read: Reader, frames: seq<string>, index: int): Option<string> {
    if frames == [] then None
    else match read(frames[|frames| - 1])
      case Opens(i, t) => if i == index then Some(t) else OpenType(read, frames[..|frames| - 1], index)
      case Closes(i) => if i == index then None else OpenType(read, frames[..|frames| - 1], index)
      case _ => OpenType(read, frames[..|frames| - 1], index)
  }

  /** Frame i holds a thinking delta for an index whose open block is not `thinking`. */
  predicate Stray(read: Reader, frames: seq<string>, i: nat)
    requires i < |frames|
  {
    var s := read(frames[i]);
    s.Thinks? && OpenType(read, frames[..i], s.index) != Some("thinking")
  }

  /** The frames without the stray ones, each with its blank line. */
  function WithoutStrays(read: Reader, frames: seq<string>): seq<string> {
    if frames == [] then []
    else WithoutStrays(read, frames[..|frames| - 1])
         + (if Stray(read, frames, |frames| - 1) then [] else [frames[|frames| - 1] + BREAK])
  }

  function Strays(read: Reader, frames: seq<string>): nat {
    if frames == [] then 0
    else Strays(read, frames[..|frames| - 1]) + (if Stray(read, frames, |frames| - 1) then 1 else 0)
  }

  /** The filter removes exactly the stray frames, and its map holds exactly the open blocks. */
  lemma {:induction false} FilterRemovesStrays(read: Reader, frames: seq<string>)
    ensures var f := FilterFrames(read, map[], frames);
            && f.out == WithoutStrays(read, frames) && f.dropped == Strays(read, frames)
            && forall index: int :: OpenType(read, frames, index) == if index in f.types then Some(f.types[index]) else None
    decreases |frames|
  {
    if frames != [] {
      var init, last := frames[..|frames| - 1], frames[|frames| - 1];
      FilterRemovesStrays(read, init);
      FilterFramesAppend(read, map[], init, [last]);
      assert init + [last] == frames;
    }
  }

  lemma StrayFramesAreLong(read: Reader, frames: seq<string>, i: nat)
    requires i < |frames| && Stray(read, frames, i) && !read("").Thinks?
    ensures frames[i] != ""
  {
  }

  /** Splitting loses nothing: the frames with their blank lines, and the remainder, make up the text. */
  lemma {:induction false} FramesMakeUpText(s: string)
    ensures s == Flatten(Restored(Frames(s).0)) + Frames(s).1
    decreases |s|
  {
    var k := FindBreak(s);
    if k.Some? {
      var head, tail := s[..k.value], s[k.value + 2..];
      FirstFrame(s, k.value);
      FramesMakeUpText(tail);
      PartsMakeUp(head, tail, Frames(tail).0, Frames(tail).1);
      CutAtBreak(s, k.value);
    } else {
      assert Flatten(Restored([])) == "" && "" + s == s;
    }
  }

  lemma CutAtBreak(s: string, k: nat)
    requires k + 2 <= |s| && s[k] == '\n' && s[k + 1] == '\n'
    ensures (s[..k] + BREAK) + s[k + 2..] == s
  {
  }

  lemma PartsMakeUp(head: string, tail: string, frames: seq<string>, rest: string)
    requires tail == Flatten(Restored(frames)) + rest
    ensures (head + BREAK) + tail == Flatten(Restored([head] + frames)) + rest
  {
    assert ([head] + frames)[1..] == frames;
    assert ([head + BREAK] + Restored(frames))[1..] == Restored(frames);
    Associate(head + BREAK, Flatten(Restored(frames)), rest);
  }

  function Restored(frames: seq<string>): (r: seq<string>)
    ensures |r| == |frames| && forall i :: 0 <= i < |r| ==> r[i] == frames[i] + BREAK
  {
    if frames == [] then [] else [frames[0] + BREAK] + Restored(frames[1..])
  }

  lemma FlattenSnoc(texts: seq<string>, last: string)
    ensures Flatten(texts + [last]) == Flatten(texts) + last
  {
    FlattenAppend(texts, [last]);
    assert Flatten([last]) == last;
  }

  lemma RestoredSnoc(frames: seq<string>)
    requires frames != []
    ensures var init, last := frames[..|frames| - 1], frames[|frames| - 1];
            && Restored(frames) == Restored(init) + [last + BREAK]
            && |Flatten(Restored(frames))| == |Flatten(Restored(init))| + |last| + 2
  {
    var init, last := frames[..|frames| - 1], frames[|frames| - 1];
    FlattenSnoc(Restored(init), last + BREAK);
    assert Restored(frames) == Restored(init) + [last + BREAK];
  }

  lemma WithoutStraysSnoc(read: Reader, frames: seq<string>)
    requires frames != []
    ensures var init, last := frames[..|frames| - 1], frames[|frames| - 1];
            if Stray(read, frames, |frames| - 1) then WithoutStrays(read, frames) == WithoutStrays(read, init)
            else && WithoutStrays(read, frames) == WithoutStrays(read, init) + [last + BREAK]
                 && |Flatten(WithoutStrays(read, frames))| == |Flatten(WithoutStrays(read, init))| + |last| + 2
  {
    var init, last := frames[..|frames| - 1], frames[|frames| - 1];
    if Stray(read, frames, |frames| - 1) {
      assert WithoutStrays(read, init) + [] == WithoutStrays(read, init);
    } else {
      FlattenSnoc(WithoutStrays(read, init), last + BREAK);
    }
  }

  /** Dropping frames shortens the text by more than a flush can add. */
  lemma {:induction false} StraysShorten(read: Reader, frames: seq<string>)
    requires !read("").Thinks?
    ensures |Flatten(WithoutStrays(read, frames))| + 3 * Strays(read, frames) <= |Flatten(Restored(frames))|
    ensures Strays(read, frames) == 0 ==> WithoutStrays(read, frames) == Restored(frames)
    decreases |frames|
  {
    if frames != [] {
      StraysShorten(read, frames[..|frames| - 1]);
      RestoredSnoc(frames);
      WithoutStraysSnoc(read, frames);
      if Stray(read, frames, |frames| - 1) {
        StrayFramesAreLong(read, frames, |frames| - 1);
      }
    }
  }

  lemma SameSuffix(a: string, b: string, c: string)
    requires a + b == a + c
    ensures b == c
  {
    assert (a + b)[|a|..] == b && (a + c)[|a|..] == c;
  }

  /** A remainder is never the text a flush makes of it. */
  lemma FlushChangesText(text: string)
    requires Frames(text).1 != ""
    ensures RStripNewlines(Frames(text).1) + BREAK != Frames(text).1
  {
    var rest := Frames(text).1;
    var last := RStripNewlines(rest);
    RemainderHasNoBreak(text);
    if last + BREAK == rest {
      assert rest[|last|] == '\n' && rest[|last| + 1] == '\n';
      BreakIsFirst(rest, |last|);
    }
  }

  /** What the filter makes of the whole text, when it drops nothing and when it drops something. */
  lemma OutputLength(read: Reader, frames: seq<string>, tail: seq<string>)
    requires !read("").Thinks? && |tail| <= 1
    ensures var f := FilterFrames(read, map[], frames + tail);
            && (f.dropped == 0 ==> Flatten(f.out) == Flatten(Restored(frames)) + Flatten(Restored(tail)))
            && |Flatten(f.out)| + 3 * f.dropped <= |Flatten(Restored(frames))| + |Flatten(Restored(tail))|
  {
    FilterRemovesStrays(read, frames + tail);
    StraysShorten(read, frames + tail);
    RestoredAppend(frames, tail);
    FlattenAppend(Restored(frames), Restored(tail));
  }

  lemma RestoredAppend(a: seq<string>, b: seq<string>)
    ensures Restored(a + b) == Restored(a) + Restored(b)
  {
  }

  /**
    The output is the input, character for character, exactly when nothing was
    dropped and the stream ended on a frame boundary.
  */
  lemma IdenticalIffClean(read: Reader, text: string)
    requires !read("").Thinks?
    ensures Flatten(FilterText(read, text).out) == text
            <==> FilterText(read, text).dropped == 0 && Frames(text).1 == ""
  {
    var frames, rest := Frames(text).0, Frames(text).1;
    FramesMakeUpText(text);
    OutputLength(read, frames, Tail(rest));
    var whole := Flatten(Restored(frames));
    if rest == "" {
      assert Flatten(Restored(Tail(rest))) == "";
      assert whole + "" == whole;
    } else {
      var last := RStripNewlines(rest);
      OneFrame(last);
      FlushChangesText(text);
      if FilterText(read, text).dropped == 0 && whole + (last + BREAK) == text {
        SameSuffix(whole, last + BREAK, rest);
      }
    }
  }

  /** The unended frame at the end of a text, without its line feeds. */
  predicate IsTail(rest: string, tail: seq<string>) {
    if rest == "" then tail == []
    else |tail| == 1 && tail[0] <= rest && (tail[0] == "" || tail[0][|tail[0]| - 1] != '\n')
         && forall i :: |tail[0]| <= i < |rest| ==> rest[i] == '\n'
  }

  /** The whole stream: its frames and, if the text ends in an unended one, that, are output, but for the stray ones. */
  lemma {:induction false} TextIsFiltered(read: Reader, text: string) returns (tail: seq<string>)
    ensures IsTail(Frames(text).1, tail)
    ensures FilterText(read, text).out == WithoutStrays(read, Frames(text).0 + tail)
    ensures FilterText(read, text).dropped == Strays(read, Frames(text).0 + tail)
  {
    tail := Tail(Frames(text).1);
    FilterRemovesStrays(read, Frames(text).0 + tail);
  }

  lemma OneFrame(frame: string)
    ensures Flatten(Restored([frame])) == frame + BREAK
  {
    assert Restored([frame]) == [frame + BREAK];
    assert Flatten([frame + BREAK]) == (frame + BREAK) + Flatten([]);
  }
}
