/** The syntax of one server-sent event frame, as the gateway reads it. */
module SseFrame {
  import opened Prelude
  import opened Text
  import opened Json
  import opened Sse

  // ----- lines ------------------------------------------------------------

  /** `str.splitlines`: every Unicode line boundary, "\r\n" counting once. */
  predicate IsLineBreak(c: char) {
    || '\n' <= c <= '\r' || '\U{1C}' <= c <= '\U{1E}' || c == '\U{85}' || c == '\U{2028}' || c == '\U{2029}'
  }

  function LineEnd(s: string): (n: nat)
    ensures n <= |s| && (n < |s| ==> IsLineBreak(s[n])) && forall i :: 0 <= i < n ==> !IsLineBreak(s[i])
  {
    if s == "" || IsLineBreak(s[0]) then 0 else 1 + LineEnd(s[1..])
  }

  function SplitLines(s: string): (lines: seq<string>)
    decreases |s|
  {
    if s == "" then []
    else
      var n := LineEnd(s);
      if n == |s| then [s]
      else [s[..n]] + SplitLines(s[if s[n] == '\r' && n + 1 < |s| && s[n + 1] == '\n' then n + 2 else n + 1..])
  }

  // ----- one frame --------------------------------------------------------

  datatype Event = Event(name: Option<string>, payload: Json)

  /** The name in the frame's last `event:` line; a blank one counts as none. */
  function EventName(lines: seq<string>): Option<string> {
    if lines == [] then None
    else
      var last := Strip(lines[|lines| - 1]);
      if StartsWith(last, "event:") then
        var name := Strip(last[6..]);
        if name == "" then None else Some(name)
      else EventName(lines[..|lines| - 1])
  }

  /** The texts of the frame's `data:` lines. */
  function DataTexts(lines: seq<string>): seq<string> {
    if lines == [] then []
    else
      var line := Strip(lines[0]);
      (if StartsWith(line, "data:") && !StartsWith(line, "event:") then [Strip(line[5..])] else []) + DataTexts(lines[1..])
  }

  /** The one JSON object a frame carries, or None: such a frame passes untouched. */
  function FrameEvent(load: Loader, frame: string): Option<Event> {
    var lines := SplitLines(frame);
    var data := DataTexts(lines);
    if |data| != 1 || data[0] == "" || data[0] == "[DONE]" then None
    else match load(data[0])
      case Some(Obj(fields)) => Some(Event(EventName(lines), Obj(fields)))
      case _ => None
  }

  function PayloadType(e: Event): Json {
    var t := Get(e.payload, "type");
    if Truthy(t) then t else if e.name.Some? then Str(e.name.value) else Null
  }

  function SignalOf(e: Event): Signal {
    var index := AsIndex(Get(e.payload, "index"));
    if PayloadType(e) == Str("content_block_start") then
      var block := Get(e.payload, "content_block");
      if index.Some? && block.Obj? && Get(block, "type").Str? then Opens(index.value, Get(block, "type").s) else Silent
    else if PayloadType(e) == Str("content_block_stop") then
      if index.Some? then Closes(index.value) else Silent
    else if PayloadType(e) == Str("content_block_delta") then
      var delta := Get(e.payload, "delta");
      if index.Some? && delta.Obj? && Get(delta, "type") == Str("thinking_delta") then Thinks(index.value) else Silent
    else Silent
  }

  function FrameSignal(load: Loader, frame: string): Signal {
    var e := FrameEvent(load, frame);
    if e.None? then Silent else SignalOf(e.value)
  }

  /** The reader the gateway's sanitizer is built on. */
  function Decoder(load: Loader): Reader { frame => FrameSignal(load, frame) }

  lemma EmptyFrameIsSilent(load: Loader)
    ensures Decoder(load)("") == Silent
  {
    assert SplitLines("") == [] && DataTexts([]) == [];
  }

  /** The gateway's filter leaves a stream as it is exactly when it drops nothing and the last frame is complete. */
  lemma StreamUntouchedIffClean(load: Loader, text: string)
    ensures Flatten(FilterText(Decoder(load), text).out) == text
            <==> FilterText(Decoder(load), text).dropped == 0 && Frames(text).1 == ""
  {
    EmptyFrameIsSilent(load);
    IdenticalIffClean(Decoder(load), text);
  }
}
