/**
  Repairing a conversation history: malformed tool calls become text, and the
  results of calls so rewritten are removed.  Messages are JSON values, as they
  arrive in a request.
*/
module History {
  import opened Prelude
  import opened Text
  import opened Json
  import opened ToolInput

  /** Required fields by tool name. */
  type Required = map<string, seq<string>>

  // ----- blocks -----------------------------------------------------------

  predicate IsUse(role: Json, block: Json) {
    role == Str("assistant") && block.Obj? && Get(block, "type") == Str("tool_use")
  }

  predicate IsResult(role: Json, block: Json) {
    role == Str("user") && block.Obj? && Get(block, "type") == Str("tool_result")
  }

  /** `_missing_required_fields` */
  function MissingFields(tool: string, input: Json, required: Required): seq<string> {
    if tool !in required then [] else Filter((field: string) => Blank(Get(input, field)), required[tool])
  }

  /** The call cannot be repaired: its input is no JSON object, or a required field is missing. */
  predicate Malformed(load: Loader, required: Required, block: Json) {
    && Get(block, "name").Str?
    && var parsed := Coerce(load, Get(block, "input"));
       parsed.None? || MissingFields(Get(block, "name").s, parsed.value, required) != []
  }

  /** The id of a call that will be rewritten. */
  predicate Rewritten(load: Loader, required: Required, role: Json, block: Json, id: string) {
    IsUse(role, block) && Malformed(load, required, block) && Get(block, "id") == Str(id)
  }

  function FieldList(missing: seq<string>): string {
    if missing == [] then ""
    else "`" + missing[0] + "`" + (if |missing| == 1 then "" else ", " + FieldList(missing[1..]))
  }

  const DROPPED_CALL := "[gateway] Dropped malformed call to tool `"
  const NOT_JSON := "arguments were not valid JSON. Retry with a complete arguments object."
  const FIELDS_MISSING := "missing required field(s) "
  const RETRY_WITH_ALL := ". Retry with all required arguments."

  /** `_malformed_tool_text`, for the two reasons a call is rewritten for. */
  function MalformedText(tool: string, missing: seq<string>): string {
    DROPPED_CALL + tool + "`: " + (if missing == [] then NOT_JSON else FIELDS_MISSING + FieldList(missing) + RETRY_WITH_ALL)
  }

  function TextBlock(text: string): Json { Obj(map["type" := Str("text"), "text" := Str(text)]) }

  const PLACEHOLDER := TextBlock("[gateway] (previous tool call was dropped)")

  /** The trimmed input of a call whose input reads. */
  function Trimmed(load: Loader, block: Json): Option<Json> {
    var parsed := Coerce(load, Get(block, "input"));
    if Get(block, "name").Str? && parsed.Some? && TrimInput(Get(block, "name").s, parsed.value) != parsed.value
    then Some(TrimInput(Get(block, "name").s, parsed.value)) else None
  }

  function TrimBlock(load: Loader, block: Json): Json {
    if block.Obj? && Trimmed(load, block).Some? then Obj(block.fields["input" := Trimmed(load, block).value]) else block
  }

  /** What becomes of a block, when the calls in `gone` have been rewritten before. */
  function RewriteBlock(load: Loader, required: Required, role: Json, gone: set<string>, block: Json): seq<Json> {
    if IsResult(role, block) && Get(block, "tool_use_id").Str? && Get(block, "tool_use_id").s in gone then []
    else if !IsUse(role, block) then [block]
    else if !Malformed(load, required, block) then [TrimBlock(load, block)]
    else
      var parsed := Coerce(load, Get(block, "input"));
      var missing := if parsed.Some? then MissingFields(Get(block, "name").s, parsed.value, required) else [];
      [TextBlock(MalformedText(Get(block, "name").s, missing))]
  }

  /** How often a block is counted as patched. */
  function BlockPatches(load: Loader, required: Required, role: Json, block: Json): nat {
    if !IsUse(role, block) then 0
    else (if Trimmed(load, block).Some? then 1 else 0) + (if Malformed(load, required, block) then 1 else 0)
  }

  /** Looking a list or a dict up in the set of dropped ids raises: neither can be hashed. */
  predicate Raises(role: Json, block: Json) {
    IsResult(role, block) && (Get(block, "tool_use_id").Arr? || Get(block, "tool_use_id").Obj?)
  }

  // ----- messages ---------------------------------------------------------

  function Content(m: Json): seq<Json> { if Get(m, "content").Arr? then Get(m, "content").items else [] }

  function Role(m: Json): Json { Get(m, "role") }

  function RewriteContent(load: Loader, required: Required, role: Json, gone: set<string>, items: seq<Json>): seq<Json> {
    if items == [] then []
    else RewriteContent(load, required, role, gone, items[..|items| - 1])
         + RewriteBlock(load, required, role, gone, items[|items| - 1])
  }

  function WithContent(m: Json, items: seq<Json>): Json
    requires m.Obj?
  {
    Obj(m.fields["content" := Arr(if items == [] then [PLACEHOLDER] else items)])
  }

  function RewriteMessage(load: Loader, required: Required, gone: set<string>, m: Json): Json {
    if !m.Obj? || !Get(m, "content").Arr? then m
    else WithContent(m, RewriteContent(load, required, Role(m), gone, Content(m)))
  }

  function GoneIn(load: Loader, required: Required, role: Json, items: seq<Json>): set<string> {
    set k | 0 <= k < |items| && IsUse(role, items[k]) && Malformed(load, required, items[k]) && Get(items[k], "id").Str?
      :: Get(items[k], "id").s
  }

  /** The ids of the calls rewritten in these messages. */
  function Gone(load: Loader, required: Required, ms: seq<Json>): set<string> {
    if ms == [] then {}
    else Gone(load, required, ms[..|ms| - 1]) + GoneIn(load, required, Role(ms[|ms| - 1]), Content(ms[|ms| - 1]))
  }

  function ContentPatches(load: Loader, required: Required, role: Json, items: seq<Json>): nat {
    if items == [] then 0
    else ContentPatches(load, required, role, items[..|items| - 1]) + BlockPatches(load, required, role, items[|items| - 1])
  }

  function Patches(load: Loader, required: Required, ms: seq<Json>): nat {
    if ms == [] then 0
    else Patches(load, required, ms[..|ms| - 1]) + ContentPatches(load, required, Role(ms[|ms| - 1]), Content(ms[|ms| - 1]))
  }

  /** Every message, rewritten with the ids rewritten in the messages before it. */
  function Rewrite(load: Loader, required: Required, ms: seq<Json>): seq<Json> {
    seq(|ms|, i requires 0 <= i < |ms| => RewriteMessage(load, required, Gone(load, required, ms[..i]), ms[i]))
  }

  predicate MessageRaises(m: Json) { ContentRaises(Role(m), Content(m)) }

  predicate ContentRaises(role: Json, items: seq<Json>) { exists k :: 0 <= k < |items| && Raises(role, items[k]) }

  predicate HistoryRaises(ms: seq<Json>) { exists i :: 0 <= i < |ms| && MessageRaises(ms[i]) }

  lemma GoneInStep(load: Loader, required: Required, role: Json, items: seq<Json>, k: nat)
    requires k < |items|
    ensures GoneIn(load, required, role, items[..k + 1])
            == GoneIn(load, required, role, items[..k]) + IdOf(load, required, role, items[k])
  {
    var a, b := items[..k], items[..k + 1];
    assert forall i :: 0 <= i < k ==> a[i] == b[i];
    assert b[k] == items[k];
  }

  lemma TrimmingKeepsMissing(tool: string, input: Json, required: Required)
    requires input.Obj?
    ensures MissingFields(tool, TrimInput(tool, input), required) == MissingFields(tool, input, required)
  {
    if tool in required {
      var trimmed := TrimInput(tool, input);
      forall field | field in required[tool] ensures Blank(Get(trimmed, field)) <==> Blank(Get(input, field)) {
        TrimmingKeepsBlank(tool, input, field);
      }
      FilterSame((field: string) => Blank(Get(trimmed, field)), (field: string) => Blank(Get(input, field)), required[tool]);
    }
  }

  // ----- the methods ------------------------------------------------------

  function IdOf(load: Loader, required: Required, role: Json, block: Json): set<string> {
    if IsUse(role, block) && Malformed(load, required, block) && Get(block, "id").Str? then {Get(block, "id").s} else {}
  }

  /** One round of the loop over a message's blocks; None: it raised. */
  method SanitizeBlock(load: Loader, required: Required, role: Json, block: Json, dropped0: set<string>)
    returns (kept: Option<seq<Json>>, dropped: set<string>, patched: nat)
    ensures kept.None? <==> Raises(role, block)
    ensures kept.Some? ==>
              && kept.value == RewriteBlock(load, required, role, dropped0, block)
              && dropped == dropped0 + IdOf(load, required, role, block)
              && patched == BlockPatches(load, required, role, block)
  {
    kept, dropped, patched := Some([block]), dropped0, 0;
    if !block.Obj? {
      return;
    }
    if IsResult(role, block) {
      var id := Get(block, "tool_use_id");
      if id.Arr? || id.Obj? {
        return None, dropped, patched;
      }
      if id.Str? && id.s in dropped {
        kept := Some([]);
      }
    } else if IsUse(role, block) && Get(block, "name").Str? {
      kept, dropped, patched := SanitizeCall(load, required, role, block, dropped0);
    }
  }

  /** The call's input, decoded and trimmed, and the block with it written back if that changed it. */
  method TrimCall(load: Loader, block: Json) returns (input: Option<Json>, kept: Json, patched: nat)
    requires block.Obj? && Get(block, "name").Str?
    ensures var parsed := Coerce(load, Get(block, "input"));
            input == if parsed.None? then None else Some(TrimInput(Get(block, "name").s, parsed.value))
    ensures kept == TrimBlock(load, block) && patched == if Trimmed(load, block).Some? then 1 else 0
  {
    input, kept, patched := None, block, 0;
    var parsed := Coerce(load, Get(block, "input"));
    if parsed.Some? {
      var trimmed := TrimInput(Get(block, "name").s, parsed.value);
      input := Some(trimmed);
      if trimmed != parsed.value {
        kept := Obj(block.fields["input" := trimmed]);
        patched := 1;
      }
    }
  }

  /** What a call becomes may be told from its trimmed input. */
  lemma {:induction false} TrimmedTells(load: Loader, required: Required, role: Json, gone: set<string>, block: Json,
                                        input: Option<Json>, missing: seq<string>)
    requires IsUse(role, block) && Get(block, "name").Str?
    requires var parsed := Coerce(load, Get(block, "input"));
             input == if parsed.None? then None else Some(TrimInput(Get(block, "name").s, parsed.value))
    requires missing == if input.None? then [] else MissingFields(Get(block, "name").s, input.value, required)
    ensures var bad := input.None? || missing != [];
            && RewriteBlock(load, required, role, gone, block)
               == [if bad then TextBlock(MalformedText(Get(block, "name").s, missing)) else TrimBlock(load, block)]
            && IdOf(load, required, role, block) == (if bad && Get(block, "id").Str? then {Get(block, "id").s} else {})
            && BlockPatches(load, required, role, block)
               == (if Trimmed(load, block).Some? then 1 else 0) + (if bad then 1 else 0)
  {
    var parsed := Coerce(load, Get(block, "input"));
    if parsed.Some? { TrimmingKeepsMissing(Get(block, "name").s, parsed.value, required); }
  }

  method SanitizeCall(load: Loader, required: Required, role: Json, block: Json, dropped0: set<string>)
    returns (kept: Option<seq<Json>>, dropped: set<string>, patched: nat)
    requires IsUse(role, block) && Get(block, "name").Str?
    ensures kept == Some(RewriteBlock(load, required, role, dropped0, block))
    ensures dropped == dropped0 + IdOf(load, required, role, block)
    ensures patched == BlockPatches(load, required, role, block)
  {
    dropped := dropped0;
    var tool := Get(block, "name").s;
    var input, trimmed;
    input, trimmed, patched := TrimCall(load, block);
    kept := Some([trimmed]);
    var missing := [];
    if input.Some? {
      missing := MissingFields(tool, input.value, required);
    }
    TrimmedTells(load, required, role, dropped0, block, input, missing);
    if input.Some? && missing == [] {
      return;
    }
    var id := Get(block, "id");
    if id.Str? {
      dropped := dropped + {id.s};
    }
    kept := Some([TextBlock(MalformedText(tool, missing))]);
    patched := patched + 1;
  }

  lemma GoneMattersToUsers(load: Loader, required: Required, role: Json, items: seq<Json>, block: Json, gone: set<string>)
    ensures RewriteBlock(load, required, role, gone + GoneIn(load, required, role, items), block)
            == RewriteBlock(load, required, role, gone, block)
  {
    if IsResult(role, block) {
      assert GoneIn(load, required, role, items) == {};
    }
  }

  /** What the loop over a message's blocks has computed after k of them. */
  ghost predicate ContentSoFar(load: Loader, required: Required, role: Json, dropped0: set<string>, items: seq<Json>, k: nat,
                               kept: seq<Json>, dropped: set<string>, patched: nat)
    requires k <= |items|
  {
    && kept == RewriteContent(load, required, role, dropped0, items[..k])
    && dropped == dropped0 + GoneIn(load, required, role, items[..k])
    && patched == ContentPatches(load, required, role, items[..k])
  }

  lemma ContentStep(load: Loader, required: Required, role: Json, dropped0: set<string>, items: seq<Json>, k: nat,
                    kept: seq<Json>, dropped: set<string>, patched: nat)
    requires k < |items| && ContentSoFar(load, required, role, dropped0, items, k, kept, dropped, patched)
    ensures ContentSoFar(load, required, role, dropped0, items, k + 1,
                         kept + RewriteBlock(load, required, role, dropped, items[k]),
                         dropped + IdOf(load, required, role, items[k]),
                         patched + BlockPatches(load, required, role, items[k]))
  {
    assert items[..k + 1][..k] == items[..k];
    GoneInStep(load, required, role, items, k);
    GoneMattersToUsers(load, required, role, items[..k], items[k], dropped0);
  }

  /** The loop over one message's blocks. */
  method SanitizeContent(load: Loader, required: Required, role: Json, items: seq<Json>, dropped0: set<string>)
    returns (content: Option<seq<Json>>, dropped: set<string>, patched: nat)
    ensures content.None? <==> ContentRaises(role, items)
    ensures content.Some? ==> ContentSoFar(load, required, role, dropped0, items, |items|, content.value, dropped, patched)
  {
    var kept: seq<Json> := [];
    dropped, patched := dropped0, 0;
    for k := 0 to |items|
      invariant forall i :: 0 <= i < k ==> !Raises(role, items[i])
      invariant ContentSoFar(load, required, role, dropped0, items, k, kept, dropped, patched)
    {
      ContentStep(load, required, role, dropped0, items, k, kept, dropped, patched);
      var block, more;
      block, dropped, more := SanitizeBlock(load, required, role, items[k], dropped);
      if block.None? {
        return None, dropped, patched;
      }
      kept := kept + block.value;
      patched := patched + more;
    }
    content := Some(kept);
  }

  method SanitizeMessage(load: Loader, required: Required, m: Json, dropped0: set<string>)
    returns (message: Option<Json>, dropped: set<string>, patched: nat)
    ensures message.None? <==> MessageRaises(m)
    ensures message.Some? ==>
              && message.value == RewriteMessage(load, required, dropped0, m)
              && dropped == dropped0 + GoneIn(load, required, Role(m), Content(m))
              && patched == ContentPatches(load, required, Role(m), Content(m))
  {
    if !m.Obj? || !Get(m, "content").Arr? {
      assert Content(m) == [];
      return Some(m), dropped0, 0;
    }
    var items := Content(m);
    assert items[..|items|] == items;
    var content;
    content, dropped, patched := SanitizeContent(load, required, Role(m), items, dropped0);
    message := if content.None? then None else Some(WithContent(m, content.value));
  }

  /** What the loop over the messages has computed after i of them. */
  ghost predicate SoFar(load: Loader, required: Required, ms: seq<Json>, i: nat,
                        rewritten: seq<Json>, dropped: set<string>, patched: nat)
    requires i <= |ms|
  {
    && rewritten == Rewrite(load, required, ms)[..i]
    && dropped == Gone(load, required, ms[..i])
    && patched == Patches(load, required, ms[..i])
  }

  lemma {:induction false} GoneSnoc(load: Loader, required: Required, ms: seq<Json>, m: Json)
    ensures Gone(load, required, ms + [m]) == Gone(load, required, ms) + GoneIn(load, required, Role(m), Content(m))
  {
    assert (ms + [m])[..|ms|] == ms;
  }

  lemma {:induction false} PatchesSnoc(load: Loader, required: Required, ms: seq<Json>, m: Json)
    ensures Patches(load, required, ms + [m])
            == Patches(load, required, ms) + ContentPatches(load, required, Role(m), Content(m))
  {
    assert (ms + [m])[..|ms|] == ms;
  }

  lemma {:induction false} RewriteSnoc(load: Loader, required: Required, ms: seq<Json>, i: nat)
    requires i < |ms|
    ensures Rewrite(load, required, ms)[..i + 1]
            == Rewrite(load, required, ms)[..i] + [RewriteMessage(load, required, Gone(load, required, ms[..i]), ms[i])]
  {
    var out := Rewrite(load, required, ms);
    assert out[..i + 1] == out[..i] + [out[i]];
  }

  lemma {:induction false} MessageStep(load: Loader, required: Required, ms: seq<Json>, i: nat,
                    rewritten: seq<Json>, dropped: set<string>, patched: nat)
    requires i < |ms| && SoFar(load, required, ms, i, rewritten, dropped, patched)
    ensures SoFar(load, required, ms, i + 1,
                  rewritten + [RewriteMessage(load, required, dropped, ms[i])],
                  dropped + GoneIn(load, required, Role(ms[i]), Content(ms[i])),
                  patched + ContentPatches(load, required, Role(ms[i]), Content(ms[i])))
  {
    var a, b := ms[..i], ms[..i + 1];
    OneMore(ms, i);
    assert Gone(load, required, b) == dropped + GoneIn(load, required, Role(ms[i]), Content(ms[i])) by {
      GoneSnoc(load, required, a, ms[i]);
    }
    assert Patches(load, required, b) == patched + ContentPatches(load, required, Role(ms[i]), Content(ms[i])) by {
      PatchesSnoc(load, required, a, ms[i]);
    }
    RewriteSnoc(load, required, ms, i);
  }

  lemma RaisesUpTo(ms: seq<Json>, i: nat)
    requires i < |ms|
    ensures HistoryRaises(ms[..i + 1]) <==> HistoryRaises(ms[..i]) || MessageRaises(ms[i])
    ensures MessageRaises(ms[i]) ==> HistoryRaises(ms)
  {
    var a, b := ms[..i], ms[..i + 1];
    assert b[i] == ms[i] && forall j :: 0 <= j < i ==> a[j] == b[j];
  }

  /** `_sanitize_history_tool_calls`; None: it raised. */
  method SanitizeHistory(load: Loader, messages: Json, required: Required) returns (out: Option<(Json, nat)>)
    ensures !messages.Arr? || required == map[] ==> out == Some((messages, 0))
    ensures messages.Arr? && required != map[] ==>
              && (out.None? <==> HistoryRaises(messages.items))
              && (out.Some? ==>
                    out.value == (Arr(Rewrite(load, required, messages.items)), Patches(load, required, messages.items)))
  {
    if !messages.Arr? || required == map[] {
      return Some((messages, 0));
    }
    var ms := messages.items;
    var dropped: set<string> := {};
    var patched := 0;
    var rewritten: seq<Json> := [];
    for i := 0 to |ms|
      invariant !HistoryRaises(ms[..i])
      invariant SoFar(load, required, ms, i, rewritten, dropped, patched)
    {
      MessageStep(load, required, ms, i, rewritten, dropped, patched);
      RaisesUpTo(ms, i);
      var message, more;
      message, dropped, more := SanitizeMessage(load, required, ms[i], dropped);
      if message.None? {
        return None;
      }
      rewritten := rewritten + [message.value];
      patched := patched + more;
    }
    assert ms[..|ms|] == ms && rewritten == Rewrite(load, required, ms);
    out := Some((Arr(rewritten), patched));
  }
}
