/** What a repaired history is: same messages and roles, no malformed call, no result without its call. */
module HistoryTheorems {
  import opened Prelude
  import opened Text
  import opened Json
  import opened ToolInput
  import opened History

  /** Every message stays, with its role and its other fields; only list content is rewritten, and never to nothing. */
  lemma {:induction false} ShapeIsKept(load: Loader, required: Required, ms: seq<Json>, i: nat)
    requires i < |ms|
    ensures var out := Rewrite(load, required, ms);
            && |out| == |ms|
            && Role(out[i]) == Role(ms[i])
            && (forall key :: key != "content" ==> Get(out[i], key) == Get(ms[i], key))
            && (!Get(ms[i], "content").Arr? ==> out[i] == ms[i])
            && (Get(out[i], "content").Arr? ==> Content(out[i]) != [])
  {
    assert "role"[0] != "content"[0];
  }

  /** Each block of a rewritten content is what became of one block of the original. */
  lemma {:induction false} BlockOrigin(load: Loader, required: Required, role: Json, gone: set<string>, items: seq<Json>, block: Json)
    requires block in RewriteContent(load, required, role, gone, items)
    ensures exists k :: 0 <= k < |items| && block in RewriteBlock(load, required, role, gone, items[k])
    decreases |items|
  {
    var init, last := items[..|items| - 1], items[|items| - 1];
    if block in RewriteContent(load, required, role, gone, init) {
      BlockOrigin(load, required, role, gone, init, block);
      var k :| 0 <= k < |init| && block in RewriteBlock(load, required, role, gone, init[k]);
      assert init[k] == items[k];
    }
  }

  /** A block of a rewritten message: its origin, or the placeholder. */
  lemma {:induction false} MessageOrigin(load: Loader, required: Required, gone: set<string>, m: Json, block: Json)
    requires block in Content(RewriteMessage(load, required, gone, m))
    ensures Role(RewriteMessage(load, required, gone, m)) == Role(m)
    ensures block == PLACEHOLDER
            || exists k :: 0 <= k < |Content(m)| && block in RewriteBlock(load, required, Role(m), gone, Content(m)[k])
  {
    assert "role"[0] != "content"[0];
    if m.Obj? && Get(m, "content").Arr? && block != PLACEHOLDER {
      BlockOrigin(load, required, Role(m), gone, Content(m), block);
    }
  }

  predicate Sound(load: Loader, required: Required, role: Json, block: Json) {
    IsUse(role, block) ==> !Malformed(load, required, block)
  }

  lemma TextIsSound(load: Loader, required: Required, role: Json, text: string)
    ensures Sound(load, required, role, TextBlock(text)) && !IsResult(role, TextBlock(text))
  {
    assert "type"[1] == 'y' && "text"[1] == 'e';
    assert Get(TextBlock(text), "type") == Str("text");
    assert |"text"| == 4 && |"tool_use"| == 8 && |"tool_result"| == 11;
  }

  lemma WithInputKeeps(block: Json, input: Json)
    requires block.Obj?
    ensures var b := Obj(block.fields["input" := input]);
            Get(b, "input") == input && Get(b, "name") == Get(block, "name") && Get(b, "type") == Get(block, "type")
  {
    assert "input"[0] != "type"[0] && "input"[0] != "name"[0];
  }

  lemma WithInputIsSound(load: Loader, required: Required, role: Json, block: Json, input: Json)
    requires IsUse(role, block) && Get(block, "name").Str? && input.Obj?
    requires MissingFields(Get(block, "name").s, input, required) == []
    ensures IsUse(role, Obj(block.fields["input" := input])) && !Malformed(load, required, Obj(block.fields["input" := input]))
  {
    WithInputKeeps(block, input);
  }

  /** A trimmed call reads to its trimmed input and misses nothing it did not miss before. */
  lemma TrimmedIsSound(load: Loader, required: Required, role: Json, block: Json)
    requires IsUse(role, block) && !Malformed(load, required, block)
    ensures IsUse(role, TrimBlock(load, block)) && !Malformed(load, required, TrimBlock(load, block))
  {
    if Trimmed(load, block).Some? {
      TrimmingKeepsMissing(Get(block, "name").s, Coerce(load, Get(block, "input")).value, required);
      WithInputIsSound(load, required, role, block, Trimmed(load, block).value);
    }
  }

  lemma BlockIsSound(load: Loader, required: Required, role: Json, gone: set<string>, block: Json, b: Json)
    requires b in RewriteBlock(load, required, role, gone, block)
    ensures Sound(load, required, role, b)
    ensures IsResult(role, b) ==> b == block && (Get(b, "tool_use_id").Str? ==> Get(b, "tool_use_id").s !in gone)
  {
    if IsUse(role, block) {
      if Malformed(load, required, block) {
        assert b.Obj? && b == TextBlock(Get(b, "text").s) by { assert "type"[1] != "text"[1]; }
        TextIsSound(load, required, role, Get(b, "text").s);
      } else {
        TrimmedIsSound(load, required, role, block);
      }
    }
  }

  /** No malformed call is left, and no result of a call that was rewritten in an earlier message. */
  lemma NothingMalformedIsLeft(load: Loader, required: Required, ms: seq<Json>, i: nat, b: Json)
    requires i < |ms| && b in Content(Rewrite(load, required, ms)[i])
    ensures Sound(load, required, Role(ms[i]), b)
    ensures IsResult(Role(ms[i]), b) && Get(b, "tool_use_id").Str? ==>
              b in Content(ms[i]) && Get(b, "tool_use_id").s !in Gone(load, required, ms[..i])
  {
    var gone := Gone(load, required, ms[..i]);
    MessageOrigin(load, required, gone, ms[i], b);
    if b == PLACEHOLDER {
      TextIsSound(load, required, Role(ms[i]), "[gateway] (previous tool call was dropped)");
    } else {
      var k :| 0 <= k < |Content(ms[i])| && b in RewriteBlock(load, required, Role(ms[i]), gone, Content(ms[i])[k]);
      BlockIsSound(load, required, Role(ms[i]), gone, Content(ms[i])[k], b);
    }
  }

  predicate RewrittenIn(load: Loader, required: Required, m: Json, id: string) {
    exists k :: 0 <= k < |Content(m)| && Rewritten(load, required, Role(m), Content(m)[k], id)
  }

  /** The gone ids are exactly those of the malformed calls. */
  lemma {:induction false} GoneIsRewritten(load: Loader, required: Required, ms: seq<Json>, id: string)
    ensures id in Gone(load, required, ms) <==> exists j :: 0 <= j < |ms| && RewrittenIn(load, required, ms[j], id)
    decreases |ms|
  {
    if ms != [] {
      var init, last := ms[..|ms| - 1], ms[|ms| - 1];
      GoneIsRewritten(load, required, init, id);
      GoneInIsRewritten(load, required, last, id);
      assert forall j :: 0 <= j < |init| ==> init[j] == ms[j];
    }
  }

  lemma GoneInIsRewritten(load: Loader, required: Required, m: Json, id: string)
    ensures id in GoneIn(load, required, Role(m), Content(m)) <==> RewrittenIn(load, required, m, id)
  {
  }

  predicate Answers(m: Json, block: Json, id: string) {
    block in Content(m) && IsResult(Role(m), block) && Get(block, "tool_use_id") == Str(id)
  }

  /** Every result comes after each malformed call it could answer. */
  ghost predicate ResultsFollowCalls(load: Loader, required: Required, ms: seq<Json>) {
    forall i, j, id, block :: 0 <= i < |ms| && 0 <= j < |ms| ==>
      Answers(ms[i], block, id) && RewrittenIn(load, required, ms[j], id) ==> j < i
  }

  /** Then no result survives whose call was rewritten. */
  lemma NoResultWithoutCall(load: Loader, required: Required, ms: seq<Json>, i: nat, j: nat, block: Json, id: string)
    requires ResultsFollowCalls(load, required, ms) && i < |ms| && j < |ms|
    requires Answers(Rewrite(load, required, ms)[i], block, id)
    ensures !RewrittenIn(load, required, ms[j], id)
  {
    ShapeIsKept(load, required, ms, i);
    NothingMalformedIsLeft(load, required, ms, i, block);
    if RewrittenIn(load, required, ms[j], id) {
      assert Answers(ms[i], block, id);
      assert ms[..i][j] == ms[j];
      GoneIsRewritten(load, required, ms[..i], id);
    }
  }

  // ----- a second pass ----------------------------------------------------

  predicate ContentSound(load: Loader, required: Required, role: Json, items: seq<Json>) {
    forall k :: 0 <= k < |items| ==> Sound(load, required, role, items[k])
  }

  predicate AllSound(load: Loader, required: Required, ms: seq<Json>) {
    forall i :: 0 <= i < |ms| ==> ContentSound(load, required, Role(ms[i]), Content(ms[i]))
  }

  predicate NeverEmpty(ms: seq<Json>) {
    forall i :: 0 <= i < |ms| ==> Get(ms[i], "content").Arr? ==> Content(ms[i]) != []
  }

  /** The block is no call, or a call whose input would not be trimmed. */
  predicate Stable(load: Loader, role: Json, block: Json) { IsUse(role, block) ==> Trimmed(load, block).None? }

  predicate ContentStable(load: Loader, role: Json, items: seq<Json>) {
    forall k :: 0 <= k < |items| ==> Stable(load, role, items[k])
  }

  predicate MessageStable(load: Loader, m: Json) { ContentStable(load, Role(m), Content(m)) }

  predicate AllStable(load: Loader, ms: seq<Json>) {
    forall i :: 0 <= i < |ms| ==> MessageStable(load, ms[i])
  }

  lemma {:induction false} RewriteIsSound(load: Loader, required: Required, ms: seq<Json>)
    ensures AllSound(load, required, Rewrite(load, required, ms)) && NeverEmpty(Rewrite(load, required, ms))
  {
    var out := Rewrite(load, required, ms);
    forall i | 0 <= i < |ms|
      ensures Get(out[i], "content").Arr? ==> Content(out[i]) != []
      ensures ContentSound(load, required, Role(out[i]), Content(out[i]))
    {
      ShapeIsKept(load, required, ms, i);
      forall k | 0 <= k < |Content(out[i])| ensures Sound(load, required, Role(out[i]), Content(out[i])[k]) {
        NothingMalformedIsLeft(load, required, ms, i, Content(out[i])[k]);
      }
    }
  }

  lemma {:induction false} SoundIsNotGone(load: Loader, required: Required, ms: seq<Json>, n: nat)
    requires AllSound(load, required, ms) && n <= |ms|
    ensures Gone(load, required, ms[..n]) == {}
    decreases n
  {
    if n > 0 {
      SoundIsNotGone(load, required, ms, n - 1);
      assert ms[..n][..n - 1] == ms[..n - 1] && ms[..n][n - 1] == ms[n - 1];
      assert GoneIn(load, required, Role(ms[n - 1]), Content(ms[n - 1])) == {};
    }
  }

  function Retrim(load: Loader, role: Json, block: Json): Json {
    if IsUse(role, block) then TrimBlock(load, block) else block
  }

  lemma SoundBlock(load: Loader, required: Required, role: Json, block: Json)
    requires Sound(load, required, role, block)
    ensures RewriteBlock(load, required, role, {}, block) == [Retrim(load, role, block)]
    ensures BlockPatches(load, required, role, block) == 0 <==> Stable(load, role, block)
  {
  }

  /** On sound content a pass trims, block by block. */
  lemma {:induction false} SoundContent(load: Loader, required: Required, role: Json, items: seq<Json>)
    requires ContentSound(load, required, role, items)
    ensures var r := RewriteContent(load, required, role, {}, items);
            |r| == |items| && forall k :: 0 <= k < |r| ==> r[k] == Retrim(load, role, items[k])
    decreases |items|
  {
    if items != [] {
      var init, last := items[..|items| - 1], items[|items| - 1];
      SoundUpTo(load, required, role, items, init, last);
      SoundContent(load, required, role, init);
      SoundBlock(load, required, role, last);
    }
  }

  lemma {:induction false} SoundUpTo(load: Loader, required: Required, role: Json, items: seq<Json>, init: seq<Json>, last: Json)
    requires items == init + [last] && ContentSound(load, required, role, items)
    ensures ContentSound(load, required, role, init) && Sound(load, required, role, last)
  {
    assert Sound(load, required, role, items[|init|]);
    forall k | 0 <= k < |init| ensures Sound(load, required, role, init[k]) { assert init[k] == items[k]; }
  }

  /** And it counts the trims. */
  lemma {:induction false} SoundContentPatches(load: Loader, required: Required, role: Json, items: seq<Json>)
    requires ContentSound(load, required, role, items)
    ensures ContentPatches(load, required, role, items) == 0 <==> ContentStable(load, role, items)
    decreases |items|
  {
    if items != [] {
      var init, last := items[..|items| - 1], items[|items| - 1];
      assert items == init + [last];
      SoundUpTo(load, required, role, items, init, last);
      SoundContentPatches(load, required, role, init);
      SoundBlock(load, required, role, last);
      StableUpTo(load, role, items, init, last);
    }
  }

  lemma {:induction false} StableUpTo(load: Loader, role: Json, items: seq<Json>, init: seq<Json>, last: Json)
    requires items == init + [last]
    ensures ContentStable(load, role, items) <==> ContentStable(load, role, init) && Stable(load, role, last)
  {
    if ContentStable(load, role, items) {
      assert Stable(load, role, items[|init|]);
      forall k | 0 <= k < |init| ensures Stable(load, role, init[k]) { assert init[k] == items[k]; }
    }
    if ContentStable(load, role, init) && Stable(load, role, last) {
      forall k | 0 <= k < |items| ensures Stable(load, role, items[k]) { assert k < |init| ==> items[k] == init[k]; }
    }
  }

  /** Trimming is visible: a block that is trimmed changes. */
  lemma TrimChanges(load: Loader, role: Json, block: Json)
    ensures Retrim(load, role, block) == block <==> Stable(load, role, block)
  {
  }

  lemma {:induction false} SoundMessage(load: Loader, required: Required, m: Json)
    requires ContentSound(load, required, Role(m), Content(m))
    requires Get(m, "content").Arr? ==> Content(m) != []
    ensures RewriteMessage(load, required, {}, m) == m <==> MessageStable(load, m)
    ensures |Content(RewriteMessage(load, required, {}, m))| == |Content(m)|
  {
    var items := Content(m);
    SoundContent(load, required, Role(m), items);
    var r := RewriteContent(load, required, Role(m), {}, items);
    forall k | 0 <= k < |items| ensures r[k] == items[k] <==> Stable(load, Role(m), items[k]) {
      TrimChanges(load, Role(m), items[k]);
    }
    if m.Obj? && Get(m, "content").Arr? {
      assert RewriteMessage(load, required, {}, m) == Obj(m.fields["content" := Arr(r)]);
      if r == items {
        assert m.fields["content" := Arr(r)] == m.fields;
      } else {
        assert Get(RewriteMessage(load, required, {}, m), "content") == Arr(r);
      }
    }
  }

  lemma {:induction false} AllStableUpTo(load: Loader, ms: seq<Json>, init: seq<Json>, last: Json)
    requires ms == init + [last]
    ensures AllStable(load, ms) <==> AllStable(load, init) && MessageStable(load, last)
  {
    if AllStable(load, ms) {
      assert MessageStable(load, ms[|init|]);
      forall i | 0 <= i < |init| ensures MessageStable(load, init[i]) { assert init[i] == ms[i]; }
    }
    if AllStable(load, init) && MessageStable(load, last) {
      forall i | 0 <= i < |ms| ensures MessageStable(load, ms[i]) { assert i < |init| ==> ms[i] == init[i]; }
    }
  }

  lemma {:induction false} AllSoundUpTo(load: Loader, required: Required, ms: seq<Json>, init: seq<Json>, last: Json)
    requires ms == init + [last] && AllSound(load, required, ms)
    ensures AllSound(load, required, init) && ContentSound(load, required, Role(last), Content(last))
  {
    assert ms[|init|] == last;
    forall i | 0 <= i < |init| ensures ContentSound(load, required, Role(init[i]), Content(init[i])) { assert init[i] == ms[i]; }
  }

  lemma {:induction false} SoundPatches(load: Loader, required: Required, ms: seq<Json>)
    requires AllSound(load, required, ms)
    ensures Patches(load, required, ms) == 0 <==> AllStable(load, ms)
    decreases |ms|
  {
    if ms != [] {
      var init, last := ms[..|ms| - 1], ms[|ms| - 1];
      assert ms == init + [last];
      AllSoundUpTo(load, required, ms, init, last);
      SoundPatches(load, required, init);
      SoundContentPatches(load, required, Role(last), Content(last));
      AllStableUpTo(load, ms, init, last);
    }
  }

  // ----- what is kept ------------------------------------------------------

  /** The block is no result of a call that was rewritten before. */
  predicate Stays(role: Json, gone: set<string>, block: Json) {
    !(IsResult(role, block) && Get(block, "tool_use_id").Str? && Get(block, "tool_use_id").s in gone)
  }

  /** Sound blocks pass, their inputs trimmed; a malformed call becomes a text. */
  predicate Fate(load: Loader, required: Required, role: Json, block: Json, b: Json) {
    if Sound(load, required, role, block) then b == Retrim(load, role, block)
    else b.Obj? && Get(b, "text").Str? && b == TextBlock(Get(b, "text").s)
  }

  function Staying(role: Json, gone: set<string>, items: seq<Json>): seq<Json> {
    Filter((block: Json) => Stays(role, gone, block), items)
  }

  lemma {:induction false} FateOfOne(load: Loader, required: Required, role: Json, gone: set<string>, block: Json)
    ensures var r := RewriteBlock(load, required, role, gone, block);
            if Stays(role, gone, block) then |r| == 1 && Fate(load, required, role, block, r[0]) else r == []
  {
    if IsUse(role, block) && Malformed(load, required, block) {
      var text := MalformedBecomesText(load, required, role, gone, block);
      assert Get(TextBlock(text), "text") == Str(text) by { assert "type"[1] != "text"[1]; }
    }
  }

  /** The contents are those blocks, in order, each after its fate. */
  ghost predicate AreFates(load: Loader, required: Required, role: Json, blocks: seq<Json>, r: seq<Json>) {
    |r| == |blocks| && forall k :: 0 <= k < |r| ==> Fate(load, required, role, blocks[k], r[k])
  }

  lemma {:induction false} FatesAppend(load: Loader, required: Required, role: Json, a: seq<Json>, b: seq<Json>,
                                       ra: seq<Json>, rb: seq<Json>)
    requires AreFates(load, required, role, a, ra) && AreFates(load, required, role, b, rb)
    ensures AreFates(load, required, role, a + b, ra + rb)
  {
  }

  lemma {:induction false} StayingSnoc(role: Json, gone: set<string>, init: seq<Json>, last: Json)
    ensures Staying(role, gone, init + [last]) == Staying(role, gone, init) + if Stays(role, gone, last) then [last] else []
  {
    var p := (block: Json) => Stays(role, gone, block);
    FilterAppend(p, init, [last]);
    assert Filter(p, [last]) == if p(last) then [last] else [];
  }

  lemma {:induction false} ContentIsKept(load: Loader, required: Required, role: Json, gone: set<string>, items: seq<Json>)
    ensures AreFates(load, required, role, Staying(role, gone, items), RewriteContent(load, required, role, gone, items))
    decreases |items|
  {
    if items != [] {
      var init, last := items[..|items| - 1], items[|items| - 1];
      var before, r := RewriteContent(load, required, role, gone, init), RewriteBlock(load, required, role, gone, last);
      assert RewriteContent(load, required, role, gone, items) == before + r;
      ContentIsKept(load, required, role, gone, init);
      FateOfOne(load, required, role, gone, last);
      assert items == init + [last];
      StayingSnoc(role, gone, init, last);
      FatesAppend(load, required, role, Staying(role, gone, init), if Stays(role, gone, last) then [last] else [], before, r);
    }
  }

  /**
    Nothing else is touched: the blocks of a rewritten message are those of the
    original, in order, without the results of calls rewritten in earlier messages;
    every sound block is there as it was, up to Read path trimming, and every
    malformed call as a text.  A message left without blocks gets the placeholder.
  */
  lemma {:induction false} EverythingElseIsKept(load: Loader, required: Required, ms: seq<Json>, i: nat)
    requires i < |ms| && ms[i].Obj? && Get(ms[i], "content").Arr?
    ensures var stay := Staying(Role(ms[i]), Gone(load, required, ms[..i]), Content(ms[i]));
            var out := Content(Rewrite(load, required, ms)[i]);
            if stay == [] then out == [PLACEHOLDER] else AreFates(load, required, Role(ms[i]), stay, out)
  {
    var gone := Gone(load, required, ms[..i]);
    ContentIsKept(load, required, Role(ms[i]), gone, Content(ms[i]));
    assert Get(WithContent(ms[i], RewriteContent(load, required, Role(ms[i]), gone, Content(ms[i]))), "content").Arr?;
  }

  // ----- when a second pass trims: a guard on the original history -------

  /** The block is no call that is kept and holds a Read path in nested quotes. */
  predicate Settled(load: Loader, required: Required, role: Json, block: Json) {
    IsUse(role, block) && Get(block, "name").Str? && !Malformed(load, required, block) ==>
      !InputRetrims(Get(block, "name").s, Coerce(load, Get(block, "input")).value)
  }

  predicate ContentSettled(load: Loader, required: Required, role: Json, items: seq<Json>) {
    forall k :: 0 <= k < |items| ==> Settled(load, required, role, items[k])
  }

  predicate AllSettled(load: Loader, required: Required, ms: seq<Json>) {
    forall i :: 0 <= i < |ms| ==> MessageSettled(load, required, ms[i])
  }

  predicate MessageSettled(load: Loader, required: Required, m: Json) { ContentSettled(load, required, Role(m), Content(m)) }

  /** A trimmed call is stable exactly when the original's input does not trim again. */
  lemma {:induction false} TrimBlockStableIff(load: Loader, role: Json, block: Json)
    requires IsUse(role, block) && Get(block, "name").Str? && Coerce(load, Get(block, "input")).Some?
    ensures Stable(load, role, TrimBlock(load, block))
            <==> !InputRetrims(Get(block, "name").s, Coerce(load, Get(block, "input")).value)
  {
    var tool, parsed := Get(block, "name").s, Coerce(load, Get(block, "input")).value;
    TrimInputTwiceIff(tool, parsed);
    if Trimmed(load, block).None? {
      CallStableIff(load, role, block, parsed);
    } else {
      WithInputKeeps(block, TrimInput(tool, parsed));
      CallStableIff(load, role, TrimBlock(load, block), TrimInput(tool, parsed));
    }
  }

  lemma {:induction false} CallStableIff(load: Loader, role: Json, call: Json, input: Json)
    requires IsUse(role, call) && Get(call, "name").Str? && Coerce(load, Get(call, "input")) == Some(input)
    ensures Stable(load, role, call) <==> TrimInput(Get(call, "name").s, input) == input
  {
  }

  lemma {:induction false} RewrittenBlockStableIff(load: Loader, required: Required, role: Json, gone: set<string>, block: Json)
    ensures ContentStable(load, role, RewriteBlock(load, required, role, gone, block)) <==> Settled(load, required, role, block)
  {
    if IsUse(role, block) {
      if Malformed(load, required, block) {
        MalformedIsStable(load, required, role, gone, block);
      } else {
        assert RewriteBlock(load, required, role, gone, block) == [TrimBlock(load, block)];
        OneIsStable(load, role, TrimBlock(load, block));
        if Get(block, "name").Str? { TrimBlockStableIff(load, role, block); }
      }
    } else {
      OneIsStable(load, role, block);
    }
  }

  lemma {:induction false} MalformedIsStable(load: Loader, required: Required, role: Json, gone: set<string>, block: Json)
    requires IsUse(role, block) && Malformed(load, required, block)
    ensures ContentStable(load, role, RewriteBlock(load, required, role, gone, block))
  {
    var text := MalformedBecomesText(load, required, role, gone, block);
    TextIsStable(load, role, text);
    OneIsStable(load, role, TextBlock(text));
  }

  lemma {:induction false} MalformedBecomesText(load: Loader, required: Required, role: Json, gone: set<string>, block: Json)
    returns (text: string)
    requires IsUse(role, block) && Malformed(load, required, block)
    ensures RewriteBlock(load, required, role, gone, block) == [TextBlock(text)]
  {
    var parsed := Coerce(load, Get(block, "input"));
    text := MalformedText(Get(block, "name").s,
                          if parsed.Some? then MissingFields(Get(block, "name").s, parsed.value, required) else []);
  }

  lemma TextIsStable(load: Loader, role: Json, text: string)
    ensures Stable(load, role, TextBlock(text))
  {
    assert "type"[1] != "text"[1];
    assert Get(TextBlock(text), "type") == Str("text") && |"text"| != |"tool_use"|;
  }

  lemma OneIsStable(load: Loader, role: Json, block: Json)
    ensures ContentStable(load, role, [block]) <==> Stable(load, role, block)
  {
    assert [block][0] == block;
  }

  lemma {:induction false} StableAppend(load: Loader, role: Json, a: seq<Json>, b: seq<Json>)
    ensures ContentStable(load, role, a + b) <==> ContentStable(load, role, a) && ContentStable(load, role, b)
  {
    if ContentStable(load, role, a + b) {
      forall k | 0 <= k < |a| ensures Stable(load, role, a[k]) { assert (a + b)[k] == a[k]; }
      forall k | 0 <= k < |b| ensures Stable(load, role, b[k]) { assert (a + b)[|a| + k] == b[k]; }
    }
    if ContentStable(load, role, a) && ContentStable(load, role, b) {
      forall k | 0 <= k < |a + b| ensures Stable(load, role, (a + b)[k]) {
        assert (a + b)[k] == if k < |a| then a[k] else b[k - |a|];
      }
    }
  }

  lemma {:induction false} SettledUpTo(load: Loader, required: Required, role: Json, items: seq<Json>, init: seq<Json>, last: Json)
    requires items == init + [last]
    ensures ContentSettled(load, required, role, items)
            <==> ContentSettled(load, required, role, init) && Settled(load, required, role, last)
  {
    if ContentSettled(load, required, role, items) {
      assert Settled(load, required, role, items[|init|]);
      forall k | 0 <= k < |init| ensures Settled(load, required, role, init[k]) { assert init[k] == items[k]; }
    }
    if ContentSettled(load, required, role, init) && Settled(load, required, role, last) {
      forall k | 0 <= k < |items| ensures Settled(load, required, role, items[k]) { assert k < |init| ==> items[k] == init[k]; }
    }
  }

  lemma {:induction false} RewrittenContentStableIff(load: Loader, required: Required, role: Json, gone: set<string>, items: seq<Json>)
    ensures ContentStable(load, role, RewriteContent(load, required, role, gone, items))
            <==> ContentSettled(load, required, role, items)
    decreases |items|
  {
    if items != [] {
      var init, last := items[..|items| - 1], items[|items| - 1];
      var before, block := RewriteContent(load, required, role, gone, init), RewriteBlock(load, required, role, gone, last);
      assert RewriteContent(load, required, role, gone, items) == before + block;
      assert items == init + [last];
      StableAppend(load, role, before, block);
      SettledUpTo(load, required, role, items, init, last);
      RewrittenContentStableIff(load, required, role, gone, init);
      RewrittenBlockStableIff(load, required, role, gone, last);
    }
  }

  lemma {:induction false} WithContentStableIff(load: Loader, m: Json, items: seq<Json>)
    requires m.Obj?
    ensures MessageStable(load, WithContent(m, items)) <==> ContentStable(load, Role(m), items)
  {
    var kept := if items == [] then [PLACEHOLDER] else items;
    assert "role"[0] != "content"[0];
    assert Role(WithContent(m, items)) == Role(m) && Content(WithContent(m, items)) == kept;
    TextIsStable(load, Role(m), "[gateway] (previous tool call was dropped)");
    OneIsStable(load, Role(m), PLACEHOLDER);
  }

  lemma {:induction false} RewrittenMessageStableIff(load: Loader, required: Required, gone: set<string>, m: Json)
    ensures MessageStable(load, RewriteMessage(load, required, gone, m)) <==> MessageSettled(load, required, m)
  {
    if m.Obj? && Get(m, "content").Arr? {
      var items := RewriteContent(load, required, Role(m), gone, Content(m));
      RewrittenContentStableIff(load, required, Role(m), gone, Content(m));
      WithContentStableIff(load, m, items);
      assert RewriteMessage(load, required, gone, m) == WithContent(m, items);
    } else {
      assert Content(m) == [];
    }
  }

  lemma {:induction false} StableIffSettled(load: Loader, required: Required, ms: seq<Json>)
    ensures AllStable(load, Rewrite(load, required, ms)) <==> AllSettled(load, required, ms)
  {
    var out := Rewrite(load, required, ms);
    forall i | 0 <= i < |ms| ensures MessageStable(load, out[i]) <==> MessageSettled(load, required, ms[i]) {
      RewrittenMessageStableIff(load, required, Gone(load, required, ms[..i]), ms[i]);
    }
  }

  lemma {:induction false} PassOnSound(load: Loader, required: Required, out: seq<Json>)
    requires AllSound(load, required, out) && NeverEmpty(out)
    ensures Rewrite(load, required, out) == out <==> AllStable(load, out)
    ensures forall i :: 0 <= i < |out| ==> |Content(Rewrite(load, required, out)[i])| == |Content(out[i])|
  {
    var again := Rewrite(load, required, out);
    forall i | 0 <= i < |out|
      ensures again[i] == out[i] <==> MessageStable(load, out[i])
      ensures |Content(again[i])| == |Content(out[i])|
    {
      SoundIsNotGone(load, required, out, i);
      SoundMessage(load, required, out[i]);
    }
  }

  /**
    A second pass rewrites no call and removes no block.  It changes the history,
    and counts a patch, exactly when some call that is kept held a Read path in
    nested quotes.
  */
  lemma {:induction false} SecondPassOnlyTrims(load: Loader, required: Required, ms: seq<Json>)
    ensures var out := Rewrite(load, required, ms);
            && (Rewrite(load, required, out) == out <==> AllSettled(load, required, ms))
            && (Patches(load, required, out) == 0 <==> AllSettled(load, required, ms))
            && (forall i :: 0 <= i < |ms| ==> |Content(Rewrite(load, required, out)[i])| == |Content(out[i])|)
  {
    var out := Rewrite(load, required, ms);
    RewriteIsSound(load, required, ms);
    PassOnSound(load, required, out);
    SoundPatches(load, required, out);
    StableIffSettled(load, required, ms);
  }

  /** The fields a Read call must have, and `file_path`. */
  function ReadFields(required: Required): set<string> {
    {"file_path"} + if "Read" in required then set field | field in required["Read"] else {}
  }

  /** The input of a Read call that misses nothing: the path, and a text in every other field. */
  function ReadInput(path: string, required: Required): Json {
    Obj(map field | field in ReadFields(required) :: if field == "file_path" then Str(path) else Str("x"))
  }

  function ReadCall(path: string, required: Required): Json {
    Obj(map["type" := Str("tool_use"), "name" := Str("Read"), "input" := ReadInput(path, required)])
  }

  function Saying(block: Json): Json { Obj(map["role" := Str("assistant"), "content" := Arr([block])]) }

  /**
    Whatever fields are required there is such a history: a single Read of '"a"',
    which the second pass turns from "a" into a.
  */
  lemma NestedQuotesChangeAgain(load: Loader, required: Required)
    ensures var out := Rewrite(load, required, [Saying(ReadCall("'\"a\"'", required))]); Rewrite(load, required, out) != out
  {
    var path, ms := "'\"a\"'", [Saying(ReadCall("'\"a\"'", required))];
    CallFields(path, required);
    NestedQuotes();
    OnceIsStableIff(path);
    RetrimmedIsUnsettled(load, required, path);
    assert !MessageSettled(load, required, ms[0]) by { assert Content(ms[0])[0] == ReadCall(path, required); }
    SecondPassOnlyTrims(load, required, ms);
  }

  lemma RetrimmedIsUnsettled(load: Loader, required: Required, path: string)
    requires Retrims(path) && !Blank(Str(path))
    ensures !Settled(load, required, Str("assistant"), ReadCall(path, required))
  {
    CallFields(path, required);
    NothingIsMissing(path, required);
  }

  lemma {:induction false} NothingIsMissing(path: string, required: Required)
    requires !Blank(Str(path))
    ensures MissingFields("Read", ReadInput(path, required), required) == []
  {
    if "Read" in required {
      var input := ReadInput(path, required);
      assert !Blank(Str("x"));
      forall field | field in required["Read"] ensures !Blank(Get(input, field)) {
        assert field in ReadFields(required);
      }
      FilterNone((field: string) => Blank(Get(input, field)), required["Read"]);
    }
  }

  lemma CallFields(path: string, required: Required)
    ensures var call := ReadCall(path, required);
            && Get(call, "type") == Str("tool_use") && Get(call, "name") == Str("Read")
            && Get(call, "input") == ReadInput(path, required) && Get(ReadInput(path, required), "file_path") == Str(path)
    ensures var m := Saying(ReadCall(path, required)); Role(m) == Str("assistant") && Content(m) == [ReadCall(path, required)]
  {
    assert "type"[0] != "name"[0] && "type"[0] != "input"[0] && "name"[0] != "input"[0] && "role"[0] != "content"[0];
    assert "file_path" in ReadFields(required);
  }

  // ----- in plain terms -----------------------------------------------------

  /** The field is there and, if it is a text, not blank. */
  predicate HasField(input: Json, field: string) {
    Get(input, field) != Null && (Get(input, field).Str? ==> Strip(Get(input, field).s) != "")
  }

  /** The call's input decodes and has every field that its tool requires. */
  predicate Usable(load: Loader, required: Required, call: Json)
    requires Get(call, "name").Str?
  {
    && Coerce(load, Get(call, "input")).Some?
    && (Get(call, "name").s in required ==>
          forall field :: field in required[Get(call, "name").s] ==> HasField(Coerce(load, Get(call, "input")).value, field))
  }

  lemma {:induction false} UnusableIffMalformed(load: Loader, required: Required, call: Json)
    requires Get(call, "name").Str?
    ensures Malformed(load, required, call) <==> !Usable(load, required, call)
  {
    var tool, parsed := Get(call, "name").s, Coerce(load, Get(call, "input"));
    if parsed.Some? && tool in required {
      var blank := (field: string) => Blank(Get(parsed.value, field));
      assert MissingFields(tool, parsed.value, required) == Filter(blank, required[tool]);
      forall field ensures blank(field) <==> !HasField(parsed.value, field) {}
      if Usable(load, required, call) {
        FilterNone(blank, required[tool]);
      } else {
        var field :| field in required[tool] && !HasField(parsed.value, field);
        assert field in Filter(blank, required[tool]);
      }
    }
  }

  /** An assistant's call of a named tool. */
  predicate NamesTool(role: Json, block: Json) {
    role == Str("assistant") && block.Obj? && Get(block, "type") == Str("tool_use") && Get(block, "name").Str?
  }

  /** A user's result of one of these calls. */
  predicate AnswersGone(role: Json, gone: set<string>, block: Json) {
    && role == Str("user") && block.Obj? && Get(block, "type") == Str("tool_result")
    && exists id :: id in gone && Get(block, "tool_use_id") == Str(id)
  }

  /** The fields a call lacks, in the order they are required; none if its input does not decode. */
  function Lacking(load: Loader, required: Required, call: Json): seq<string>
    requires Get(call, "name").Str?
  {
    var input := Coerce(load, Get(call, "input"));
    if input.Some? && Get(call, "name").s in required
    then Filter((field: string) => !HasField(input.value, field), required[Get(call, "name").s]) else []
  }

  lemma {:induction false} LackingAreMissing(load: Loader, required: Required, call: Json)
    requires Get(call, "name").Str?
    ensures Coerce(load, Get(call, "input")).Some? ==>
              MissingFields(Get(call, "name").s, Coerce(load, Get(call, "input")).value, required) == Lacking(load, required, call)
  {
    var tool, parsed := Get(call, "name").s, Coerce(load, Get(call, "input"));
    if parsed.Some? && tool in required {
      FilterSame((field: string) => Blank(Get(parsed.value, field)), (field: string) => !HasField(parsed.value, field),
                 required[tool]);
    }
  }

  /** A call with its input trimmed, where trimming changes it. */
  function WithTrimmedInput(call: Json, input: Json): Json
    requires call.Obj? && input.Obj? && Get(call, "name").Str?
  {
    var trimmed := TrimInput(Get(call, "name").s, input);
    if trimmed == input then call else Obj(call.fields["input" := trimmed])
  }

  /** What becomes of one block. */
  lemma {:induction false} BlocksInPlainTerms(load: Loader, required: Required, role: Json, gone: set<string>, block: Json)
    ensures var r := RewriteBlock(load, required, role, gone, block);
            if AnswersGone(role, gone, block) then r == []
            else if !NamesTool(role, block) then r == [block]
            else if Usable(load, required, block) then r == [WithTrimmedInput(block, Coerce(load, Get(block, "input")).value)]
            else r == [TextBlock(MalformedText(Get(block, "name").s, Lacking(load, required, block)))]
  {
    assert |"assistant"| == 9 && |"user"| == 4;
    if NamesTool(role, block) {
      UnusableIffMalformed(load, required, block);
      LackingAreMissing(load, required, block);
    }
  }

  /** No call that a client could not make is left: every call of a named tool can be decoded and misses nothing. */
  lemma {:induction false} CallsAreUsable(load: Loader, required: Required, ms: seq<Json>, i: nat, b: Json)
    requires i < |ms| && b in Content(Rewrite(load, required, ms)[i]) && NamesTool(Role(ms[i]), b)
    ensures Usable(load, required, b)
  {
    NothingMalformedIsLeft(load, required, ms, i, b);
    UnusableIffMalformed(load, required, b);
  }

  function Quoted(field: string): string { "`" + field + "`" }

  /** The text lists every missing field between back quotes, in order. */
  lemma {:induction false} FieldsAreListed(missing: seq<string>, field: string)
    ensures FieldList(missing + [field]) == if missing == [] then Quoted(field) else FieldList(missing) + (", " + Quoted(field))
  {
    if missing == [] {
      assert missing + [field] == [field] && Quoted(field) + "" == Quoted(field);
    } else {
      var more := missing + [field];
      assert more[0] == missing[0] && more[1..] == missing[1..] + [field];
      FieldsAreListed(missing[1..], field);
      if |missing| == 1 {
        assert missing[1..] == [] && Quoted(missing[0]) + "" == Quoted(missing[0]);
      } else {
        ListGoesOn(Quoted(missing[0]), FieldList(missing[1..]), ", " + Quoted(field));
      }
    }
  }

  lemma ListGoesOn(first: string, rest: string, last: string)
    ensures first + (", " + (rest + last)) == (first + (", " + rest)) + last
  {
  }

  // ----- what the patch count counts ---------------------------------------

  /** Every trimmed call counts once and every rewritten call once. */
  lemma {:induction false} PatchesAreCounted(load: Loader, required: Required, role: Json, items: seq<Json>)
    ensures ContentPatches(load, required, role, items)
            == |Filter((b: Json) => NamesTool(role, b) && Trimmed(load, b).Some?, items)|
               + |Filter((b: Json) => NamesTool(role, b) && !Usable(load, required, b), items)|
    decreases |items|
  {
    var trimmed := (b: Json) => NamesTool(role, b) && Trimmed(load, b).Some?;
    var unusable := (b: Json) => NamesTool(role, b) && !Usable(load, required, b);
    if items != [] {
      var init, last := items[..|items| - 1], items[|items| - 1];
      PatchesAreCounted(load, required, role, init);
      assert items == init + [last];
      FilterSnoc(trimmed, init, last);
      FilterSnoc(unusable, init, last);
      OneIsCounted(load, required, role, last);
    }
  }

  lemma FilterSnoc<T(!new)>(p: T -> bool, init: seq<T>, last: T)
    ensures |Filter(p, init + [last])| == |Filter(p, init)| + if p(last) then 1 else 0
  {
    FilterAppend(p, init, [last]);
    assert [last][1..] == [] && Filter(p, [last][1..]) == [];
  }

  lemma {:induction false} OneIsCounted(load: Loader, required: Required, role: Json, b: Json)
    ensures BlockPatches(load, required, role, b)
            == (if NamesTool(role, b) && Trimmed(load, b).Some? then 1 else 0)
               + (if NamesTool(role, b) && !Usable(load, required, b) then 1 else 0)
  {
    if Get(b, "name").Str? { UnusableIffMalformed(load, required, b); }
  }

  /** Nothing is counted exactly when nothing is changed, in a history without empty contents. */
  lemma {:induction false} UnpatchedIffUnchanged(load: Loader, required: Required, ms: seq<Json>)
    requires NeverEmpty(ms)
    ensures Patches(load, required, ms) == 0 <==> Rewrite(load, required, ms) == ms
  {
    if AllSound(load, required, ms) {
      PassOnSound(load, required, ms);
      SoundPatches(load, required, ms);
    } else {
      RewriteIsSound(load, required, ms);
      if Patches(load, required, ms) == 0 { UnpatchedIsSound(load, required, ms); }
    }
  }

  lemma {:induction false} UnpatchedIsSound(load: Loader, required: Required, ms: seq<Json>)
    requires Patches(load, required, ms) == 0
    ensures AllSound(load, required, ms)
    decreases |ms|
  {
    if ms != [] {
      var init, last := ms[..|ms| - 1], ms[|ms| - 1];
      UnpatchedIsSound(load, required, init);
      UnpatchedContentIsSound(load, required, Role(last), Content(last));
      forall i | 0 <= i < |ms| ensures ContentSound(load, required, Role(ms[i]), Content(ms[i])) {
        if i < |init| { assert init[i] == ms[i]; }
      }
    }
  }

  lemma {:induction false} UnpatchedContentIsSound(load: Loader, required: Required, role: Json, items: seq<Json>)
    requires ContentPatches(load, required, role, items) == 0
    ensures ContentSound(load, required, role, items)
    decreases |items|
  {
    if items != [] {
      var init, last := items[..|items| - 1], items[|items| - 1];
      UnpatchedContentIsSound(load, required, role, init);
      forall k | 0 <= k < |items| ensures Sound(load, required, role, items[k]) {
        if k < |init| { assert init[k] == items[k]; }
      }
    }
  }
}
