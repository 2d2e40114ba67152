/** Tool inputs: decoding them, and trimming quote artifacts from the paths of the Read tool. */
module ToolInput {
  import opened Prelude
  import opened Text
  import opened Json

  /** `_coerce_tool_input`: a dict, a text holding one, or nothing; None when it is not valid. */
  function Coerce(load: Loader, raw: Json): (r: Option<Json>)
    ensures r.Some? ==> r.value.Obj?
  {
    match raw
    case Obj(_) => Some(raw)
    case Null => Some(Obj(map[]))
    case Str(s) =>
      if Strip(s) == "" then Some(Obj(map[]))
      else (match load(Strip(s))
            case Some(Obj(fields)) => Some(Obj(fields))
            case _ => None)
    case _ => None
  }

  /**
    An input decodes when it is a dict, nothing, or text that is blank or loads
    to a dict; blanks around a text do not matter, and a decoded input decodes to
    itself.
  */
  lemma {:induction false} DecodesIff(load: Loader, raw: Json)
    ensures Coerce(load, raw).Some? <==>
              || raw.Obj? || raw.Null?
              || (raw.Str? && (Strip(raw.s) == "" || (exists fields :: load(Strip(raw.s)) == Some(Obj(fields)))))
    ensures raw.Obj? ==> Coerce(load, raw) == Some(raw)
    ensures raw.Null? || (raw.Str? && Strip(raw.s) == "") ==> Coerce(load, raw) == Some(Obj(map[]))
    ensures raw.Str? && Strip(raw.s) != "" && Coerce(load, raw).Some? ==> Coerce(load, raw) == load(Strip(raw.s))
    ensures raw.Str? ==> Coerce(load, Str(Strip(raw.s))) == Coerce(load, raw)
    ensures Coerce(load, raw).Some? ==> Coerce(load, Coerce(load, raw).value) == Coerce(load, raw)
  {
    if raw.Str? {
      if Strip(raw.s) == "" {
        assert Strip("") == "";
      } else {
        StripTight(Strip(raw.s));
        if Coerce(load, raw).Some? { assert load(Strip(raw.s)) == Some(Obj(Coerce(load, raw).value.fields)); }
      }
    }
  }

  predicate IsQuote(c: char) { c == '\'' || c == '"' || c == '`' }

  function TrimBack(path: string): (r: string)
    ensures |r| <= |path|
    decreases |path|
  {
    if |path| > 1 && IsQuote(path[|path| - 1]) && path[0] != path[|path| - 1]
    then TrimBack(RStrip(path[..|path| - 1])) else path
  }

  function TrimFront(path: string): (r: string)
    ensures |r| <= |path|
    decreases |path|
  {
    if |path| > 1 && IsQuote(path[0]) && path[|path| - 1] != path[0]
    then TrimFront(LStrip(path[1..])) else path
  }

  /** `path` after its unmatched ends are gone. */
  function Ends(path: string): (r: string)
    ensures |r| <= |path|
  {
    TrimFront(TrimBack(path))
  }

  predicate MatchedPair(path: string) { |path| > 1 && path[0] == path[|path| - 1] && IsQuote(path[0]) }

  /** `_normalize_read_path_value` */
  function TrimPath(value: string): string {
    var path := Ends(Strip(value));
    if MatchedPair(path) then Within(path) else path
  }

  /** What a matched pair of quotes is around. */
  function Within(path: string): string
    requires MatchedPair(path)
  {
    Strip(path[1..|path| - 1])
  }

  function TrimField(input: Json, field: string): (r: Json)
    requires input.Obj?
    ensures r.Obj? && r.fields.Keys == input.fields.Keys
  {
    match Get(input, field)
    case Str(s) => if TrimPath(s) != "" && TrimPath(s) != s then Obj(input.fields[field := Str(TrimPath(s))]) else input
    case _ => input
  }

  /** `_normalize_read_tool_input`: both path fields of a Read call, anything else untouched. */
  function TrimInput(tool: string, input: Json): (r: Json)
    requires input.Obj?
    ensures r.Obj? && r.fields.Keys == input.fields.Keys
  {
    if tool == "Read" then TrimField(TrimField(input, "file_path"), "path") else input
  }

  // ----- trimming keeps required fields -----------------------------------

  predicate Tight(s: string) { s != "" ==> !IsSpace(s[0]) && !IsSpace(s[|s| - 1]) }

  lemma {:induction false} TrimBackTight(path: string)
    requires Tight(path)
    ensures Tight(TrimBack(path))
    decreases |path|
  {
    if |path| > 1 && IsQuote(path[|path| - 1]) && path[0] != path[|path| - 1] {
      TrimBackTight(RStrip(path[..|path| - 1]));
    }
  }

  lemma {:induction false} TrimFrontTight(path: string)
    requires Tight(path)
    ensures Tight(TrimFront(path))
    decreases |path|
  {
    if |path| > 1 && IsQuote(path[0]) && path[|path| - 1] != path[0] {
      TrimFrontTight(LStrip(path[1..]));
    }
  }

  /** A trimmed path has no blank ends, so a path that is written back is not blank. */
  lemma TrimPathTight(value: string)
    ensures Tight(TrimPath(value))
    ensures TrimPath(value) != "" ==> Strip(TrimPath(value)) != "" && Strip(value) != ""
  {
    TrimBackTight(Strip(value));
    TrimFrontTight(TrimBack(Strip(value)));
    if TrimPath(value) != "" { StripTight(TrimPath(value)); }
  }

  predicate QuoteFree(path: string) { |path| <= 1 || (!IsQuote(path[0]) && !IsQuote(path[|path| - 1])) }

  lemma {:induction false} EndsFixed(path: string)
    ensures Ends(path) == path <==>
            |path| <= 1 || (!IsQuote(path[0]) && !IsQuote(path[|path| - 1])) || path[0] == path[|path| - 1]
  {
    if |path| > 1 && IsQuote(path[|path| - 1]) && path[0] != path[|path| - 1] {
      assert |TrimBack(path)| < |path|;
    } else {
      assert TrimBack(path) == path;
    }
  }

  lemma {:induction false} FixedIffQuoteFree(path: string)
    requires Tight(path)
    ensures TrimPath(path) == path <==> QuoteFree(path)
  {
    EndsFixed(path);
    if path == "" {
      assert Strip(path) == path;
    } else {
      StripTight(path);
      assert TrimPath(path) == if MatchedPair(Ends(path)) then Within(Ends(path)) else Ends(path);
    }
  }

  lemma {:induction false} TrimBackEnds(path: string)
    ensures var r := TrimBack(path); |r| <= 1 || !IsQuote(r[|r| - 1]) || r[0] == r[|r| - 1]
    decreases |path|
  {
    if |path| > 1 && IsQuote(path[|path| - 1]) && path[0] != path[|path| - 1] {
      TrimBackEnds(RStrip(path[..|path| - 1]));
    }
  }

  lemma {:induction false} TrimFrontEnds(path: string)
    requires path != "" && Tight(path)
    ensures var r := TrimFront(path);
            && r != "" && r[|r| - 1] == path[|path| - 1]
            && (|r| <= 1 || !IsQuote(r[0]) || r[0] == r[|r| - 1])
    decreases |path|
  {
    if |path| > 1 && IsQuote(path[0]) && path[|path| - 1] != path[0] {
      TrimFrontEnds(LStrip(path[1..]));
    }
  }

  lemma FrontSettles(path: string)
    requires path != "" && Tight(path)
    requires |path| <= 1 || !IsQuote(path[|path| - 1]) || path[0] == path[|path| - 1]
    ensures MatchedPair(TrimFront(path)) || QuoteFree(TrimFront(path))
  {
    TrimFrontEnds(path);
  }

  /** Once the unmatched ends are gone, what is left is in matched quotes or has none at its ends. */
  lemma EndsSettle(path: string)
    requires Tight(path)
    ensures MatchedPair(Ends(path)) || QuoteFree(Ends(path))
  {
    var back := TrimBack(path);
    TrimBackTight(path);
    TrimBackEnds(path);
    if back != "" { FrontSettles(back); }
  }

  lemma TrimmedAgain(value: string)
    ensures TrimPath(TrimPath(value)) == TrimPath(value) <==> QuoteFree(TrimPath(value))
  {
    TrimPathTight(value);
    FixedIffQuoteFree(TrimPath(value));
  }

  /** The path is in matched quotes, and what they are around begins or ends with a quote again. */
  predicate Nested(value: string) {
    var path := Ends(Strip(value));
    MatchedPair(path) && !QuoteFree(Within(path))
  }

  /** Trimming a path is idempotent exactly when the path does not come in nested quotes. */
  lemma {:induction false} TrimIsIdempotentIff(value: string)
    ensures TrimPath(TrimPath(value)) == TrimPath(value) <==> !Nested(value)
  {
    EndsSettle(Strip(value));
    TrimmedAgain(value);
  }

  /** There is nothing but blanks in the path's quotes. */
  predicate Hollow(path: string) { MatchedPair(Ends(path)) && Within(Ends(path)) == "" }

  /** Nested quotes with something in them: a second trim changes what the first has left. */
  predicate Retrims(value: string) { Nested(value) && !Hollow(Within(Ends(Strip(value)))) }

  /** The field's value after a trim: an empty one is not written back. */
  function Once(value: string): string { if TrimPath(value) != "" then TrimPath(value) else value }

  lemma TrimOfText(path: string)
    requires path != "" && Tight(path)
    ensures TrimPath(path) == "" <==> Hollow(path)
  {
    StripTight(path);
    EndsOfText(path);
  }

  lemma EndsOfText(path: string)
    requires path != "" && Tight(path)
    ensures Ends(path) != ""
  {
    TrimBackKeepsText(path);
    TrimBackTight(path);
    TrimFrontEnds(TrimBack(path));
  }

  lemma {:induction false} TrimBackKeepsText(path: string)
    requires path != "" && !IsSpace(path[0])
    ensures TrimBack(path) != ""
    decreases |path|
  {
    if |path| > 1 && IsQuote(path[|path| - 1]) && path[0] != path[|path| - 1] {
      TrimBackKeepsText(RStrip(path[..|path| - 1]));
    }
  }

  lemma {:induction false} OnceIsStableIff(value: string)
    ensures Once(Once(value)) == Once(value) <==> !Retrims(value)
  {
    var r := TrimPath(value);
    TrimIsIdempotentIff(value);
    TrimPathTight(value);
    if r != "" { TrimOfText(r); }
  }

  /** A matched pair of quotes around a path goes, and only one. */
  lemma OnePair(quote: char, body: string)
    requires IsQuote(quote) && body != "" && Tight(body)
    ensures TrimPath([quote] + body + [quote]) == body
  {
    var path := [quote] + body + [quote];
    EndsFixed(path);
    StripTight(path);
    assert path[1..|path| - 1] == body;
    StripTight(body);
  }

  /** So nested quotes lose one pair a trim: '"a"', then "a", then a. */
  lemma NestedQuotes()
    ensures TrimPath("'\"a\"'") == "\"a\"" && TrimPath("\"a\"") == "a"
  {
    assert "'\"a\"'" == ['\''] + "\"a\"" + ['\''] && "\"a\"" == ['"'] + "a" + ['"'];
    OnePair('\'', "\"a\"");
    OnePair('"', "a");
  }

  // ----- what a trim takes --------------------------------------------------

  /** Blanks, and the three quote characters. */
  predicate Artifact(c: char) { IsSpace(c) || c == '\'' || c == '"' || c == '`' }

  /** What is left is the stretch of the path from i to j, and around it are only blanks and quotes. */
  predicate TakenAt(path: string, left: string, i: nat, j: nat) {
    && i <= j <= |path| && path[i..j] == left
    && forall x :: 0 <= x < |path| && (x < i || j <= x) ==> Artifact(path[x])
  }

  ghost predicate Taken(path: string, left: string) { exists i: nat, j: nat :: TakenAt(path, left, i, j) }

  lemma TakenMore(path: string, half: string, left: string)
    requires Taken(path, half) && Taken(half, left)
    ensures Taken(path, left)
  {
    var i: nat, j: nat :| TakenAt(path, half, i, j);
    var k: nat, l: nat :| TakenAt(half, left, k, l);
    SliceOfSlice(path, i, j, k, l);
    forall x | 0 <= x < |path| && (x < i + k || i + l <= x) ensures Artifact(path[x]) {
      if i <= x < j { assert path[x] == half[x - i]; }
    }
    assert TakenAt(path, left, i + k, i + l);
  }

  lemma StripTakes(path: string)
    ensures Taken(path, Strip(path)) && Taken(path, LStrip(path)) && Taken(path, RStrip(path))
  {
    LStripTakes(path);
    RStripTakes(path);
    RStripTakes(LStrip(path));
    TakenMore(path, LStrip(path), Strip(path));
  }

  lemma LStripTakes(path: string)
    ensures Taken(path, LStrip(path))
  {
    var before := LStripTakesBlanks(path);
    forall x | 0 <= x < |before| ensures Artifact(path[x]) { assert path[x] == before[x] && before[x] in before; }
    assert TakenAt(path, LStrip(path), |before|, |path|);
  }

  lemma RStripTakes(path: string)
    ensures Taken(path, RStrip(path))
  {
    var after := RStripTakesBlanks(path);
    var n := |RStrip(path)|;
    forall x | n <= x < |path| ensures Artifact(path[x]) { assert path[x] == after[x - n] && after[x - n] in after; }
    assert path[0..n] == RStrip(path);
    assert TakenAt(path, RStrip(path), 0, n);
  }

  lemma {:induction false} TrimBackTakes(path: string)
    ensures Taken(path, TrimBack(path))
    decreases |path|
  {
    var n := |path| - 1;
    if n > 0 && IsQuote(path[n]) && path[0] != path[n] {
      assert TakenAt(path, path[..n], 0, n);
      RStripTakes(path[..n]);
      TakenMore(path, path[..n], RStrip(path[..n]));
      TrimBackTakes(RStrip(path[..n]));
      TakenMore(path, RStrip(path[..n]), TrimBack(path));
    } else {
      assert TakenAt(path, path, 0, |path|);
    }
  }

  lemma {:induction false} TrimFrontTakes(path: string)
    ensures Taken(path, TrimFront(path))
    decreases |path|
  {
    if |path| > 1 && IsQuote(path[0]) && path[|path| - 1] != path[0] {
      assert TakenAt(path, path[1..], 1, |path|);
      LStripTakes(path[1..]);
      TakenMore(path, path[1..], LStrip(path[1..]));
      TrimFrontTakes(LStrip(path[1..]));
      TakenMore(path, LStrip(path[1..]), TrimFront(path));
    } else {
      assert TakenAt(path, path, 0, |path|);
    }
  }

  lemma WithinTakes(path: string)
    requires MatchedPair(path)
    ensures Taken(path, Within(path))
  {
    var n := |path| - 1;
    assert TakenAt(path, path[1..n], 1, n);
    StripTakes(path[1..n]);
    TakenMore(path, path[1..n], Within(path));
  }

  /** Trimming a path takes blanks and quotes off its ends and nothing else. */
  lemma {:induction false} TrimTakesArtifacts(value: string)
    ensures Taken(value, TrimPath(value))
  {
    var path := Strip(value);
    var ends := Ends(path);
    StripTakes(value);
    TrimBackTakes(path);
    TrimFrontTakes(TrimBack(path));
    TakenMore(path, TrimBack(path), ends);
    TakenMore(value, path, ends);
    if MatchedPair(ends) {
      WithinTakes(ends);
      TakenMore(value, ends, Within(ends));
    }
  }

  /** A path without a quote at its ends is only stripped. */
  lemma {:induction false} PlainPathStays(value: string)
    requires var path := Strip(value);
             path != "" ==> path[0] != '\'' && path[0] != '"' && path[0] != '`'
                            && path[|path| - 1] != '\'' && path[|path| - 1] != '"' && path[|path| - 1] != '`'
    ensures TrimPath(value) == Strip(value)
  {
    EndsFixed(Strip(value));
  }

  /** No value, or a text of blanks. */
  predicate Blank(value: Json) { value.Null? || (value.Str? && Strip(value.s) == "") }

  lemma TrimFieldKeepsBlank(input: Json, field: string, other: string)
    requires input.Obj?
    ensures Blank(Get(TrimField(input, field), other)) <==> Blank(Get(input, other))
  {
    if Get(input, field).Str? { TrimPathTight(Get(input, field).s); }
  }

  /** Trimming changes no field's being blank. */
  lemma TrimmingKeepsBlank(tool: string, input: Json, field: string)
    requires input.Obj?
    ensures Blank(Get(TrimInput(tool, input), field)) <==> Blank(Get(input, field))
  {
    TrimFieldKeepsBlank(input, "file_path", field);
    TrimFieldKeepsBlank(TrimField(input, "file_path"), "path", field);
  }

  /** Only the two path fields of a Read call are trimmed. */
  lemma {:induction false} OnlyReadPathsChange(tool: string, input: Json, field: string)
    requires input.Obj? && (tool != "Read" || (field != "file_path" && field != "path"))
    ensures Get(TrimInput(tool, input), field) == Get(input, field)
    ensures tool != "Read" ==> TrimInput(tool, input) == input
  {
    if tool == "Read" {
      TrimFieldSets(input, "file_path", field);
      TrimFieldSets(TrimField(input, "file_path"), "path", field);
    }
  }

  // ----- trimming an input twice ------------------------------------------

  predicate FieldRetrims(input: Json, field: string) { Get(input, field).Str? && Retrims(Get(input, field).s) }

  /** A second trim would change what the first leaves of a Read call's paths. */
  predicate InputRetrims(tool: string, input: Json) {
    tool == "Read" && (FieldRetrims(input, "file_path") || FieldRetrims(input, "path"))
  }

  predicate FieldStable(input: Json, field: string)
    requires input.Obj?
  {
    TrimField(input, field) == input
  }

  lemma TrimFieldSets(input: Json, field: string, other: string)
    requires input.Obj?
    ensures Get(TrimField(input, field), other)
            == if other == field && Get(input, field).Str? then Str(Once(Get(input, field).s)) else Get(input, other)
  {
  }

  lemma FieldStableIff(input: Json, field: string)
    requires input.Obj?
    ensures FieldStable(input, field) <==> (Get(input, field).Str? ==> Once(Get(input, field).s) == Get(input, field).s)
  {
    TrimFieldSets(input, field, field);
  }

  lemma TrimInputStableIff(input: Json)
    requires input.Obj?
    ensures TrimInput("Read", input) == input <==> FieldStable(input, "file_path") && FieldStable(input, "path")
  {
    assert "file_path"[0] != "path"[0];
    var once := TrimField(input, "file_path");
    TrimFieldSets(input, "file_path", "file_path");
    TrimFieldSets(once, "path", "file_path");
    FieldStableIff(input, "file_path");
  }

  /** Trimming an input is idempotent exactly when neither path is in nested quotes. */
  lemma TrimInputTwiceIff(tool: string, input: Json)
    requires input.Obj?
    ensures TrimInput(tool, TrimInput(tool, input)) == TrimInput(tool, input) <==> !InputRetrims(tool, input)
  {
    if tool == "Read" {
      assert "file_path"[0] != "path"[0];
      var half := TrimField(input, "file_path");
      var once := TrimField(half, "path");
      TrimInputStableIff(once);
      FieldStableIff(once, "file_path");
      FieldStableIff(once, "path");
      TrimFieldSets(half, "path", "file_path");
      TrimFieldSets(half, "path", "path");
      TrimFieldSets(input, "file_path", "file_path");
      TrimFieldSets(input, "file_path", "path");
      if Get(input, "file_path").Str? { OnceIsStableIff(Get(input, "file_path").s); }
      if Get(input, "path").Str? { OnceIsStableIff(Get(input, "path").s); }
    }
  }
}
