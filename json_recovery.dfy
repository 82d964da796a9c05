/** Recovering the JSON object from a Gemini reply (services/gemini.js):
    strip the code fences, take the text from the first `{` to the last
    `}`, parse it, and when that fails repair it with three regular
    expression replacements and parse once more; a parsed analysis always
    gets a `personas` field. `JSON.parse` is a function parameter. */
module JsonRecovery {

  import opened Outcomes
  import opened Text
  import opened JsValues

  const Fence := "```"
  const JsonFence := "```json"

  /** The only error `analyzeResults` ever throws. */
  const AnalysisFailure := "Failed to generate market analysis"

  /** `JSON.parse`, as seen by this code: the text it is given always
      starts with `{`, so a successful parse is an object. */
  type Parser = string -> Option<JsObject<Value>>

  // ---------------------------------------------------------------- fences

  /** Delete every "```json", then every "```", then trim: no fence is
      left, and a text without backticks is only trimmed. */
  function StripFences(text: string): (clean: string)
    ensures !Contains(clean, Fence)
    ensures '`' !in text ==> clean == Trim(text)
  {
    var once := RemoveAll(text, JsonFence);
    var twice := RemoveAll(once, Fence);
    NoFenceAfterRemoval(once);
    NoFenceInTrim(twice);
    assert '`' !in text ==> twice == text by {
      if '`' !in text {
        RemoveAllWithoutFirstChar(text, JsonFence);
        RemoveAllWithoutFirstChar(text, Fence);
      }
    }
    Trim(twice)
  }

  lemma {:induction false} NoFenceAfterRemoval(s: string)
    ensures !Contains(RemoveAll(s, Fence), Fence)
    decreases |s|
  {
    if |s| == 0 {
    } else if Fence <= s {
      NoFenceAfterRemoval(s[3..]);
    } else {
      var rest := RemoveAll(s[1..], Fence);
      NoFenceAfterRemoval(s[1..]);
      assert RemoveAll(s, Fence) == [s[0]] + rest;
      assert ([s[0]] + rest)[1..] == rest;
      if s[0] == '`' {
        assert !("``" <= s[1..]);
        NoPairAfterRemoval(s[1..]);
      }
    }
  }

  /** Removal cannot create a leading pair of backticks. */
  lemma {:induction false} NoPairAfterRemoval(t: string)
    requires !("``" <= t)
    ensures !("``" <= RemoveAll(t, Fence))
  {
    if |t| > 0 {
      assert !(Fence <= t);
      assert RemoveAll(t, Fence) == [t[0]] + RemoveAll(t[1..], Fence);
      if t[0] == '`' && |t| > 1 {
        assert t[1] != '`';
        assert !(Fence <= t[1..]);
        assert RemoveAll(t[1..], Fence) == [t[1]] + RemoveAll(t[2..], Fence);
      }
    }
  }

  lemma {:induction false} NoFenceInTrim(s: string)
    requires !Contains(s, Fence)
    ensures !Contains(Trim(s), Fence)
  {
    if Contains(Trim(s), Fence) {
      TrimKeepsContained(s, Fence);
    }
  }

  /** A payload without backticks wrapped in a json code fence cleans to
      exactly what the bare payload cleans to. */
  lemma {:induction false} FencedPayloadCleansLikeBare(payload: string)
    requires '`' !in payload
    ensures StripFences("```json\n" + payload + "\n```") == StripFences(payload)
  {
    var body := "\n" + payload;
    assert '`' !in body;
    var wrapped := "```json\n" + payload + "\n```";
    assert wrapped == JsonFence + (body + "\n```");
    assert JsonFence <= wrapped;
    assert RemoveAll(wrapped, JsonFence) == RemoveAll(body + "\n```", JsonFence) by {
      assert wrapped[|JsonFence|..] == body + "\n```";
    }
    RemoveAllKeepsPrefix(body, "\n```", JsonFence);
    assert RemoveAll("\n```", JsonFence) == "\n```" by {
      ShortTextKept("\n```", JsonFence);
    }
    RemoveAllKeepsPrefix(body, "\n```", Fence);
    assert RemoveAll("\n```", Fence) == "\n" by {
      assert !(Fence <= "\n```");
      assert "\n```"[1..] == Fence;
      assert Fence <= Fence;
      assert Fence[3..] == [];
    }
    assert body + "\n" == "\n" + payload + "\n";
    TrimSurroundingSpace("\n", payload, "\n");
    RemoveAllWithoutFirstChar(payload, JsonFence);
    RemoveAllWithoutFirstChar(payload, Fence);
    assert "\n" + payload + "\n" == "\n" + payload + "\n";
  }

  lemma {:induction false} ShortTextKept(s: string, pat: string)
    requires |pat| > 0 && |s| < |pat|
    ensures RemoveAll(s, pat) == s
  {
    if |s| > 0 {
      assert !(pat <= s);
      ShortTextKept(s[1..], pat);
    }
  }

  // ------------------------------------------------------------ extraction

  function FirstIndex(s: string, c: char): (r: Option<nat>)
    ensures r.Some? ==> r.value < |s| && s[r.value] == c && c !in s[..r.value]
    ensures r.None? ==> c !in s
  {
    if s == [] then None
    else if s[0] == c then Some(0)
    else
      var rest := FirstIndex(s[1..], c);
      if rest.None? then None else Some(rest.value + 1)
  }

  function LastIndex(s: string, c: char): (r: Option<nat>)
    ensures r.Some? ==> r.value < |s| && s[r.value] == c && c !in s[r.value + 1..]
    ensures r.None? ==> c !in s
  {
    if s == [] then None
    else if s[|s| - 1] == c then Some(|s| - 1)
    else LastIndex(s[..|s| - 1], c)
  }

  /** `s.match(/\{[\s\S]*\}/)`: the text from the first `{` through the last
      `}`; there is a match exactly when some `{` comes before some `}`. */
  function ExtractObject(s: string): (r: Option<string>)
    ensures r.Some? <==> exists i, j :: 0 <= i < j < |s| && s[i] == '{' && s[j] == '}'
    ensures r.Some? ==> |r.value| >= 2 && r.value[0] == '{' && r.value[|r.value| - 1] == '}'
    ensures r.Some? ==> exists f :: 0 <= f <= |s| - |r.value| && r.value == s[f..f + |r.value|]
                                  && '{' !in s[..f] && '}' !in s[f + |r.value|..]
  {
    var first := FirstIndex(s, '{');
    var last := LastIndex(s, '}');
    if first.None? || last.None? then None
    else if first.value < last.value then
      var f, l := first.value, last.value;
      assert s[f..l + 1][0] == '{' && s[f..l + 1][l - f] == '}';
      Some(s[f..l + 1])
    else
      None
  }

  // ---------------------------------------------------------------- repair

  /** Length of a `\s*[}\]]` match at the start of `s`. */
  function CloserRun(s: string): (r: Option<nat>)
    ensures r.Some? ==> 1 <= r.value <= |s| && (s[r.value - 1] == '}' || s[r.value - 1] == ']')
    ensures r.Some? ==> forall i :: 0 <= i < r.value - 1 ==> IsSpace(s[i])
  {
    if s == [] then None
    else if s[0] == '}' || s[0] == ']' then Some(1)
    else if IsSpace(s[0]) then
      var rest := CloserRun(s[1..]);
      if rest.None? then None else Some(rest.value + 1)
    else None
  }

  /** `s.replace(/,(\s*[}\]])/g, '$1')`: each match is consumed whole.
      It only ever shortens the text, and text without commas is kept. */
  function DropTrailingCommas(s: string): (r: string)
    ensures |r| <= |s|
    ensures ',' !in s ==> r == s
    decreases |s|
  {
    if s == [] then ""
    else if s[0] == ',' && CloserRun(s[1..]).Some? then
      var n := CloserRun(s[1..]).value;
      s[1..1 + n] + DropTrailingCommas(s[1 + n..])
    else [s[0]] + DropTrailingCommas(s[1..])
  }

  /** Which commas go, decided position by position: a comma is dropped
      exactly when only white space separates it from a `}` or `]`. */
  function DropTrailingCommasSpec(s: string): string {
    if s == [] then ""
    else (if s[0] == ',' && CloserRun(s[1..]).Some? then "" else [s[0]]) + DropTrailingCommasSpec(s[1..])
  }

  lemma {:induction false} SpecKeepsCommaFreePrefix(a: string, b: string)
    requires ',' !in a
    ensures DropTrailingCommasSpec(a + b) == a + DropTrailingCommasSpec(b)
  {
    if a == [] {
      assert a + b == b;
    } else {
      assert (a + b)[0] == a[0] && (a + b)[1..] == a[1..] + b;
      SpecKeepsCommaFreePrefix(a[1..], b);
    }
  }

  /** The repair deletes exactly the commas that precede a closing bracket
      with only white space between, and keeps the white space and the
      bracket; every other character is kept in order. */
  lemma {:induction false} DropTrailingCommasDeletesOnlyThoseCommas(s: string)
    ensures DropTrailingCommas(s) == DropTrailingCommasSpec(s)
    ensures Without(DropTrailingCommas(s), ',') == Without(s, ',')
  {
    DropTrailingCommasMatchesSpec(s);
    SpecDeletesOnlyCommas(s);
  }

  lemma {:induction false} DropTrailingCommasMatchesSpec(s: string)
    ensures DropTrailingCommas(s) == DropTrailingCommasSpec(s)
    decreases |s|
  {
    if s != [] {
      if s[0] == ',' && CloserRun(s[1..]).Some? {
        var n := CloserRun(s[1..]).value;
        var run, rest := s[1..1 + n], s[1 + n..];
        assert s[1..] == run + rest;
        CloserRunHasNoComma(s[1..]);
        assert s[1..][..n] == run;
        assert DropTrailingCommas(s) == run + DropTrailingCommas(rest);
        assert DropTrailingCommasSpec(s) == DropTrailingCommasSpec(s[1..]);
        SpecKeepsCommaFreePrefix(run, rest);
        DropTrailingCommasMatchesSpec(rest);
      } else {
        assert DropTrailingCommas(s) == [s[0]] + DropTrailingCommas(s[1..]);
        assert DropTrailingCommasSpec(s) == [s[0]] + DropTrailingCommasSpec(s[1..]);
        DropTrailingCommasMatchesSpec(s[1..]);
      }
    }
  }

  lemma {:induction false} CloserRunHasNoComma(t: string)
    requires CloserRun(t).Some?
    ensures ',' !in t[..CloserRun(t).value]
  {
    var n := CloserRun(t).value;
    forall i | 0 <= i < n
      ensures t[..n][i] != ','
    {
      assert t[..n][i] == t[i];
      if i < n - 1 {
        assert IsSpace(t[i]);
      }
    }
  }

  lemma {:induction false} SpecDeletesOnlyCommas(s: string)
    ensures Without(DropTrailingCommasSpec(s), ',') == Without(s, ',')
  {
    if s != [] {
      var head := if s[0] == ',' && CloserRun(s[1..]).Some? then "" else [s[0]];
      assert DropTrailingCommasSpec(s) == head + DropTrailingCommasSpec(s[1..]);
      WithoutAppend(head, DropTrailingCommasSpec(s[1..]), ',');
      SpecDeletesOnlyCommas(s[1..]);
    }
  }

  /** `\w`. */
  predicate IsWordChar(c: char) {
    ('a' <= c <= 'z') || ('A' <= c <= 'Z') || ('0' <= c <= '9') || c == '_'
  }

  function SpaceRun(s: string): (n: nat)
    ensures n <= |s| && (forall i :: 0 <= i < n ==> IsSpace(s[i])) && (n < |s| ==> !IsSpace(s[n]))
  {
    if s != [] && IsSpace(s[0]) then SpaceRun(s[1..]) + 1 else 0
  }

  function WordRun(s: string): (n: nat)
    ensures n <= |s| && (forall i :: 0 <= i < n ==> IsWordChar(s[i])) && (n < |s| ==> !IsWordChar(s[n]))
  {
    if s != [] && IsWordChar(s[0]) then WordRun(s[1..]) + 1 else 0
  }

  /** A `([{,]\s*)(\w+):` match at the start of `s`: its replacement
      `$1"$2":` and the number of characters it consumes. */
  function QuoteKeyAt(s: string): (r: Option<(string, nat)>)
    ensures r.Some? ==> 1 <= r.value.1 <= |s| && |r.value.0| > 0 && r.value.0[0] == s[0]
    ensures r.Some? ==> |r.value.0| == r.value.1 + 2
  {
    if s == [] || (s[0] != '{' && s[0] != ',') then None
    else
      var sp := SpaceRun(s[1..]);
      var w := WordRun(s[1 + sp..]);
      if w > 0 && 1 + sp + w < |s| && s[1 + sp + w] == ':' then
        Some((s[..1 + sp] + "\"" + s[1 + sp..1 + sp + w] + "\":", 2 + sp + w))
      else None
  }

  /** `s.replace(/([{,]\s*)(\w+):/g, '$1"$2":')`: the text only grows, two
      quotes per key, and text with no `{` or `,` has no key to quote. */
  function QuoteBareKeys(s: string): (r: string)
    ensures |s| <= |r|
    ensures '{' !in s && ',' !in s ==> r == s
    decreases |s|
  {
    if s == [] then ""
    else
      var step := QuoteKeyAt(s);
      if step.Some? then step.value.0 + QuoteBareKeys(s[step.value.1..])
      else [s[0]] + QuoteBareKeys(s[1..])
  }

  /** A bare word key after `{` or `,` and optional white space is wrapped
      in double quotes, and the scan goes on after its colon. */
  lemma {:induction false} BareKeyQuoted(c: char, ws: string, w: string, rest: string)
    requires c == '{' || c == ','
    requires AllSpace(ws)
    requires |w| > 0 && forall i :: 0 <= i < |w| ==> IsWordChar(w[i])
    ensures QuoteBareKeys([c] + ws + w + ":" + rest) == [c] + ws + "\"" + w + "\":" + QuoteBareKeys(rest)
  {
    var s := [c] + ws + w + ":" + rest;
    KeyMatched(c, ws, w, rest);
    assert s[2 + |ws| + |w|..] == rest;
  }

  /** The key match at the start of such a text. */
  lemma {:induction false} KeyMatched(c: char, ws: string, w: string, rest: string)
    requires c == '{' || c == ','
    requires AllSpace(ws)
    requires |w| > 0 && forall i :: 0 <= i < |w| ==> IsWordChar(w[i])
    ensures QuoteKeyAt([c] + ws + w + ":" + rest) == Some(([c] + ws + "\"" + w + "\":", 2 + |ws| + |w|))
  {
    var s := [c] + ws + w + ":" + rest;
    KeyRuns(c, ws, w, rest);
    KeySlices(c, ws, w, rest);
    assert QuoteKeyAt(s) == Some((s[..1 + |ws|] + "\"" + s[1 + |ws|..1 + |ws| + |w|] + "\":", 2 + |ws| + |w|));
  }

  lemma {:induction false} KeyRuns(c: char, ws: string, w: string, rest: string)
    requires AllSpace(ws)
    requires |w| > 0 && forall i :: 0 <= i < |w| ==> IsWordChar(w[i])
    ensures var s := [c] + ws + w + ":" + rest;
      1 + |ws| + |w| < |s| && s[0] == c && s[1 + |ws| + |w|] == ':'
      && SpaceRun(s[1..]) == |ws| && WordRun(s[1 + |ws|..]) == |w|
  {
    var s := [c] + ws + w + ":" + rest;
    assert s[1..] == ws + (w + ":" + rest);
    SpaceRunOf(ws, w + ":" + rest);
    assert s[1 + |ws|..] == w + (":" + rest);
    WordRunOf(w, ":" + rest);
  }

  lemma {:induction false} KeySlices(c: char, ws: string, w: string, rest: string)
    ensures var s := [c] + ws + w + ":" + rest;
      1 + |ws| + |w| <= |s| && s[..1 + |ws|] == [c] + ws && s[1 + |ws|..1 + |ws| + |w|] == w
  {
    var s := [c] + ws + w + ":" + rest;
    assert s == ([c] + ws) + (w + ":" + rest);
  }

  lemma SpaceRunOf(ws: string, u: string)
    requires AllSpace(ws) && u != [] && !IsSpace(u[0])
    ensures SpaceRun(ws + u) == |ws|
  {
    assert (ws + u)[|ws|] == u[0];
    assert forall i :: 0 <= i < |ws| ==> (ws + u)[i] == ws[i];
  }

  lemma WordRunOf(w: string, u: string)
    requires (forall i :: 0 <= i < |w| ==> IsWordChar(w[i])) && u != [] && !IsWordChar(u[0])
    ensures WordRun(w + u) == |w|
  {
    assert (w + u)[|w|] == u[0];
    assert forall i :: 0 <= i < |w| ==> (w + u)[i] == w[i];
  }

  /** Quoting bare keys only inserts double quotes. */
  lemma {:induction false} QuoteBareKeysOnlyAddsQuotes(s: string)
    ensures Without(QuoteBareKeys(s), '"') == Without(s, '"')
    decreases |s|
  {
    if s != [] {
      var step := QuoteKeyAt(s);
      if step.Some? {
        var n := step.value.1;
        QuoteKeyAtOnlyAddsQuotes(s);
        QuoteBareKeysOnlyAddsQuotes(s[n..]);
        WithoutPieceByPiece(s, n, step.value.0, QuoteBareKeys(s[n..]));
      } else {
        QuoteBareKeysOnlyAddsQuotes(s[1..]);
        assert s[..1] == [s[0]];
        WithoutPieceByPiece(s, 1, [s[0]], QuoteBareKeys(s[1..]));
      }
    }
  }

  /** Rewriting a prefix and the rest of `s` separately, each up to double
      quotes, rewrites `s` up to double quotes. */
  lemma {:induction false} WithoutPieceByPiece(s: string, n: nat, front: string, back: string)
    requires n <= |s|
    requires Without(front, '"') == Without(s[..n], '"')
    requires Without(back, '"') == Without(s[n..], '"')
    ensures Without(front + back, '"') == Without(s, '"')
  {
    assert s == s[..n] + s[n..];
    WithoutAppend(s[..n], s[n..], '"');
    WithoutAppend(front, back, '"');
  }

  lemma {:induction false} QuoteKeyAtOnlyAddsQuotes(s: string)
    requires QuoteKeyAt(s).Some?
    ensures Without(QuoteKeyAt(s).value.0, '"') == Without(s[..QuoteKeyAt(s).value.1], '"')
  {
    var sp := SpaceRun(s[1..]);
    var w := WordRun(s[1 + sp..]);
    var head, word := s[..1 + sp], s[1 + sp..1 + sp + w];
    assert QuoteKeyAt(s).value == (head + "\"" + word + "\":", 2 + sp + w);
    assert s[1 + sp + w] == ':';
    assert s[..2 + sp + w] == head + word + ":";
    QuotedKeyText(head, word);
  }

  lemma {:induction false} QuotedKeyText(head: string, word: string)
    ensures Without(head + "\"" + word + "\":", '"') == Without(head + word + ":", '"')
  {
    WithoutAppend(head + "\"" + word, "\":", '"');
    WithoutAppend(head + "\"", word, '"');
    WithoutAppend(head, "\"", '"');
    WithoutAppend(head + word, ":", '"');
    WithoutAppend(head, word, '"');
    assert Without("\"", '"') == [];
    assert Without("\":", '"') == ":";
    assert Without(":", '"') == ":";
  }

  /** A `:\s*'([^']*)'` match at the start of `s`: its replacement `: "$1"`
      and the number of characters it consumes. */
  function RequoteAt(s: string): (r: Option<(string, nat)>)
    ensures r.Some? ==> 1 <= r.value.1 <= |s| && |r.value.0| > 0 && r.value.0[0] == s[0]
  {
    if s == [] || s[0] != ':' then None
    else
      var t := s[1..];
      var sp := SpaceRun(t);
      if sp < |t| && t[sp] == '\'' then
        var close := FirstIndex(t[sp + 1..], '\'');
        if close.None? then None
        else
          var next: nat := sp + close.value + 3;
          Some((": \"" + t[sp + 1..sp + 1 + close.value] + "\"", next))
      else None
  }

  /** `s.replace(/:\s*'([^']*)'/g, ': "$1"')`: every match starts at a
      colon, so text without one is kept. */
  function QuoteSingleValues(s: string): (r: string)
    ensures ':' !in s ==> r == s
    decreases |s|
  {
    if s == [] then ""
    else
      var step := RequoteAt(s);
      if step.Some? then step.value.0 + QuoteSingleValues(s[step.value.1..])
      else [s[0]] + QuoteSingleValues(s[1..])
  }

  /** A single-quoted value after a colon becomes `: "…"`, and the scan
      goes on after its closing quote. */
  lemma {:induction false} SingleQuotedValueRequoted(ws: string, body: string, rest: string)
    requires AllSpace(ws) && '\'' !in body
    ensures QuoteSingleValues(":" + ws + "'" + body + "'" + rest) == ": \"" + body + "\"" + QuoteSingleValues(rest)
  {
    var s := ":" + ws + "'" + body + "'" + rest;
    ValueMatched(ws, body, rest);
    assert s[|ws| + |body| + 3..] == rest;
  }

  /** The single-quoted value match at the start of such a text. */
  lemma {:induction false} ValueMatched(ws: string, body: string, rest: string)
    requires AllSpace(ws) && '\'' !in body
    ensures RequoteAt(":" + ws + "'" + body + "'" + rest) == Some((": \"" + body + "\"", |ws| + |body| + 3))
  {
    var s := ":" + ws + "'" + body + "'" + rest;
    var t := s[1..];
    ValueRuns(ws, body, rest);
    ValueSlice(ws, body, rest);
    assert RequoteAt(s) == Some((": \"" + t[|ws| + 1..|ws| + 1 + |body|] + "\"", |ws| + |body| + 3));
  }

  lemma {:induction false} ValueRuns(ws: string, body: string, rest: string)
    requires AllSpace(ws) && '\'' !in body
    ensures var s := ":" + ws + "'" + body + "'" + rest; var t := s[1..];
      s[0] == ':' && |ws| < |t| && SpaceRun(t) == |ws| && t[|ws|] == '\''
      && FirstIndex(t[|ws| + 1..], '\'') == Some(|body|)
  {
    var s := ":" + ws + "'" + body + "'" + rest;
    var u := "'" + body + "'" + rest;
    assert s[1..] == ws + u;
    SpaceRunOf(ws, u);
    assert s[1..][|ws| + 1..] == body + ("'" + rest);
    FirstIndexAfter(body, "'" + rest, '\'');
  }

  lemma {:induction false} ValueSlice(ws: string, body: string, rest: string)
    ensures var t := (":" + ws + "'" + body + "'" + rest)[1..];
      |ws| + 1 + |body| <= |t| && t[|ws| + 1..|ws| + 1 + |body|] == body
  {
    var t := (":" + ws + "'" + body + "'" + rest)[1..];
    assert t == (ws + "'") + body + ("'" + rest);
  }

  lemma FirstIndexAfter(a: string, u: string, c: char)
    requires c !in a && u != [] && u[0] == c
    ensures FirstIndex(a + u, c) == Some(|a|)
  {
    assert (a + u)[|a|] == c;
    assert (a + u)[..|a|] == a;
  }

  /** White space and quote marks. */
  predicate IsLayout(c: char) {
    IsSpace(c) || c == '\'' || c == '"'
  }

  /** `s` with white space and quote marks deleted. */
  function Significant(s: string): string {
    if s == [] then [] else (if IsLayout(s[0]) then [] else [s[0]]) + Significant(s[1..])
  }

  lemma {:induction false} SignificantAppend(a: string, b: string)
    ensures Significant(a + b) == Significant(a) + Significant(b)
  {
    if a == [] {
      assert a + b == b;
    } else {
      assert (a + b)[1..] == a[1..] + b;
      SignificantAppend(a[1..], b);
    }
  }

  lemma {:induction false} SignificantOfLayout(s: string)
    requires forall i :: 0 <= i < |s| ==> IsLayout(s[i])
    ensures Significant(s) == []
  {
    if s != [] {
      SignificantOfLayout(s[1..]);
    }
  }

  /** Re-quoting single-quoted values changes only white space and quote
      marks: every other character is kept, in order. */
  lemma {:induction false} QuoteSingleValuesKeepsText(s: string)
    ensures Significant(QuoteSingleValues(s)) == Significant(s)
    decreases |s|
  {
    if s != [] {
      var step := RequoteAt(s);
      if step.Some? {
        var n := step.value.1;
        RequoteAtKeepsText(s);
        QuoteSingleValuesKeepsText(s[n..]);
        SliceParts(s, n);
        SignificantAppend(s[..n], s[n..]);
        SignificantAppend(step.value.0, QuoteSingleValues(s[n..]));
      } else {
        QuoteSingleValuesKeepsText(s[1..]);
        SignificantAppend([s[0]], QuoteSingleValues(s[1..]));
        assert Significant([s[0]]) == (if IsLayout(s[0]) then [] else [s[0]]);
      }
    }
  }

  lemma {:induction false} RequoteAtKeepsText(s: string)
    requires RequoteAt(s).Some?
    ensures Significant(RequoteAt(s).value.0) == Significant(s[..RequoteAt(s).value.1])
  {
    var t := s[1..];
    var sp := SpaceRun(t);
    var close := FirstIndex(t[sp + 1..], '\'').value;
    var body := t[sp + 1..sp + 1 + close];
    assert t[sp + 1..][close] == '\'';
    assert RequoteAt(s) == Some((": \"" + body + "\"", sp + close + 3));
    RequoteSpan(s, sp, close);
    SignificantOfRequote(t[..sp], body);
  }

  /** The text a re-quoting step consumes: the colon, the white space, and
      the single-quoted body. */
  lemma RequoteSpan(s: string, sp: nat, close: nat)
    requires |s| > 0 && s[0] == ':' && sp + 1 + close < |s[1..]|
    requires forall i :: 0 <= i < sp ==> IsSpace(s[1..][i])
    requires s[1..][sp] == '\'' && s[1..][sp + 1 + close] == '\''
    ensures AllSpace(s[1..][..sp])
    ensures s[..sp + close + 3] == ":" + (s[1..][..sp] + "'" + s[1..][sp + 1..sp + 1 + close] + "'")
  {
    var t := s[1..];
    QuotedSpan(t, sp, close);
    ColonSpan(s, sp + close + 2);
    assert AllSpace(t[..sp]) by {
      forall i | 0 <= i < sp ensures IsSpace(t[..sp][i]) {
        assert t[..sp][i] == t[i];
      }
    }
  }

  lemma SignificantOfRequote(lead: string, body: string)
    requires AllSpace(lead)
    ensures Significant(": \"" + body + "\"") == Significant(":" + (lead + "'" + body + "'"))
  {
    SignificantAppend(":", lead + "'" + body + "'");
    assert Significant(":") == ":";
    SignificantOfQuoted(lead, body);
    SignificantOfRequoted(body);
  }

  lemma QuotedSpan(t: string, sp: nat, close: nat)
    requires sp + 1 + close < |t| && t[sp] == '\'' && t[sp + 1 + close] == '\''
    ensures t[..sp + close + 2] == t[..sp] + "'" + t[sp + 1..sp + 1 + close] + "'"
  {
  }

  lemma ColonSpan(s: string, k: nat)
    requires k < |s| && s[0] == ':'
    ensures s[..k + 1] == ":" + s[1..][..k]
  {
  }

  lemma {:induction false} SignificantOfQuoted(lead: string, body: string)
    requires AllSpace(lead)
    ensures Significant(lead + "'" + body + "'") == Significant(body)
  {
    SignificantOfLayout(lead);
    SignificantAppend(lead + "'" + body, "'");
    SignificantAppend(lead + "'", body);
    SignificantAppend(lead, "'");
    assert Significant("'") == [];
  }

  lemma {:induction false} SignificantOfRequoted(body: string)
    ensures Significant(": \"" + body + "\"") == ":" + Significant(body)
  {
    SignificantAppend(": \"" + body, "\"");
    SignificantAppend(": \"", body);
    assert Significant("\"") == [];
    assert Significant(": \"") == ":";
  }

  /** The three replacements, in order. Text with none of the characters
      that start a match (`,`, `{`, `:`) is not changed. */
  function Repair(s: string): (r: string)
    ensures ',' !in s && '{' !in s && ':' !in s ==> r == s
  {
    QuoteSingleValues(QuoteBareKeys(DropTrailingCommas(s)))
  }

  /** A repaired extract still opens with `{`, so it can only parse as an object. */
  lemma {:induction false} RepairKeepsOpeningBrace(s: string)
    requires |s| > 0 && s[0] == '{'
    ensures |Repair(s)| > 0 && Repair(s)[0] == '{'
  {
    var a := DropTrailingCommas(s);
    assert a == [s[0]] + DropTrailingCommas(s[1..]);
    var b := QuoteBareKeys(a);
    assert |b| > 0 && b[0] == '{';
    assert RequoteAt(b).None?;
    assert QuoteSingleValues(b) == [b[0]] + QuoteSingleValues(b[1..]);
  }

  /** A comma followed by white space and a closing bracket is deleted,
      and the white space and the bracket are kept. */
  lemma {:induction false} TrailingCommaBeforeCloserDropped(p: string, ws: string, closer: char)
    requires ',' !in p && AllSpace(ws) && (closer == '}' || closer == ']')
    ensures DropTrailingCommas(p + "," + ws + [closer]) == p + ws + [closer]
  {
    var tail := ws + [closer];
    ConcatAssoc(p + ",", ws, [closer]);
    ConcatAssoc(p, ",", tail);
    ConcatAssoc(p, ws, [closer]);
    DropTrailingCommasMatchesSpec(p + ("," + tail));
    SpecKeepsCommaFreePrefix(p, "," + tail);
    SpecDropsCommaBeforeCloser(ws, closer);
  }

  lemma {:induction false} SpecDropsCommaBeforeCloser(ws: string, closer: char)
    requires AllSpace(ws) && (closer == '}' || closer == ']')
    ensures DropTrailingCommasSpec("," + (ws + [closer])) == ws + [closer]
  {
    var tail := ws + [closer];
    CloserRunOfSpaces(ws, closer);
    assert ("," + tail)[1..] == tail;
    assert DropTrailingCommasSpec("," + tail) == DropTrailingCommasSpec(tail);
    assert ',' !in tail by {
      forall i | 0 <= i < |tail| ensures tail[i] != ',' {
        if i < |ws| {
          assert IsSpace(ws[i]);
        }
      }
    }
    SpecKeepsCommaFreePrefix(tail, []);
    assert tail + [] == tail;
  }

  lemma {:induction false} CloserRunOfSpaces(ws: string, closer: char)
    requires AllSpace(ws) && (closer == '}' || closer == ']')
    ensures CloserRun(ws + [closer]) == Some(|ws| + 1)
  {
    if ws == [] {
      assert ws + [closer] == [closer];
    } else {
      assert (ws + [closer])[1..] == ws[1..] + [closer];
      assert AllSpace(ws[1..]) by {
        forall i | 0 <= i < |ws[1..]| ensures IsSpace(ws[1..][i]) {
          assert ws[1..][i] == ws[i + 1];
        }
      }
      CloserRunOfSpaces(ws[1..], closer);
    }
  }

  /** Text without `{` and `,` has no bare key to quote. */
  lemma {:induction false} QuoteBareKeysKeepsPlainText(s: string)
    requires '{' !in s && ',' !in s
    ensures QuoteBareKeys(s) == s
  {
    if s != [] {
      assert QuoteKeyAt(s).None?;
      assert QuoteBareKeys(s) == [s[0]] + QuoteBareKeys(s[1..]);
      QuoteBareKeysKeepsPlainText(s[1..]);
    }
  }

  /** Text without `'` has no single-quoted value to re-quote. */
  lemma {:induction false} QuoteSingleValuesKeepsPlainText(s: string)
    requires '\'' !in s
    ensures QuoteSingleValues(s) == s
  {
    if s != [] {
      if s[0] == ':' {
        var sp := SpaceRun(s[1..]);
        assert sp < |s[1..]| ==> s[1..][sp] == s[sp + 1];
        assert RequoteAt(s).None?;
      }
      assert QuoteSingleValues(s) == [s[0]] + QuoteSingleValues(s[1..]);
      QuoteSingleValuesKeepsPlainText(s[1..]);
    }
  }

  /** A one-field object with a trailing comma, such as `{"summary":"x",}`,
      is repaired to the same object without the comma. */
  lemma {:induction false} TrailingCommaObjectRepaired(key: string, value: string)
    requires '{' !in key + value && ',' !in key + value && '\'' !in key + value
    ensures Repair("{\"" + key + "\":\"" + value + "\",}") == "{\"" + key + "\":\"" + value + "\"}"
  {
    var body := "\"" + key + "\":\"" + value + "\"";
    assert forall c :: c in body ==> c == '"' || c == ':' || c in key + value;
    assert "{\"" + key + "\":\"" + value + "\",}" == "{" + body + ",}";
    assert "{\"" + key + "\":\"" + value + "\"}" == "{" + body + "}";
    TrailingCommaBodyRepaired(body);
  }

  lemma {:induction false} TrailingCommaBodyRepaired(body: string)
    requires |body| > 0 && body[0] == '"'
    requires '{' !in body && ',' !in body && '\'' !in body
    ensures Repair("{" + body + ",}") == "{" + body + "}"
  {
    var fixed := "{" + body + "}";
    assert "{" + body + ",}" == "{" + body + "," + "" + ['}'];
    assert "{" + body + "" + ['}'] == fixed;
    TrailingCommaBeforeCloserDropped("{" + body, "", '}');
    assert fixed[1..] == body + "}";
    QuotedKeysKept(fixed);
    QuoteSingleValuesKeepsPlainText(fixed);
  }

  /** An object text whose first key is quoted and that has no other `{`
      or `,` is left alone. */
  lemma {:induction false} QuotedKeysKept(s: string)
    requires |s| >= 2 && s[0] == '{' && s[1] == '"' && '{' !in s[1..] && ',' !in s[1..]
    ensures QuoteBareKeys(s) == s
  {
    assert s[1..][0] == '"';
    assert SpaceRun(s[1..]) == 0;
    assert WordRun(s[1..]) == 0;
    assert QuoteKeyAt(s).None?;
    QuoteBareKeysKeepsPlainText(s[1..]);
    assert s == [s[0]] + s[1..];
  }

  // --------------------------------------------------------------- parsing

  /** First parse; the repaired text is parsed only when that fails. */
  function ParseWithRepair(x: string, parse: Parser): (r: Option<JsObject<Value>>)
  {
    if parse(x).Some? then parse(x) else parse(Repair(x))
  }

  /** `if (!parsedResult.personas) parsedResult.personas = []`. */
  function EnsurePersonas(o: JsObject<Value>): (r: JsObject<Value>)
    ensures Truthy(Field(r, "personas"))
    ensures Truthy(Field(o, "personas")) ==> r == o
    ensures !Truthy(Field(o, "personas")) ==> Get(r, "personas") == Some(Arr([]))
    ensures forall k :: k != "personas" ==> Get(r, k) == Get(o, k)
    ensures forall k :: k in o.entries ==> k in r.entries
  {
    if Truthy(Field(o, "personas")) then o else Put(o, "personas", Arr([]))
  }

  /** What `analyzeResults` makes of the model's reply text. */
  function DecodeAnalysis(text: string, parse: Parser): (r: Result<JsObject<Value>, string>)
    ensures r.Failure? ==> r.error == AnalysisFailure
    ensures r.Success? ==> Truthy(Field(r.value, "personas"))
    ensures var x := ExtractObject(StripFences(text));
      r.Success? <==> x.Some? && (parse(x.value).Some? || parse(Repair(x.value)).Some?)
    ensures var x := ExtractObject(StripFences(text));
      x.Some? && parse(x.value).Some? ==> r == Success(EnsurePersonas(parse(x.value).value))
    ensures var x := ExtractObject(StripFences(text));
      x.Some? && parse(x.value).None? && parse(Repair(x.value)).Some? ==>
        r == Success(EnsurePersonas(parse(Repair(x.value)).value))
  {
    var x := ExtractObject(StripFences(text));
    if x.None? then Failure(AnalysisFailure)
    else
      var parsed := ParseWithRepair(x.value, parse);
      if parsed.None? then Failure(AnalysisFailure) else Success(EnsurePersonas(parsed.value))
  }

  /** A reply whose JSON is wrapped in a json code fence decodes exactly as
      the bare JSON does. */
  lemma {:induction false} FencedReplyDecodesLikeBare(payload: string, parse: Parser)
    requires '`' !in payload
    ensures DecodeAnalysis("```json\n" + payload + "\n```", parse) == DecodeAnalysis(payload, parse)
  {
    FencedPayloadCleansLikeBare(payload);
  }
}
