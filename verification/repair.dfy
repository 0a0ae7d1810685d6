/** Best-effort repair of the tool-call argument strings a language model
    emits (`cleanJsonString`), and the two-attempt parse around it
    (`parseToolArguments`). Every rewrite is a separate function, applied in
    the fixed order of the client. */
module ArgumentRepair {
  import opened Wrappers
  import opened Json
  import opened Text

  /** The characters `String.prototype.trim` removes: the ECMAScript
      WhiteSpace (tab, vertical tab, form feed, space, no-break space,
      byte-order mark and the other space separators) and LineTerminator
      (line feed, carriage return, line and paragraph separator) sets. */
  predicate IsJsWhitespace(c: char)
  {
    || c == '\t' || c == '\U{000B}' || c == '\U{000C}' || c == ' '
    || c == '\U{00A0}' || c == '\U{FEFF}' || c == '\U{1680}'
    || ('\U{2000}' <= c <= '\U{200A}')
    || c == '\U{202F}' || c == '\U{205F}' || c == '\U{3000}'
    || c == '\n' || c == '\r' || c == '\U{2028}' || c == '\U{2029}'
  }

  /** No leading or trailing whitespace. */
  predicate IsTrimmed(s: string)
  {
    |s| == 0 || (!IsJsWhitespace(s[0]) && !IsJsWhitespace(s[|s| - 1]))
  }

  /** Removes leading whitespace: the result is the suffix of `s` that
      starts at its first non-whitespace character. */
  function TrimStart(s: string): (r: string)
    ensures |r| <= |s| && r == s[|s| - |r|..]
    ensures forall i :: 0 <= i < |s| - |r| ==> IsJsWhitespace(s[i])
    ensures |r| > 0 ==> !IsJsWhitespace(r[0])
  {
    if |s| > 0 && IsJsWhitespace(s[0]) then
      var r := TrimStart(s[1..]);
      assert s[1..][|s| - 1 - |r|..] == s[|s| - |r|..];
      assert forall i :: 1 <= i < |s| - |r| ==> s[i] == s[1..][i - 1];
      r
    else s
  }

  /** Removes trailing whitespace: the result is the prefix of `s` that
      ends at its last non-whitespace character. */
  function TrimEnd(s: string): (r: string)
    ensures |r| <= |s| && r == s[..|r|]
    ensures forall i :: |r| <= i < |s| ==> IsJsWhitespace(s[i])
    ensures |r| > 0 ==> !IsJsWhitespace(r[|r| - 1])
  {
    if |s| > 0 && IsJsWhitespace(s[|s| - 1]) then TrimEnd(s[..|s| - 1]) else s
  }

  /** Cutting a whitespace-only prefix off `s` keeps the count of every
      other character. */
  lemma CountWithoutLeadingWhitespace(s: string, rest: string, k: nat, c: char)
    requires k <= |s| && rest == s[k..] && !IsJsWhitespace(c)
    requires forall i :: 0 <= i < k ==> IsJsWhitespace(s[i])
    ensures Count(rest, c) == Count(s, c)
  {
    assert s == s[..k] + s[k..];
    CountAppend(s[..k], s[k..], c);
  }

  /** Cutting a whitespace-only suffix off `s` keeps the count of every
      other character. */
  lemma CountWithoutTrailingWhitespace(s: string, rest: string, k: nat, c: char)
    requires k <= |s| && rest == s[..k] && !IsJsWhitespace(c)
    requires forall i :: k <= i < |s| ==> IsJsWhitespace(s[i])
    ensures Count(rest, c) == Count(s, c)
  {
    assert s == s[..k] + s[k..];
    CountAppend(s[..k], s[k..], c);
  }

  /** `s.trim()`: whitespace goes from both ends and nothing else changes;
      a trimmed string is left as it is, and an all-whitespace string
      becomes empty. */
  function Trim(s: string): (r: string)
    ensures IsTrimmed(r)
    ensures IsTrimmed(s) ==> r == s
    ensures r == [] <==> forall i :: 0 <= i < |s| ==> IsJsWhitespace(s[i])
    ensures forall c :: !IsJsWhitespace(c) ==> Count(r, c) == Count(s, c)
    ensures exists k :: IsMiddleOf(r, s, k)
  {
    var front := TrimStart(s);
    var r := TrimEnd(front);
    TrimShape(s, front, r);
    TrimKeepsMiddle(s, front, r);
    TrimKeepsCounts(s, front, r);
    r
  }

  /** Whitespace cut off both ends leaves a trimmed string, nothing when
      there was nothing else, and a trimmed string alone. */
  lemma TrimShape(s: string, front: string, r: string)
    requires |front| <= |s| && front == s[|s| - |front|..]
    requires forall i :: 0 <= i < |s| - |front| ==> IsJsWhitespace(s[i])
    requires |front| > 0 ==> !IsJsWhitespace(front[0])
    requires |r| <= |front| && r == front[..|r|]
    requires forall i :: |r| <= i < |front| ==> IsJsWhitespace(front[i])
    requires |r| > 0 ==> !IsJsWhitespace(r[|r| - 1])
    ensures IsTrimmed(r)
    ensures IsTrimmed(s) ==> r == s
    ensures r == [] <==> forall i :: 0 <= i < |s| ==> IsJsWhitespace(s[i])
  {
    if |r| > 0 {
      assert r[0] == front[0];
    }
    if IsTrimmed(s) && |s| > 0 {
      assert |front| == |s|;
      assert front == s;
      assert |r| == |front|;
    }
    if r == [] {
      assert |front| == 0;
    } else {
      assert front[0] == s[|s| - |front|];
    }
  }

  /** `r` is the slice of `s` starting at `k`, with only whitespace on
      either side of it. */
  predicate IsMiddleOf(r: string, s: string, k: nat)
  {
    && k + |r| <= |s|
    && r == s[k..k + |r|]
    && (forall i :: 0 <= i < k ==> IsJsWhitespace(s[i]))
    && (forall i :: k + |r| <= i < |s| ==> IsJsWhitespace(s[i]))
  }

  /** Trimming keeps a contiguous middle of `s`. */
  lemma TrimKeepsMiddle(s: string, front: string, r: string)
    requires |front| <= |s| && front == s[|s| - |front|..]
    requires forall i :: 0 <= i < |s| - |front| ==> IsJsWhitespace(s[i])
    requires |r| <= |front| && r == front[..|r|]
    requires forall i :: |r| <= i < |front| ==> IsJsWhitespace(front[i])
    ensures exists k :: IsMiddleOf(r, s, k)
  {
    var k := |s| - |front|;
    assert r == s[k..k + |r|];
    forall i | k + |r| <= i < |s|
      ensures IsJsWhitespace(s[i])
    {
      assert s[i] == front[i - k];
    }
    assert IsMiddleOf(r, s, k);
  }

  /** Cutting whitespace off both ends keeps the count of every other
      character. */
  lemma TrimKeepsCounts(s: string, front: string, r: string)
    requires |front| <= |s| && front == s[|s| - |front|..]
    requires forall i :: 0 <= i < |s| - |front| ==> IsJsWhitespace(s[i])
    requires |r| <= |front| && r == front[..|r|]
    requires forall i :: |r| <= i < |front| ==> IsJsWhitespace(front[i])
    ensures forall c :: !IsJsWhitespace(c) ==> Count(r, c) == Count(s, c)
  {
    forall c | !IsJsWhitespace(c)
      ensures Count(r, c) == Count(s, c)
    {
      CountWithoutLeadingWhitespace(s, front, |s| - |front|, c);
      CountWithoutTrailingWhitespace(front, r, |r|, c);
    }
  }

  /** Step 2: drops the `{}` of a leading `{}{` artefact. The brace surplus
      (opening minus closing braces) is unchanged, so the final balancing
      step is not affected. */
  function DropEmptyObjectPrefix(s: string): (r: string)
    ensures StartsWith(s, "{}{") ==>
              && "{}" + r == s && StartsWith(r, "{")
              && Count(r, '{') + 1 == Count(s, '{') && Count(r, '}') + 1 == Count(s, '}')
    ensures !StartsWith(s, "{}{") ==> r == s
  {
    if StartsWith(s, "{}{") then
      assert s[0] == "{}{"[0] && s[1] == "{}{"[1] && s[2] == "{}{"[2];
      CountEnds(s, '{');
      CountEnds(s, '}');
      CountEnds(s[1..], '{');
      CountEnds(s[1..], '}');
      assert s[1..][1..] == s[2..];
      s[2..]
    else s
  }

  /** Counting the first and the last character of `s` separately. */
  lemma CountEnds(s: string, c: char)
    requires |s| >= 1
    ensures Count(s, c) == (if s[0] == c then 1 else 0) + Count(s[1..], c)
    ensures Count(s, c) == Count(s[..|s| - 1], c) + (if s[|s| - 1] == c then 1 else 0)
  {
    assert s == s[..|s| - 1] + [s[|s| - 1]];
    CountAppend(s[..|s| - 1], [s[|s| - 1]], c);
  }

  /** The `"{...}"` shape: a brace-delimited body inside one pair of quotes. */
  predicate IsQuoteWrapped(s: string)
  {
    StartsWith(s, "\"{") && EndsWith(s, "}\"")
  }

  /** Step 3: unwraps a quote-wrapped object; the body keeps its outer
      braces and every brace of the input. */
  function UnwrapQuoted(s: string): (r: string)
    ensures IsQuoteWrapped(s) ==> s == "\"" + r + "\"" && StartsWith(r, "{") && EndsWith(r, "}")
    ensures !IsQuoteWrapped(s) ==> r == s
    ensures Count(r, '{') == Count(s, '{') && Count(r, '}') == Count(s, '}')
  {
    if IsQuoteWrapped(s) then
      var r := s[1..|s| - 1];
      assert s[0] == "\"{"[0] && s[1] == "\"{"[1];
      assert s[|s| - 2] == "}\""[0] && s[|s| - 1] == "}\""[1];
      assert s == "\"" + r + "\"";
      CountEnds(s, '{');
      CountEnds(s, '}');
      CountEnds(s[..|s| - 1], '{');
      CountEnds(s[..|s| - 1], '}');
      assert s[..|s| - 1][1..] == r;
      r
    else s
  }

  /** `s.replace(/from/g, to)` for a single character `from`. */
  function ReplaceChar(s: string, from: char, to: char): (r: string)
    ensures |r| == |s|
    ensures forall i :: 0 <= i < |s| ==> r[i] == (if s[i] == from then to else s[i])
  {
    if |s| == 0 then [] else [if s[0] == from then to else s[0]] + ReplaceChar(s[1..], from, to)
  }

  /** The curly quotation marks the client straightens. */
  predicate IsCurlyQuote(c: char)
  {
    c == '\U{201C}' || c == '\U{201D}' || c == '\U{2018}' || c == '\U{2019}'
  }

  /** Straight counterpart of a character: curly double quotes become `"`,
      curly single quotes become `'`, anything else is kept. */
  function Straighten(c: char): (d: char)
    ensures !IsCurlyQuote(d)
    ensures !IsCurlyQuote(c) ==> d == c
  {
    if c == '\U{201C}' || c == '\U{201D}' then '\"'
    else if c == '\U{2018}' || c == '\U{2019}' then '\''
    else c
  }

  /** Step 4: the four global curly-quote replacements, which together
      straighten every character independently. */
  function NormaliseQuotes(s: string): (r: string)
    ensures |r| == |s|
    ensures forall i :: 0 <= i < |s| ==> r[i] == Straighten(s[i])
    ensures forall c :: c in r ==> !IsCurlyQuote(c)
  {
    var r := ReplaceChar(ReplaceChar(ReplaceChar(ReplaceChar(s, '\U{201C}', '\"'), '\U{201D}', '\"'), '\U{2018}', '\''), '\U{2019}', '\'');
    assert forall c :: c in r ==> !IsCurlyQuote(c) by {
      forall c | c in r
        ensures !IsCurlyQuote(c)
      {
        var i :| 0 <= i < |r| && r[i] == c;
        assert r[i] == Straighten(s[i]);
      }
    }
    r
  }

  /** Step 5: every line feed becomes a space; nothing else changes. */
  function FlattenNewlines(s: string): (r: string)
    ensures |r| == |s|
    ensures forall i :: 0 <= i < |s| ==> r[i] == (if s[i] == '\n' then ' ' else s[i])
    ensures '\n' !in r
    ensures forall c :: c in r ==> c in s || c == ' '
  {
    var r := ReplaceChar(s, '\n', ' ');
    assert forall c :: c in r ==> (c in s && c != '\n') || c == ' ' by {
      forall c | c in r
        ensures (c in s && c != '\n') || c == ' '
      {
        var i :| 0 <= i < |r| && r[i] == c;
      }
    }
    r
  }

  /** Steps 6 and 7: `s.replace(/\\c/g, c)` for `c` either `"` or `\`.
      Scanning left to right, each backslash that escapes `c` is deleted and
      matching resumes after `c`, so pairs never overlap. Only backslashes
      are deleted, so the text without backslashes is unchanged, and the
      string changes exactly when a backslash directly precedes a `c`. */
  function DropEscape(s: string, c: char): (r: string)
    ensures |r| <= |s| && (|r| == |s| ==> r == s)
    ensures Strip(r, '\\') == Strip(s, '\\')
    ensures r == s <==> !OccursPair(s, '\\', c)
    decreases |s|
  {
    if |s| == 0 then []
    else
      OccursPairCons(s, '\\', c);
      if |s| >= 2 && s[0] == '\\' && s[1] == c then
        var r := [c] + DropEscape(s[2..], c);
        assert s[1..][1..] == s[2..];
        r
      else
        var r := [s[0]] + DropEscape(s[1..], c);
        assert r[1..] == DropEscape(s[1..], c);
        assert s == [s[0]] + s[1..];
        r
  }

  /** Reference for step 6: `s` with exactly the backslashes that directly
      precede a `"` deleted, every other character kept in order. */
  function WithoutQuoteEscapes(s: string): string
    decreases |s|
  {
    if |s| == 0 then []
    else if |s| >= 2 && s[0] == '\\' && s[1] == '\"' then WithoutQuoteEscapes(s[1..])
    else [s[0]] + WithoutQuoteEscapes(s[1..])
  }

  /** Step 6 deletes exactly the backslashes that directly precede a `"`:
      a quote cannot itself start a match, so the matches never compete. */
  lemma {:induction false} DropEscapeQuotes(s: string)
    ensures DropEscape(s, '\"') == WithoutQuoteEscapes(s)
    decreases |s|
  {
    if |s| >= 2 && s[0] == '\\' && s[1] == '\"' {
      DropEscapeQuotes(s[2..]);
      assert s[1..][1..] == s[2..];
    } else if |s| > 0 {
      DropEscapeQuotes(s[1..]);
    }
  }

  /** Length of the run of backslashes that `s` starts with. */
  function LeadingBackslashes(s: string): (n: nat)
    ensures n <= |s|
    ensures forall i :: 0 <= i < n ==> s[i] == '\\'
    ensures n < |s| ==> s[n] != '\\'
    decreases |s|
  {
    if |s| > 0 && s[0] == '\\' then 1 + LeadingBackslashes(s[1..]) else 0
  }

  /** Reference for step 7: every maximal run of n backslashes becomes a
      run of n/2 backslashes, rounded up; every other character is kept. */
  function HalvedRuns(s: string): string
    decreases |s|
  {
    if |s| == 0 then []
    else if s[0] == '\\' then
      var n := LeadingBackslashes(s);
      Repeat('\\', (n + 1) / 2) + HalvedRuns(s[n..])
    else [s[0]] + HalvedRuns(s[1..])
  }

  /** Step 7 halves a leading run of n backslashes, rounding up: the pairs
      are matched from the left, and an odd last backslash stays. */
  lemma {:induction false} DropEscapeRun(s: string, n: nat)
    requires n <= |s|
    requires forall i :: 0 <= i < n ==> s[i] == '\\'
    requires n < |s| ==> s[n] != '\\'
    ensures DropEscape(s, '\\') == Repeat('\\', (n + 1) / 2) + DropEscape(s[n..], '\\')
    decreases n
  {
    if n == 1 {
      DropEscapeKeeps(s, '\\');
    } else if n >= 2 {
      DropEscapeRun(s[2..], n - 2);
      assert s[2..][n - 2..] == s[n..];
      DropEscapeRunStep(s, n);
    }
  }

  lemma DropEscapeRunStep(s: string, n: nat)
    requires 2 <= n <= |s| && s[0] == '\\' && s[1] == '\\'
    requires DropEscape(s[2..], '\\') == Repeat('\\', (n - 1) / 2) + DropEscape(s[n..], '\\')
    ensures DropEscape(s, '\\') == Repeat('\\', (n + 1) / 2) + DropEscape(s[n..], '\\')
  {
    DropEscapeDeletes(s, '\\');
    assert (n + 1) / 2 == (n - 1) / 2 + 1;
    RepeatCons(DropEscape(s, '\\'), DropEscape(s[2..], '\\'), DropEscape(s[n..], '\\'), (n - 1) / 2);
  }

  /** One more backslash in front of a run of `k` makes a run of `k + 1`. */
  lemma RepeatCons(a: string, b: string, rest: string, k: nat)
    requires a == ['\\'] + b && b == Repeat('\\', k) + rest
    ensures a == Repeat('\\', k + 1) + rest
  {
    assert Repeat('\\', k + 1) == ['\\'] + Repeat('\\', k);
  }

  /** A backslash escaping `c` at the front gives way to `c`. */
  lemma DropEscapeDeletes(s: string, c: char)
    requires |s| >= 2 && s[0] == '\\' && s[1] == c
    ensures DropEscape(s, c) == [c] + DropEscape(s[2..], c)
  {
  }

  /** Any other front character is kept. */
  lemma DropEscapeKeeps(s: string, c: char)
    requires |s| >= 1 && !(|s| >= 2 && s[0] == '\\' && s[1] == c)
    ensures DropEscape(s, c) == [s[0]] + DropEscape(s[1..], c)
  {
  }

  /** Step 7 turns every maximal run of n backslashes into one of n/2,
      rounded up, and keeps everything else. */
  lemma {:induction false} DropEscapeBackslashes(s: string)
    ensures DropEscape(s, '\\') == HalvedRuns(s)
    decreases |s|
  {
    if |s| > 0 {
      if s[0] == '\\' {
        var n := LeadingBackslashes(s);
        DropEscapeRun(s, n);
        DropEscapeBackslashes(s[n..]);
        assert HalvedRuns(s) == Repeat('\\', (n + 1) / 2) + HalvedRuns(s[n..]);
      } else {
        DropEscapeKeeps(s, '\\');
        DropEscapeBackslashes(s[1..]);
      }
    }
  }

  /** Step 8: when `s` has more `{` than `}`, exactly the missing `}` are
      appended; otherwise `s` is returned unchanged. Afterwards no `{` lacks
      a `}` to match in count. */
  function CloseBraces(s: string): (r: string)
    ensures Count(r, '{') == Count(s, '{')
    ensures Count(r, '{') <= Count(r, '}')
    ensures forall c :: c in r ==> c in s || c == '}'
    ensures Count(s, '{') <= Count(s, '}') ==> r == s
    ensures Count(s, '{') > Count(s, '}') ==>
              && |r| == |s| + (Count(s, '{') - Count(s, '}'))
              && r[..|s|] == s
              && (forall i :: |s| <= i < |r| ==> r[i] == '}')
              && Count(r, '{') == Count(r, '}')
  {
    var opens := Count(s, '{');
    var closes := Count(s, '}');
    if opens > closes then
      var r := s + Repeat('}', opens - closes);
      CountAppend(s, Repeat('}', opens - closes), '{');
      CountAppend(s, Repeat('}', opens - closes), '}');
      CountRepeat('}', opens - closes, '{');
      CountRepeat('}', opens - closes, '}');
      r
    else s
  }

  /** A character `cleanJsonString` never leaves in its output. */
  predicate IsCleanedAway(c: char)
  {
    IsCurlyQuote(c) || c == '\n'
  }

  /** Steps 1 to 3, which only cut characters off the ends. */
  function StripWrappers(s: string): string
  {
    UnwrapQuoted(DropEmptyObjectPrefix(Trim(s)))
  }

  /** Steps 4 to 7, which rewrite characters in place or delete backslashes. */
  function RepairCharacters(s: string): string
  {
    DropEscape(DropEscape(FlattenNewlines(NormaliseQuotes(s)), '\"'), '\\')
  }

  /** `cleanJsonString`: trim, drop a `{}{` artefact, unwrap `"{...}"`,
      straighten curly quotes, flatten line feeds, unescape `\"`, collapse
      `\\`, close missing braces. The result holds no curly quote and no
      line feed, and has at least as many `}` as `{`. */
  function CleanJsonString(s: string): (r: string)
    ensures forall c :: c in r ==> !IsCleanedAway(c)
    ensures Count(r, '{') <= Count(r, '}')
  {
    var repaired := RepairCharacters(StripWrappers(s));
    RepairLeavesNoCleanedAway(StripWrappers(s));
    ClosingKeepsAbsence(repaired);
    CloseBraces(repaired)
  }

  /** Steps 4 to 7 leave no curly quote and no line feed, whatever they
      are given. */
  lemma RepairLeavesNoCleanedAway(s: string)
    ensures forall c :: c in RepairCharacters(s) ==> !IsCleanedAway(c)
  {
    var straightened := FlattenNewlines(NormaliseQuotes(s));
    StraighteningLeavesNoCleanedAway(s);
    var unescaped := DropEscape(straightened, '\"');
    BackslashDeletionKeepsAbsence(straightened, unescaped);
    BackslashDeletionKeepsAbsence(unescaped, DropEscape(unescaped, '\\'));
  }

  lemma StraighteningLeavesNoCleanedAway(s: string)
    ensures forall c :: c in FlattenNewlines(NormaliseQuotes(s)) ==> !IsCleanedAway(c)
  {
    var quotesDone := NormaliseQuotes(s);
    forall c | c in FlattenNewlines(quotesDone)
      ensures !IsCleanedAway(c)
    {
      assert c in quotesDone || c == ' ';
    }
  }

  lemma ClosingKeepsAbsence(s: string)
    requires forall c :: c in s ==> !IsCleanedAway(c)
    ensures forall c :: c in CloseBraces(s) ==> !IsCleanedAway(c)
  {
  }

  /** Deleting backslashes cannot bring back a character that was gone. */
  lemma BackslashDeletionKeepsAbsence(s: string, t: string)
    requires Strip(t, '\\') == Strip(s, '\\')
    requires forall c :: c in s ==> !IsCleanedAway(c)
    ensures forall c :: c in t ==> !IsCleanedAway(c)
  {
    forall c | c in t
      ensures !IsCleanedAway(c)
    {
      if c != '\\' {
        assert c in Strip(t, '\\');
      }
    }
  }

  /** Text steps 4 to 7 leave alone: no curly quote or line feed, no `\"`
      and no `\\`. */
  predicate HasNothingToRepair(s: string)
  {
    && (forall i :: 0 <= i < |s| ==> !IsCleanedAway(s[i]))
    && !OccursPair(s, '\\', '\"')
    && !OccursPair(s, '\\', '\\')
  }

  /** Steps 4 to 7 change exactly the strings that have something to repair. */
  lemma RepairCharactersIdentity(s: string)
    ensures RepairCharacters(s) == s <==> HasNothingToRepair(s)
  {
    if HasNothingToRepair(s) {
      NothingToStraighten(s);
    }
    if RepairCharacters(s) == s {
      RepairFixedPoint(s);
    }
  }

  lemma NothingToStraighten(s: string)
    requires forall i :: 0 <= i < |s| ==> !IsCleanedAway(s[i])
    ensures FlattenNewlines(NormaliseQuotes(s)) == s
  {
    assert NormaliseQuotes(s) == s;
  }

  lemma RepairFixedPoint(s: string)
    requires RepairCharacters(s) == s
    ensures HasNothingToRepair(s)
  {
    var straightened := FlattenNewlines(NormaliseQuotes(s));
    var unescaped := DropEscape(straightened, '\"');
    assert |unescaped| == |straightened|;
    RepairLeavesNoCleanedAway(s);
    forall i | 0 <= i < |s|
      ensures !IsCleanedAway(s[i])
    {
      assert s[i] in RepairCharacters(s);
    }
    NothingToStraighten(s);
  }

  /** Input every rewrite of `cleanJsonString` leaves alone: trimmed, no
      `{}{` prefix, not quote-wrapped, nothing to repair, and no more `{`
      than `}`. */
  predicate IsAlreadyClean(s: string)
  {
    && IsTrimmed(s)
    && !StartsWith(s, "{}{")
    && !IsQuoteWrapped(s)
    && HasNothingToRepair(s)
    && Count(s, '{') <= Count(s, '}')
  }

  /** On input that needs neither cutting nor repair, `cleanJsonString`
      only closes missing braces. */
  lemma CleanJsonStringOnlyCloses(s: string)
    requires IsTrimmed(s) && !StartsWith(s, "{}{") && !IsQuoteWrapped(s) && HasNothingToRepair(s)
    ensures CleanJsonString(s) == CloseBraces(s)
  {
    assert StripWrappers(s) == s;
    RepairCharactersIdentity(s);
  }

  /** On already clean input `cleanJsonString` is the identity. */
  lemma CleanJsonStringIdentity(s: string)
    requires IsAlreadyClean(s)
    ensures CleanJsonString(s) == s
  {
    CleanJsonStringOnlyCloses(s);
  }

  /** A quote-wrapped object whose body needs no repair and no closing
      brace comes out as that body, as `"{"a":"b"}"` becomes `{"a":"b"}`. */
  lemma CleanJsonStringUnwraps(body: string)
    requires StartsWith(body, "{") && EndsWith(body, "}")
    requires HasNothingToRepair(body) && Count(body, '{') <= Count(body, '}')
    ensures CleanJsonString("\"" + body + "\"") == body
  {
    WrappedBodyStrips(body);
    RepairCharactersIdentity(body);
  }

  lemma WrappedBodyStrips(body: string)
    requires StartsWith(body, "{") && EndsWith(body, "}")
    ensures StripWrappers("\"" + body + "\"") == body
  {
    WrappedIsTrimmed(body);
    WrappedHasNoEmptyObjectPrefix(body);
    WrappedUnwraps(body);
  }

  lemma WrappedIsTrimmed(body: string)
    requires StartsWith(body, "{") && EndsWith(body, "}")
    ensures Trim("\"" + body + "\"") == "\"" + body + "\""
  {
    var s := "\"" + body + "\"";
    assert s[0] == '\"' && s[|s| - 1] == '\"';
  }

  lemma WrappedHasNoEmptyObjectPrefix(body: string)
    ensures DropEmptyObjectPrefix("\"" + body + "\"") == "\"" + body + "\""
  {
    var s := "\"" + body + "\"";
    assert s[0] == '\"';
    if |s| >= 3 {
      assert s[..3][0] != "{}{"[0];
    }
  }

  lemma WrappedUnwraps(body: string)
    requires StartsWith(body, "{") && EndsWith(body, "}")
    ensures UnwrapQuoted("\"" + body + "\"") == body
  {
    var s := "\"" + body + "\"";
    assert s[0] == '\"' && s[1] == '{' && s[|s| - 2] == '}' && s[|s| - 1] == '\"';
    assert s[..2] == "\"{";
    assert s[|s| - 2..] == "}\"";
    assert s[1..|s| - 1] == body;
  }

  /** Curly quotes are the only fault of `s`: cleaning straightens them and
      closes missing braces, as `{“a”: “b”}` becomes `{"a": "b"}`. */
  lemma CleanJsonStringStraightens(s: string)
    requires IsTrimmed(s) && !StartsWith(s, "{}{") && !IsQuoteWrapped(s)
    requires HasNothingToRepair(NormaliseQuotes(s))
    ensures CleanJsonString(s) == CloseBraces(NormaliseQuotes(s))
  {
    var straight := NormaliseQuotes(s);
    assert StripWrappers(s) == s;
    assert NormaliseQuotes(straight) == straight;
    RepairCharactersIdentity(straight);
  }

  /** `cleanJsonString` leaves a string unchanged exactly when it is
      already clean: every step then had nothing to do. */
  lemma CleanJsonStringFixedPoint(s: string)
    ensures CleanJsonString(s) == s <==> IsAlreadyClean(s)
  {
    if IsAlreadyClean(s) {
      CleanJsonStringIdentity(s);
    }
    FixedPointIsClean(s);
  }

  /** A fixed point of `cleanJsonString`: the brace counts show that no
      `{}` was dropped and no `}` appended, and the lengths show that
      nothing was trimmed, unwrapped or unescaped. */
  lemma FixedPointIsClean(s: string)
    ensures CleanJsonString(s) == s ==> IsAlreadyClean(s)
  {
    if CleanJsonString(s) == s {
      var a := Trim(s);
      var c := UnwrapQuoted(a);
      FixedPointCounts(s);
      var k :| IsMiddleOf(a, s, k);
      FixedPointLengths(s, a, a, c, RepairCharacters(c), k);
      RepairFixedPoint(s);
    }
  }

  /** At a fixed point neither step 2 nor step 8 changed anything. */
  lemma FixedPointCounts(s: string)
    ensures CleanJsonString(s) == s ==>
              DropEmptyObjectPrefix(Trim(s)) == Trim(s) && RepairCharacters(UnwrapQuoted(Trim(s))) == s
  {
    if CleanJsonString(s) == s {
      var dropped := StartsWith(Trim(s), "{}{");
      var d := RepairCharacters(StripWrappers(s));
      StripRepairBraces(s, '{');
      StripRepairBraces(s, '}');
      assert !dropped;
      assert Count(d, '{') <= Count(d, '}');
    }
  }

  /** Steps 1 to 7 lose one brace of each kind when step 2 drops a `{}`,
      and none otherwise. */
  lemma StripRepairBraces(s: string, brace: char)
    requires brace == '{' || brace == '}'
    ensures Count(RepairCharacters(StripWrappers(s)), brace)
              + (if StartsWith(Trim(s), "{}{") then 1 else 0) == Count(s, brace)
  {
    assert !IsJsWhitespace(brace);
    RepairKeepsBraces(StripWrappers(s), brace);
  }

  /** The lengths of the steps of a fixed point: nothing was trimmed and
      no quotes were unwrapped. */
  lemma FixedPointLengths(s: string, a: string, b: string, c: string, d: string, k: nat)
    requires IsMiddleOf(a, s, k)
    requires b == a
    requires IsQuoteWrapped(b) ==> |c| + 2 == |b|
    requires !IsQuoteWrapped(b) ==> c == b
    requires |d| <= |c| && d == s
    ensures a == s && c == s && !IsQuoteWrapped(s)
  {
    assert |a| == |s|;
    assert a == s[0..|s|];
  }

  /** Steps 4 to 7 keep the count of each brace and never lengthen. */
  lemma RepairKeepsBraces(x: string, brace: char)
    requires brace == '{' || brace == '}'
    ensures Count(RepairCharacters(x), brace) == Count(x, brace)
    ensures |RepairCharacters(x)| <= |x|
  {
    var straight := NormaliseQuotes(x);
    var flat := FlattenNewlines(straight);
    var unescaped := DropEscape(flat, '\"');
    StraighteningKeepsBraces(x, brace);
    FlatteningKeepsBraces(straight, brace);
    EscapeDeletionKeepsBraces(flat, '\"', brace);
    EscapeDeletionKeepsBraces(unescaped, '\\', brace);
  }

  lemma StraighteningKeepsBraces(x: string, brace: char)
    requires brace == '{' || brace == '}'
    ensures Count(NormaliseQuotes(x), brace) == Count(x, brace)
  {
    CountPointwise(NormaliseQuotes(x), x, brace);
  }

  lemma FlatteningKeepsBraces(x: string, brace: char)
    requires brace == '{' || brace == '}'
    ensures Count(FlattenNewlines(x), brace) == Count(x, brace)
  {
    CountPointwise(FlattenNewlines(x), x, brace);
  }

  lemma EscapeDeletionKeepsBraces(x: string, c: char, brace: char)
    requires brace == '{' || brace == '}'
    ensures Count(DropEscape(x, c), brace) == Count(x, brace)
  {
    CountSameStrip(DropEscape(x, c), x, '\\', brace);
  }

  /** `parseToolArguments`: an empty string gives `{}`; otherwise a strict
      parse that succeeds is returned as is; otherwise the cleaned string is
      parsed, and `{}` stands in when that fails too. It never throws, and
      its result is always `{}` or what one of the two parses produced. */
  function ParseToolArguments(s: string, json: JsonCodec): (r: JsonValue)
    ensures s == [] ==> r == EmptyObject
    ensures s != [] && json.parse(s).Some? ==> r == json.parse(s).value
    ensures r == EmptyObject || json.parse(s) == Some(r) || json.parse(CleanJsonString(s)) == Some(r)
    ensures s != [] && json.parse(s).None? && json.parse(CleanJsonString(s)).Some? ==>
              r == json.parse(CleanJsonString(s)).value
    ensures json.parse(s).None? && json.parse(CleanJsonString(s)).None? ==> r == EmptyObject
  {
    if s == [] then EmptyObject
    else
      match json.parse(s)
      case Some(v) => v
      case None =>
        match json.parse(CleanJsonString(s))
        case Some(w) => w
        case None => EmptyObject
  }

  /** When the strict parse succeeds the cleaned string is not consulted:
      two parsers that agree on the raw string give the same arguments,
      whatever they do on its cleaned form. */
  lemma FirstParseWins(s: string, json: JsonCodec, other: JsonCodec, v: JsonValue)
    requires s != []
    requires json.parse(s) == Some(v) && other.parse(s) == Some(v)
    ensures ParseToolArguments(s, json) == ParseToolArguments(s, other) == v
  {
  }

  /** On already clean input both attempts parse the same text, so the
      arguments are the strict parse or `{}`. */
  lemma ParseCleanInput(s: string, json: JsonCodec)
    requires IsAlreadyClean(s)
    ensures s != [] ==> ParseToolArguments(s, json) == json.parse(s).GetOr(EmptyObject)
  {
    CleanJsonStringIdentity(s);
  }
}
