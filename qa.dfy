/**
 * The QA agent: reading pytest's summary line, extracting the generated test
 * files from the language model's reply, laying out a workspace, and turning
 * the install and test subprocess outcomes into a test result.
 */
module Qa {
  import opened Wrappers
  import opened Strings
  import opened Json
  import opened Database
  import StoredJson

  // ---------------------------------------------------------------------
  // Reading the pytest summary: /(\d+)\s+word/

  /** The end of the run of digits that starts at `i`. */
  function DigitRunEnd(s: string, i: nat): (j: nat)
    requires i <= |s|
    ensures i <= j <= |s|
    ensures forall k :: i <= k < j ==> IsDigit(s[k])
    ensures j < |s| ==> !IsDigit(s[j])
    decreases |s| - i
  {
    if i < |s| && IsDigit(s[i]) then DigitRunEnd(s, i + 1) else i
  }

  /** The end of the run of whitespace that starts at `i`. */
  function SpaceRunEnd(s: string, i: nat): (j: nat)
    requires i <= |s|
    ensures i <= j <= |s|
    ensures forall k :: i <= k < j ==> IsSpace(s[k])
    ensures j < |s| ==> !IsSpace(s[j])
    decreases |s| - i
  {
    if i < |s| && IsSpace(s[i]) then SpaceRunEnd(s, i + 1) else i
  }

  /** `word` occurs in `s` at position `i`. */
  predicate MatchAt(s: string, i: nat, word: string) {
    i + |word| <= |s| && s[i..i + |word|] == word
  }

  /** The words pytest's summary counts: none starts with a digit or a space. */
  predicate CountWord(word: string) {
    |word| > 0 && !IsDigit(word[0]) && !IsSpace(word[0])
  }

  /**
   * The regular expression `(\d+)\s+word` matches at `i`, read literally:
   * some digits, then some whitespace, then the word.
   */
  predicate RegexMatchesAt(s: string, i: nat, word: string) {
    exists j, k :: i < j < k <= |s| && AllDigits(s[i..j]) && AllSpaces(s[j..k]) && MatchAt(s, k, word)
  }

  /**
   * The same match as the greedy engine finds it: the whole digit run from
   * `i`, then the whole whitespace run, then the word.
   */
  predicate CountAt(s: string, i: nat, word: string) {
    i < |s| && IsDigit(s[i]) &&
    var j := DigitRunEnd(s, i);
    j < |s| && IsSpace(s[j]) && MatchAt(s, SpaceRunEnd(s, j), word)
  }

  /** Greedy matching loses nothing: the two readings agree at every position. */
  lemma CountAtIsRegex(s: string, i: nat, word: string)
    requires CountWord(word)
    ensures CountAt(s, i, word) <==> RegexMatchesAt(s, i, word)
  {
    if CountAt(s, i, word) {
      var j := DigitRunEnd(s, i);
      var k := SpaceRunEnd(s, j);
      assert AllDigits(s[i..j]) by {
        forall m | 0 <= m < |s[i..j]| ensures IsDigit(s[i..j][m]) { assert s[i..j][m] == s[i + m]; }
      }
      assert AllSpaces(s[j..k]) by {
        forall m | 0 <= m < |s[j..k]| ensures IsSpace(s[j..k][m]) { assert s[j..k][m] == s[j + m]; }
      }
    }
    if RegexMatchesAt(s, i, word) {
      var j, k :| i < j < k <= |s| && AllDigits(s[i..j]) && AllSpaces(s[j..k]) && MatchAt(s, k, word);
      assert forall m :: i <= m < j ==> IsDigit(s[m]) by {
        forall m | i <= m < j ensures IsDigit(s[m]) { assert s[i..j][m - i] == s[m]; }
      }
      assert forall m :: j <= m < k ==> IsSpace(s[m]) by {
        forall m | j <= m < k ensures IsSpace(s[m]) { assert s[j..k][m - j] == s[m]; }
      }
      assert s[k] == word[0] by { assert s[k..k + |word|][0] == s[k]; }
      var e := DigitRunEnd(s, i);
      assert IsSpace(s[j]) && !IsDigit(s[j]);
      assert e < |s| ==> !IsDigit(s[e]);
      assert e == j;
      assert SpaceRunEnd(s, j) == k;
    }
  }

  /** The leftmost position at or after `from` where the expression matches. */
  function FirstCount(s: string, word: string, from: nat): (r: Option<nat>)
    requires from <= |s|
    ensures r.Some? ==> from <= r.value < |s| && CountAt(s, r.value, word)
                        && forall i :: from <= i < r.value ==> !CountAt(s, i, word)
    ensures r.None? ==> forall i :: from <= i < |s| ==> !CountAt(s, i, word)
    decreases |s| - from
  {
    if from == |s| then None
    else if CountAt(s, from, word) then Some(from)
    else FirstCount(s, word, from + 1)
  }

  /** `parseInt` of the captured digits of the first match, or 0 when there is none. */
  function CountOf(s: string, word: string): (n: nat)
    ensures FirstCount(s, word, 0).None? ==> n == 0
  {
    match FirstCount(s, word, 0)
    case None => 0
    case Some(i) =>
      var digits := s[i..DigitRunEnd(s, i)];
      assert AllDigits(digits) by {
        forall m | 0 <= m < |digits| ensures IsDigit(digits[m]) { assert digits[m] == s[i + m]; }
      }
      DigitsValue(digits)
  }

  /** The count is the number written before the leftmost `<digits><spaces>word`. */
  lemma CountOfIsLeftmostMatch(s: string, word: string, i: nat)
    requires CountWord(word) && i < |s|
    requires RegexMatchesAt(s, i, word)
    requires forall k :: 0 <= k < i ==> !RegexMatchesAt(s, k, word)
    ensures CountOf(s, word) == DigitsValue(s[i..DigitRunEnd(s, i)])
  {
    CountAtIsRegex(s, i, word);
    var r := FirstCount(s, word, 0);
    CountAtIsRegex(s, r.value, word);
    assert r.value == i;
  }

  /** `n / d` rounded down, by repeated subtraction. */
  function Quotient(n: nat, d: nat): nat
    requires d > 0
    decreases n
  {
    if n < d then 0 else 1 + Quotient(n - d, d)
  }

  /** The quotient is the floor of n / d: d * q <= n < d * q + d. */
  lemma {:induction false} QuotientBounds(n: nat, d: nat)
    requires d > 0
    ensures d * Quotient(n, d) <= n < d * Quotient(n, d) + d
    decreases n
  {
    if n >= d {
      QuotientBounds(n - d, d);
      assert d * Quotient(n, d) == d + d * Quotient(n - d, d);
    }
  }

  /** `Math.round(p / t * 100)` for t > 0, as half-up rounding on integers; 0 for no tests. */
  function Percentage(passed: nat, total: nat): (pct: nat)
    ensures total == 0 ==> pct == 0
  {
    if total == 0 then 0 else Quotient(200 * passed + total, 2 * total)
  }

  /** The percentage is 100 * p / t rounded to the nearest integer, halves rounding up. */
  lemma PercentageRounds(passed: nat, total: nat)
    requires total > 0
    ensures var pct := Percentage(passed, total);
      2 * total * pct <= 200 * passed + total < 2 * total * pct + 2 * total
  {
    QuotientBounds(200 * passed + total, 2 * total);
  }

  lemma MulCancel(a: int, b: int, c: int)
    requires c > 0 && a * c < b * c
    ensures a < b
  {
    assert (b - a) * c == b * c - a * c;
  }

  /** The percentage is a true percentage: within 0..100, and 100 exactly when all passed. */
  lemma PercentageBounds(passed: nat, total: nat)
    requires passed <= total
    ensures Percentage(passed, total) <= 100
    ensures total > 0 && passed == total ==> Percentage(passed, total) == 100
  {
    if total > 0 {
      PercentageRounds(passed, total);
      var pct, t2 := Percentage(passed, total), 2 * total;
      assert pct * t2 <= 200 * passed + total < pct * t2 + t2;
      MulCancel(pct, 101, t2);
      if passed == total {
        assert 100 * t2 < pct * t2 + t2;
        MulCancel(99, pct, t2);
      }
    }
  }

  /** The counts `parseTestOutput` returns. */
  datatype Counts = Counts(passed: nat, failed: nat, errors: nat, total: nat, percentage: nat)

  /** `parseTestOutput`. */
  function ParseTestOutput(output: string): (c: Counts)
    ensures c.passed == CountOf(output, "passed")
    ensures c.failed == CountOf(output, "failed")
    ensures c.errors == CountOf(output, "error")
    ensures c.total == c.passed + c.failed + c.errors
    ensures c.percentage <= 100
    ensures c.percentage == Percentage(c.passed, c.total)
  {
    var passed, failed, errors := CountOf(output, "passed"), CountOf(output, "failed"), CountOf(output, "error");
    var total := passed + failed + errors;
    PercentageBounds(passed, total);
    Counts(passed, failed, errors, total, Percentage(passed, total))
  }

  // ---------------------------------------------------------------------
  // Extracting the test files from the reply

  /** Where `^` matches in multiline mode. */
  predicate LineStart(s: string, p: nat)
    requires p <= |s|
  {
    p == 0 || IsLineTerminator(s[p - 1])
  }

  /**
   * `s.replace(/^```(?:json)?\s*\/gm, '')` from position `i` on: at a line
   * start, an opening fence, an optional `json` tag and the whitespace after
   * them are dropped; the search resumes where the match ended.
   */
  function StripOpenFences(s: string, i: nat): string
    requires i <= |s|
    decreases |s| - i
  {
    if i == |s| then ""
    else if LineStart(s, i) && MatchAt(s, i, "```") then
      var j := if MatchAt(s, i + 3, "json") then i + 7 else i + 3;
      StripOpenFences(s, SpaceRunEnd(s, j))
    else [s[i]] + StripOpenFences(s, i + 1)
  }

  /** The last line terminator in `s[lo..hi]`, if any. */
  function LastBreak(s: string, lo: nat, hi: nat): (r: Option<nat>)
    requires lo <= hi <= |s|
    ensures r.Some? ==> lo <= r.value < hi && IsLineTerminator(s[r.value])
                        && forall q :: r.value < q < hi ==> !IsLineTerminator(s[q])
    ensures r.None? ==> forall q :: lo <= q < hi ==> !IsLineTerminator(s[q])
    decreases hi - lo
  {
    if lo == hi then None
    else if IsLineTerminator(s[hi - 1]) then Some(hi - 1)
    else LastBreak(s, lo, hi - 1)
  }

  /**
   * Where the match of /```\s*$/m that starts at `i` ends: the greedy `\s*`
   * backs off to the last point where `$` holds, which is the end of the
   * input or a line terminator.
   */
  function CloseFenceEnd(s: string, i: nat): (r: Option<nat>)
    requires i <= |s|
    ensures r.Some? ==> i + 3 <= r.value <= |s|
  {
    if !MatchAt(s, i, "```") then None
    else
      var k := SpaceRunEnd(s, i + 3);
      if k == |s| then Some(k) else LastBreak(s, i + 3, k)
  }

  /** `s.replace(/```\s*$/gm, '')` from position `i` on. */
  function StripCloseFences(s: string, i: nat): string
    requires i <= |s|
    decreases |s| - i
  {
    if i == |s| then ""
    else
      match CloseFenceEnd(s, i)
      case Some(e) => StripCloseFences(s, e)
      case None => [s[i]] + StripCloseFences(s, i + 1)
  }

  predicate HasFence(s: string) {
    exists i :: 0 <= i <= |s| && MatchAt(s, i, "```")
  }

  /** Without a fence, neither replacement changes anything. */
  lemma {:induction false} NoFenceUnchanged(s: string, i: nat)
    requires i <= |s| && !HasFence(s)
    ensures StripOpenFences(s, i) == s[i..]
    ensures StripCloseFences(s, i) == s[i..]
    decreases |s| - i
  {
    if i < |s| {
      assert !MatchAt(s, i, "```");
      NoFenceUnchanged(s, i + 1);
      assert s[i..] == [s[i]] + s[i + 1..];
    }
  }

  /** Where no fence starts between `i` and `k`, the opening replacement copies that stretch. */
  lemma {:induction false} OpenFencesCopy(s: string, i: nat, k: nat)
    requires i <= k <= |s| && forall p :: i <= p < k ==> !MatchAt(s, p, "```")
    ensures StripOpenFences(s, i) == s[i..k] + StripOpenFences(s, k)
    decreases k - i
  {
    if i < k {
      OpenFenceAbsent(s, i);
      OpenFencesCopy(s, i + 1, k);
      assert s[i..k] == [s[i]] + s[i + 1..k];
    }
  }

  /** Where no fence starts, the opening replacement copies the character. */
  lemma OpenFenceAbsent(s: string, i: nat)
    requires i < |s| && !MatchAt(s, i, "```")
    ensures StripOpenFences(s, i) == [s[i]] + StripOpenFences(s, i + 1)
  {
  }

  /** At a line start, a fence with its optional `json` tag and the white space after them is dropped. */
  lemma OpenFenceDropped(s: string, i: nat, tagged: bool)
    requires i < |s| && LineStart(s, i) && MatchAt(s, i, "```")
    requires tagged <==> MatchAt(s, i + 3, "json")
    ensures StripOpenFences(s, i) == StripOpenFences(s, SpaceRunEnd(s, if tagged then i + 7 else i + 3))
  {
  }

  /** A text with no fence and no fence across its end before a line break. */
  lemma FenceFreeLine(body: string)
    requires !HasFence(body)
    ensures !HasFence(body + "\n")
  {
    var t := body + "\n";
    forall p | 0 <= p <= |t| ensures !MatchAt(t, p, "```") {
      if p + 3 <= |body| {
        assert t[p..p + 3] == body[p..p + 3];
        assert !MatchAt(body, p, "```");
      } else if p + 3 <= |t| {
        assert p + 2 == |body| && t[p + 2] == '\n';
        assert t[p..p + 3][2] == t[p + 2];
      }
    }
  }

  /** A fence-free body followed by a line break holds no fence starting before the break's end. */
  lemma FenceFreeStretch(s: string, b: nat, body: string)
    requires b + |body| < |s| && s[b..b + |body|] == body && s[b + |body|] == '\n' && !HasFence(body)
    ensures forall p :: b <= p < b + |body| + 1 ==> !MatchAt(s, p, "```")
  {
    forall p | b <= p < b + |body| + 1 ensures !MatchAt(s, p, "```") {
      if p + 3 <= b + |body| {
        var w, v := s[p..p + 3], body[p - b..p - b + 3];
        forall j | 0 <= j < 3 ensures w[j] == v[j] {
          assert body[p - b + j] == s[b..b + |body|][p - b + j];
        }
        assert w == v;
        assert !MatchAt(body, p - b, "```");
      } else if p + 3 <= |s| {
        assert s[p..p + 3][b + |body| - p] == '\n';
      }
    }
  }

  /** Where the parts of a fenced block lie: the body starts at `b` and the closing fence follows its line break. */
  lemma FencedLayout(tag: string, body: string)
    requires tag == "json" || tag == ""
    ensures var s := "```" + tag + "\n" + body + "\n```"; var b := |tag| + 4;
      && |s| == b + |body| + 4 && MatchAt(s, 0, "```") && (MatchAt(s, 3, "json") <==> tag == "json")
      && IsSpace(s[b - 1]) && s[b..b + |body|] == body && s[b + |body|] == '\n'
      && s[b..b + |body| + 1] == body + "\n" && MatchAt(s, b + |body| + 1, "```")
  {
    var s := "```" + tag + "\n" + body + "\n```";
    var b := |tag| + 4;
    var k := b + |body| + 1;
    assert s[..3] == "```" && s[b - 1] == '\n' && s[b..b + |body|] == body;
    assert s[b + |body|] == '\n' && s[k..] == "```";
    assert s[k..k + 3] == "```";
    if tag == "json" {
      assert s[3..7] == "json";
    } else {
      assert s[3..7][0] == s[3] == '\n';
    }
    var w, v := s[b..k], body + "\n";
    forall j | 0 <= j < |v| ensures w[j] == v[j] {
      if j < |body| {
        assert body[j] == s[b..b + |body|][j];
      }
    }
    assert w == v;
  }

  /**
   * The opening replacement over a text laid out as a fenced block: the
   * opening fence line and the closing fence are dropped, and the body and
   * its line break are kept.
   */
  lemma OpenFencesAround(s: string, b: nat, body: string)
    requires b == (if MatchAt(s, 3, "json") then 8 else 4) && |s| == b + |body| + 4 && MatchAt(s, 0, "```")
    requires IsSpace(s[b - 1]) && s[b..b + |body|] == body && s[b + |body|] == '\n' && MatchAt(s, b + |body| + 1, "```")
    requires body != [] && !IsSpace(body[0]) && !HasFence(body)
    ensures StripOpenFences(s, 0) == s[b..b + |body| + 1]
  {
    var k := b + |body| + 1;
    assert s[b] == body[0];
    assert SpaceRunEnd(s, b - 1) == b;
    OpenFenceDropped(s, 0, MatchAt(s, 3, "json"));
    FenceFreeStretch(s, b, body);
    OpenFencesCopy(s, b, k);
    assert LineStart(s, k) && !MatchAt(s, k + 3, "json");
    OpenFenceDropped(s, k, false);
    assert SpaceRunEnd(s, k + 3) == |s|;
  }

  /** The opening replacement leaves a fenced block's body and the line break after it. */
  lemma FencedOpenStripped(tag: string, body: string)
    requires tag == "json" || tag == ""
    requires body != [] && !IsSpace(body[0]) && !HasFence(body)
    ensures StripOpenFences("```" + tag + "\n" + body + "\n```", 0) == body + "\n"
  {
    FencedLayout(tag, body);
    OpenFencesAround("```" + tag + "\n" + body + "\n```", |tag| + 4, body);
  }

  /**
   * A reply that is one fenced block (a "```json" or "```" line, a body
   * with no fence that starts with a non-space character, and a closing
   * "```" line) cleans to the trimmed body.
   */
  lemma FencedReplyCleaned(tag: string, body: string)
    requires tag == "json" || tag == ""
    requires body != [] && !IsSpace(body[0]) && !HasFence(body)
    ensures CleanReply("```" + tag + "\n" + body + "\n```") == Trim(body)
  {
    var s := "```" + tag + "\n" + body + "\n```";
    var t := body + "\n";
    FencedOpenStripped(tag, body);
    FenceFreeLine(body);
    NoFenceUnchanged(t, 0);
    assert StripCloseFences(StripOpenFences(s, 0), 0) == t;
    TrimLineBreak(body);
  }

  /** A trailing line break does not change the trimmed text. */
  lemma TrimLineBreak(body: string)
    ensures Trim(body + "\n") == Trim(body)
  {
    var a, b := "", "\n";
    assert AllSpaces(a) && AllSpaces(b) by { assert b[0] == '\n'; }
    assert a + body == body;
    TrimPadded(a, body, b);
  }

  /** The first `{` of `s` at or after `i`. */
  function FirstOpenBrace(s: string, i: nat): (r: Option<nat>)
    requires i <= |s|
    ensures r.Some? ==> i <= r.value < |s| && s[r.value] == '{' && forall q :: i <= q < r.value ==> s[q] != '{'
    ensures r.None? ==> forall q :: i <= q < |s| ==> s[q] != '{'
    decreases |s| - i
  {
    if i == |s| then None
    else if s[i] == '{' then Some(i)
    else FirstOpenBrace(s, i + 1)
  }

  /** The last `}` of `s[lo..hi]`. */
  function LastCloseBrace(s: string, lo: nat, hi: nat): (r: Option<nat>)
    requires lo <= hi <= |s|
    ensures r.Some? ==> lo <= r.value < hi && s[r.value] == '}' && forall q :: r.value < q < hi ==> s[q] != '}'
    ensures r.None? ==> forall q :: lo <= q < hi ==> s[q] != '}'
    decreases hi - lo
  {
    if lo == hi then None
    else if s[hi - 1] == '}' then Some(hi - 1)
    else LastCloseBrace(s, lo, hi - 1)
  }

  /**
   * The match of /\{[\s\S]*\}/: from the first `{` to the last `}` after it,
   * the longest braced span the leftmost match can take.
   */
  function BracedSpan(s: string): (r: Option<string>)
    ensures r.Some? ==> |r.value| >= 2 && r.value[0] == '{' && r.value[|r.value| - 1] == '}'
    ensures r.None? ==> forall i, j :: 0 <= i < j < |s| && s[i] == '{' ==> s[j] != '}'
  {
    match FirstOpenBrace(s, 0)
    case None => None
    case Some(a) =>
      match LastCloseBrace(s, a + 1, |s|)
      case None => None
      case Some(b) => Some(s[a..b + 1])
  }

  /** The message `parseTestFiles` throws when nothing in the reply parses. */
  const NoJsonError := "QA Agent failed to produce valid JSON test files"

  /** The reply with its code fences removed and then trimmed. */
  function CleanReply(raw: string): string {
    Trim(StripCloseFences(StripOpenFences(raw, 0), 0))
  }

  /**
   * `parseTestFiles`: the cleaned reply as JSON, else the braced span inside
   * it as JSON (whose syntax error propagates), else NoJsonError.
   * `parse` stands for `JSON.parse`, with the SyntaxError message on failure.
   */
  function ParseTestFiles(raw: string, parse: string -> Result<Json>): (r: Result<Json>)
    ensures parse(CleanReply(raw)).Ok? ==> r == parse(CleanReply(raw))
    ensures parse(CleanReply(raw)).Err? && BracedSpan(CleanReply(raw)).None? ==> r == Err(NoJsonError)
    ensures r.Ok? ==> r == parse(CleanReply(raw))
                      || (BracedSpan(CleanReply(raw)).Some? && r == parse(BracedSpan(CleanReply(raw)).value))
  {
    var cleaned := CleanReply(raw);
    match parse(cleaned)
    case Ok(v) => Ok(v)
    case Err(_) =>
      match BracedSpan(cleaned)
      case None => Err(NoJsonError)
      case Some(span) => parse(span)
  }

  // ---------------------------------------------------------------------
  // Generating the test files

  /** What the language model call delivers: the raw reply, or the message it threw. */
  datatype QaReply = Replied(raw: string) | CallFailed(message: string)

  /** `runQA`'s result object; the test files are the parsed value as it stands. */
  datatype QaResult = Generated(testFiles: Json) | QaFailed(error: string)

  /** The TypeError `Object.keys(null)` throws. */
  const NullKeysError := "Cannot convert undefined or null to object"

  /**
   * The result `runQA` returns for a reply: any parsed value but null is
   * taken as the test files, whatever its shape.
   */
  function QaOutcome(reply: QaReply, parse: string -> Result<Json>): (r: QaResult)
    ensures reply.CallFailed? ==> r == QaFailed(reply.message)
    ensures reply.Replied? && ParseTestFiles(reply.raw, parse).Err? ==>
      r == QaFailed(ParseTestFiles(reply.raw, parse).error)
    ensures reply.Replied? && ParseTestFiles(reply.raw, parse) == Ok(JNull) ==> r == QaFailed(NullKeysError)
    ensures r.Generated? <==>
      reply.Replied? && ParseTestFiles(reply.raw, parse).Ok? && !ParseTestFiles(reply.raw, parse).value.JNull?
    ensures r.Generated? ==> ParseTestFiles(reply.raw, parse) == Ok(r.testFiles)
  {
    match reply
    case CallFailed(message) => QaFailed(message)
    case Replied(raw) =>
      match ParseTestFiles(raw, parse)
      case Err(e) => QaFailed(e)
      case Ok(v) => if v.JNull? then QaFailed(NullKeysError) else Generated(v)
  }

  /** The log lines `runQA` writes; the count and the names are `Object.keys` of the test files. */
  function QaLog(reply: QaReply, parse: string -> Result<Json>): (lines: seq<LogLine>)
    ensures |lines| == 2 && lines[0].stage == lines[1].stage == "qa"
    ensures lines[1].status == (if QaOutcome(reply, parse).Generated? then "success" else "error")
  {
    [LogLine("qa", "running", "Starting QA agent \U{2014} generating tests", JNull)]
    + match QaOutcome(reply, parse)
      case Generated(tests) =>
        var es := ObjectEntries(tests);
        [LogLine("qa", "success", "Generated " + NatToString(|es|) + " test file(s)",
                 JObj([("files", StrArray(KeysOf(es)))]))]
      case QaFailed(error) => [LogLine("qa", "error", "QA test generation failed: " + error, JNull)]
  }

  /** `runQA`: logs the start, then the verdict, and returns the result object. */
  method RunQA(store: Store, projectId: string, reply: QaReply, parse: string -> Result<Json>)
    returns (result: QaResult)
    requires store.Valid() && projectId in store.projects
    modifies store`logs, store`nextLogId
    ensures store.Valid()
    ensures result == QaOutcome(reply, parse)
    ensures store.logs == old(store.logs) + Entries(old(store.nextLogId), projectId, QaLog(reply, parse), store.clock)
    ensures store.nextLogId == old(store.nextLogId) + 2
  {
    var lines := QaLog(reply, parse);
    store.AddLogs(projectId, lines);
    result := QaOutcome(reply, parse);
  }

  // ---------------------------------------------------------------------
  // Laying out a workspace

  type Dir = map<string, string>

  /** `rel` is a file strictly below the directory `dir`. */
  predicate Under(rel: string, dir: string) {
    |rel| > |dir| + 1 && rel[..|dir| + 1] == dir + "/"
  }

  /** The directory `dir` exists in a workspace: some written file lies below it. */
  predicate HasDir(w: Dir, dir: string) {
    exists rel :: rel in w && Under(rel, dir)
  }

  /** `existsSync` of `rel` inside the workspace: a file or a directory there. */
  predicate Exists(w: Dir, rel: string) {
    rel in w || HasDir(w, rel)
  }

  /** Adding a file that is not below `dir` does not create `dir`. */
  lemma HasDirUpdate(w: Dir, rel: string, content: string, dir: string)
    requires !Under(rel, dir)
    ensures HasDir(w[rel := content], dir) <==> HasDir(w, dir)
  {
    if HasDir(w[rel := content], dir) {
      var r :| r in w[rel := content] && Under(r, dir);
      assert r in w;
    }
    if HasDir(w, dir) {
      var r :| r in w && Under(r, dir);
      assert r in w[rel := content];
    }
  }

  /** No entry after index `i` is for `key`. */
  predicate NoLaterEntry(files: Files, key: string, i: int) {
    forall j :: 0 <= j < |files| && i < j ==> files[j].0 != key
  }

  /** The value the last entry for `key` gives, as `Object.entries` writes them in order. */
  function FileValue(files: Files, key: string): (r: Option<string>)
    ensures r.None? <==> forall i :: 0 <= i < |files| ==> files[i].0 != key
    ensures r.Some? ==>
      (exists i :: 0 <= i < |files| && files[i] == (key, r.value) && NoLaterEntry(files, key, i))
  {
    if files == [] then None
    else if files[|files| - 1].0 == key then
      assert NoLaterEntry(files, key, |files| - 1);
      Some(files[|files| - 1].1)
    else
      var init := files[..|files| - 1];
      var r := FileValue(init, key);
      assert forall i :: 0 <= i < |init| ==> init[i] == files[i];
      assert r.Some? ==>
        (exists i :: 0 <= i < |files| && files[i] == (key, r.value) && NoLaterEntry(files, key, i)) by {
        if r.Some? {
          var i :| 0 <= i < |init| && init[i] == (key, r.value) && NoLaterEntry(init, key, i);
          assert NoLaterEntry(files, key, i);
        }
      }
      r
  }

  /** The workspace after writing `files` one by one over `base`. */
  function Materialize(base: Dir, files: Files): Dir
    decreases |files|
  {
    if files == [] then base
    else
      var last := files[|files| - 1];
      Materialize(base, files[..|files| - 1])[last.0 := last.1]
  }

  /** A written path holds its last written content; every other path keeps its content. */
  lemma {:induction false} MaterializeLookup(base: Dir, files: Files, key: string)
    ensures key in Materialize(base, files) <==> key in base || FileValue(files, key).Some?
    ensures FileValue(files, key).Some? ==> Materialize(base, files)[key] == FileValue(files, key).value
    ensures FileValue(files, key).None? && key in base ==> Materialize(base, files)[key] == base[key]
    decreases |files|
  {
    if files != [] {
      MaterializeLookup(base, files[..|files| - 1], key);
    }
  }

  /**
   * Test files are written after the generated files: on a shared path the
   * test file's content wins, and the other generated files are kept.
   */
  lemma TestFilesWin(base: Dir, generated: Files, tests: Files, key: string)
    ensures FileValue(tests, key).Some? ==>
      var w := Materialize(Materialize(base, generated), tests);
      key in w && w[key] == FileValue(tests, key).value
    ensures FileValue(tests, key).None? && FileValue(generated, key).Some? ==>
      var w := Materialize(Materialize(base, generated), tests);
      key in w && w[key] == FileValue(generated, key).value
  {
    MaterializeLookup(base, generated, key);
    MaterializeLookup(Materialize(base, generated), tests, key);
  }

  const TestsInit := "tests/__init__.py"
  const RootInit := "__init__.py"
  const RoutersInit := "routers/__init__.py"

  /** The error of `writeFile` for `rel` when its directory `dir` is missing or is a file. */
  function WriteError(w: Dir, workspacePath: string, dir: string, rel: string): (r: Option<string>)
    ensures r.None? <==> HasDir(w, dir)
  {
    if HasDir(w, dir) then None
    else if dir in w then Some("ENOTDIR: not a directory, open '" + workspacePath + "/" + rel + "'")
    else Some("ENOENT: no such file or directory, open '" + workspacePath + "/" + rel + "'")
  }

  /** A workspace's files, and the error that stopped the set-up, if any. */
  datatype Layout = Layout(files: Dir, error: Option<string>)

  /**
   * The package markers: `tests/__init__.py` and `__init__.py` when absent,
   * `routers/__init__.py` when a `routers` directory exists and it is absent,
   * all empty. Writing into a missing directory stops the set-up.
   */
  function AddMarkers(w: Dir, workspacePath: string): (r: Layout)
    ensures forall k :: k in w ==> k in r.files && r.files[k] == w[k]
    ensures forall k :: k in r.files && k !in w ==> r.files[k] == "" && (k == TestsInit || k == RootInit || k == RoutersInit)
    ensures r.error.None? ==> Exists(r.files, TestsInit) && Exists(r.files, RootInit)
    ensures r.error.None? && Exists(w, "routers") ==> Exists(r.files, RoutersInit)
    ensures RoutersInit in r.files && RoutersInit !in w ==> Exists(w, "routers")
    ensures r.error.Some? <==> (!Exists(w, TestsInit) && !HasDir(w, "tests"))
                               || (Exists(w, "routers") && !Exists(w, RoutersInit) && !HasDir(w, "routers"))
  {
    if !Exists(w, TestsInit) && !HasDir(w, "tests") then
      Layout(w, WriteError(w, workspacePath, "tests", TestsInit))
    else
      assert !Under(TestsInit, "routers") && !Under(RootInit, "routers") by {
        assert TestsInit[..8][0] == 't' && RootInit[..8][0] == '_';
      }
      var w1 := if Exists(w, TestsInit) then w else w[TestsInit := ""];
      var w2 := Marked(w);
      assert Exists(w2, "routers") <==> Exists(w, "routers") by {
        HasDirUpdate(w, TestsInit, "", "routers");
        HasDirUpdate(w1, RootInit, "", "routers");
      }
      assert Exists(w2, RoutersInit) <==> Exists(w, RoutersInit) by {
        HasDirUpdate(w, TestsInit, "", RoutersInit);
        HasDirUpdate(w1, RootInit, "", RoutersInit);
      }
      assert HasDir(w2, "routers") <==> HasDir(w, "routers") by {
        HasDirUpdate(w, TestsInit, "", "routers");
        HasDirUpdate(w1, RootInit, "", "routers");
      }
      assert Exists(w2, TestsInit) && Exists(w2, RootInit);
      MarkRouters(w2, workspacePath)
  }

  /** The two markers written unconditionally, each only when it is not there yet. */
  function Marked(w: Dir): Dir {
    var w1 := if Exists(w, TestsInit) then w else w[TestsInit := ""];
    if Exists(w1, RootInit) then w1 else w1[RootInit := ""]
  }

  /** The `routers/__init__.py` marker, written only when `routers` exists without one. */
  function MarkRouters(w: Dir, workspacePath: string): Layout {
    if Exists(w, "routers") && !Exists(w, RoutersInit) then
      match WriteError(w, workspacePath, "routers", RoutersInit)
      case Some(e) => Layout(w, Some(e))
      case None => Layout(w[RoutersInit := ""], None)
    else Layout(w, None)
  }

  /** The content of `workspacePath` before the run: what is there already, or nothing. */
  function BaseOf(dirs: map<string, Dir>, workspacePath: string): Dir {
    if workspacePath in dirs then dirs[workspacePath] else map[]
  }

  /** The workspaces on disk: workspace path -> (relative path -> content). */
  class Workspaces {
    var dirs: map<string, Dir>

    constructor ()
      ensures dirs == map[]
    {
      dirs := map[];
    }

    /** `mkdir(path, { recursive: true })`: an existing directory is kept as it is. */
    method MakeDir(path: string)
      modifies this
      ensures dirs == old(dirs)[path := BaseOf(old(dirs), path)]
    {
      dirs := dirs[path := BaseOf(dirs, path)];
    }

    /** `writeFile(join(path, rel), content)`. */
    method WriteFile(path: string, rel: string, content: string)
      requires path in dirs
      modifies this
      ensures dirs == old(dirs)[path := old(dirs)[path][rel := content]]
    {
      dirs := dirs[path := dirs[path][rel := content]];
    }

    /** `cleanupWorkspace`: never fails, and does nothing for an empty or missing path. */
    method CleanupWorkspace(path: string)
      modifies this
      ensures dirs == if path != "" && path in old(dirs) then old(dirs) - {path} else old(dirs)
      ensures path !in dirs || path == ""
    {
      if path != "" && path in dirs {
        dirs := dirs - {path};
      }
    }
  }

  // ---------------------------------------------------------------------
  // Running the tests

  /** How `pip install` ended: cleanly, or with an error carrying its captured streams. */
  datatype Install = Installed | InstallFailed(stdout: string, stderr: string, message: string)

  /** How `pytest` ended: exit status 0, or an error with its exit code (if any) and streams. */
  datatype PytestExit = Clean(stdout: string, stderr: string) | Exited(code: Option<int>, stdout: string, stderr: string)

  /**
   * What `executeTests` gets from outside: the path `join(WORKSPACES_DIR,
   * uuid())`, whether creating it failed, and how the two subprocesses ended.
   */
  datatype ExecEnv = ExecEnv(workspacePath: string, mkdirError: Option<string>, install: Install, pytest: PytestExit)

  /** The object `executeTests` returns; `exitCode` is absent on the early exits. */
  datatype TestResult = TestResult(counts: Counts, output: string, workspacePath: string, exitCode: Option<int>)

  const NoCounts := Counts(0, 0, 0, 0, 0)

  /**
   * The install error's text as the expression at qa.js line 131 computes it:
   * `+` binds tighter than `||`, so a non-empty stdout is taken alone.
   */
  function InstallOutput(stdout: string, stderr: string, message: string): (out: string)
    ensures stdout != "" ==> out == stdout
  {
    if stdout != "" then stdout else "\n" + stderr + "\n" + message
  }

  /** `testErr.code || 1`: a missing or zero code counts as 1. */
  function ExitCodeOf(h: PytestExit): (code: int)
    ensures h.Clean? ==> code == 0
    ensures h.Exited? ==> code != 0
    ensures h.Exited? && h.code.Some? && h.code.value != 0 ==> code == h.code.value
  {
    match h
    case Clean(_, _) => 0
    case Exited(code, _, _) => if code.Some? && code.value != 0 then code.value else 1
  }

  /** The captured text of the test run: stdout, a newline, stderr. */
  function PytestOutput(h: PytestExit): string {
    h.stdout + "\n" + h.stderr
  }

  /** The payload of the count log: passed, failed, errors and total. */
  function CountsData(c: Counts): Json {
    JObj([("passed", JNum(c.passed)), ("failed", JNum(c.failed)),
          ("errors", JNum(c.errors)), ("total", JNum(c.total))])
  }

  /** The message of the last log of a test run: passed/total and the percentage. */
  function CompletedMessage(c: Counts): string {
    "Tests completed: " + NatToString(c.passed) + "/" + NatToString(c.total)
    + " passed (" + NatToString(c.percentage) + "%)"
  }

  /** The verdict `executeTests` logs; its threshold is fixed at 80, not the setting. */
  function VerdictStatus(c: Counts): string {
    if c.percentage >= 80 then "success" else "warning"
  }

  /** The result and log lines of the part of a run after the set-up. */
  datatype Tail = Tail(result: TestResult, lines: seq<LogLine>)

  /** What a failed set-up yields: zero counts, the message, no exit code. */
  function SetupFailed(path: string, e: string): (t: Tail)
    ensures t.result.counts == NoCounts && t.result.exitCode.None? && t.result.workspacePath == path
    ensures |t.lines| == 1 && t.lines[0].status == "error"
  {
    Tail(TestResult(NoCounts, "Workspace setup failed: " + e, path, None),
         [LogLine("qa", "error", "Test execution failed: " + e, JNull)])
  }

  /**
   * The install and test subprocesses: an install failure is reported with
   * zero counts, a failing test run is not fatal and its output is still read.
   */
  function RunSubprocesses(path: string, install: Install, pytest: PytestExit): (t: Tail)
    ensures t.result.workspacePath == path
    ensures t.result.counts.total == t.result.counts.passed + t.result.counts.failed + t.result.counts.errors
    ensures t.result.counts.percentage <= 100
    ensures install.InstallFailed? ==>
      && t.result.counts == NoCounts && t.result.exitCode.None?
      && t.result.output == "Dependency installation failed:\n" + InstallOutput(install.stdout, install.stderr, install.message)
    ensures install.Installed? ==>
      && t.result.exitCode == Some(ExitCodeOf(pytest))
      && t.result.output == PytestOutput(pytest)
      && t.result.counts == ParseTestOutput(PytestOutput(pytest))
    ensures |t.lines| == (if install.Installed? then 3 else 2)
  {
    var installing := [LogLine("qa", "running", "Installing dependencies", JNull)];
    var t := if install.InstallFailed? then InstallFailure(path, install) else PytestRun(path, pytest);
    Tail(t.result, installing + t.lines)
  }

  /** The tail of a run whose `pip install` failed. */
  function InstallFailure(path: string, install: Install): (t: Tail)
    requires install.InstallFailed?
    ensures |t.lines| == 1
  {
    var output := InstallOutput(install.stdout, install.stderr, install.message);
    Tail(TestResult(NoCounts, "Dependency installation failed:\n" + output, path, None),
         [LogLine("qa", "error", "Dependency installation failed", JObj([("output", JStr(output))]))])
  }

  /** The tail of a run that reached pytest: its output, exit code and summary counts. */
  function PytestRun(path: string, pytest: PytestExit): (t: Tail)
    ensures |t.lines| == 2
  {
    var output := PytestOutput(pytest);
    var c := ParseTestOutput(output);
    Tail(TestResult(c, output, path, Some(ExitCodeOf(pytest))),
         [LogLine("qa", "running", "Executing pytest", JNull)]
         + [LogLine("qa", VerdictStatus(c), CompletedMessage(c), CountsData(c))])
  }

  /** The result, log lines and workspace content (None when the directory was never made) of one run. */
  datatype Execution = Execution(result: TestResult, lines: seq<LogLine>, workspace: Option<Dir>)

  /**
   * The TypeError `writeFile` throws for content that is not text, with
   * the description Node gives of the value it received.
   */
  function ContentError(v: Json): (e: string)
    requires !v.JStr?
    ensures |e| > |ContentErrorPrefix| && e[..|ContentErrorPrefix|] == ContentErrorPrefix
  {
    ContentErrorPrefix + Received(v)
  }

  const ContentErrorPrefix :=
    "The \"data\" argument must be of type string or an instance of Buffer, TypedArray, or DataView. Received "

  /** How many entries, from the front, have text values: the files written before a non-text one stops the loop. */
  function TextCount(es: seq<Member>): (n: nat)
    ensures n <= |es|
    ensures forall i :: 0 <= i < n ==> es[i].1.JStr?
    ensures n < |es| ==> !es[n].1.JStr?
  {
    if es == [] || !es[0].1.JStr? then 0 else 1 + TextCount(es[1..])
  }

  /** Entries whose values are all text, as path -> content pairs. */
  function Texts(es: seq<Member>): (files: Files)
    requires forall i :: 0 <= i < |es| ==> es[i].1.JStr?
    ensures |files| == |es|
    ensures forall i :: 0 <= i < |es| ==> es[i] == (files[i].0, JStr(files[i].1))
  {
    seq(|es|, i requires 0 <= i < |es| => (es[i].0, es[i].1.s))
  }

  /**
   * The workspace a successful `mkdir` leaves: the generated files, then
   * the test files' entries in order up to the first whose content is not
   * text, which stops the set-up; when all are written, the markers.
   * `Object.entries(null)` throws before any test file is written.
   */
  function LayoutOf(base: Dir, generated: Files, tests: Json, path: string): Layout {
    var first := Materialize(base, generated);
    if tests.JNull? then Layout(first, Some(NullKeysError))
    else
      var es := ObjectEntries(tests);
      var n := TextCount(es);
      var w := Materialize(first, Texts(es[..n]));
      if n < |es| then Layout(w, Some(ContentError(es[n].1))) else AddMarkers(w, path)
  }

  /** Test files all of whose contents are text are all written, and then the markers. */
  lemma TextTestsLaidOut(base: Dir, generated: Files, tests: Json, path: string)
    requires !tests.JNull?
    requires forall i :: 0 <= i < |ObjectEntries(tests)| ==> ObjectEntries(tests)[i].1.JStr?
    ensures LayoutOf(base, generated, tests, path)
            == AddMarkers(Materialize(Materialize(base, generated), Texts(ObjectEntries(tests))), path)
  {
    var es := ObjectEntries(tests);
    assert TextCount(es) == |es|;
    assert es[..|es|] == es;
  }

  /**
   * A test file whose content is not text stops the set-up with the
   * TypeError for the first such content: no later test file and no marker
   * is written.
   */
  lemma NonTextStopsSetup(base: Dir, generated: Files, tests: Json, path: string, k: nat)
    requires k < |ObjectEntries(tests)| && !ObjectEntries(tests)[k].1.JStr?
    ensures var layout := LayoutOf(base, generated, tests, path);
      && layout.error.Some?
      && layout.error.value[..|ContentErrorPrefix|] == ContentErrorPrefix
      && forall key :: key in layout.files ==>
           key in base || FileValue(generated, key).Some? || exists i :: 0 <= i < k && ObjectEntries(tests)[i].0 == key
  {
    var es := ObjectEntries(tests);
    assert !tests.JNull?;
    var n := TextCount(es);
    assert n <= k;
    var first := Materialize(base, generated);
    var layout := LayoutOf(base, generated, tests, path);
    assert layout == Layout(Materialize(first, Texts(es[..n])), Some(ContentError(es[n].1)));
    forall key | key in layout.files
      ensures key in base || FileValue(generated, key).Some? || exists i :: 0 <= i < k && es[i].0 == key
    {
      TextKeysWritten(first, es, n, key);
      MaterializeLookup(base, generated, key);
    }
  }

  /** A path in the workspace after writing the first `n` text entries was there before or is one of theirs. */
  lemma TextKeysWritten(first: Dir, es: seq<Member>, n: nat, key: string)
    requires n <= |es| && forall i :: 0 <= i < n ==> es[i].1.JStr?
    requires key in Materialize(first, Texts(es[..n]))
    ensures key in first || exists i :: 0 <= i < n && es[i].0 == key
  {
    var texts := Texts(es[..n]);
    MaterializeLookup(first, texts, key);
    if key !in first {
      var j :| 0 <= j < |texts| && texts[j] == (key, FileValue(texts, key).value) && NoLaterEntry(texts, key, j);
      assert es[..n][j] == (texts[j].0, JStr(texts[j].1));
      assert es[j].0 == key;
    }
  }

  /** The test files of a path -> content object listed in property order are written as they are. */
  lemma FilesLaidOut(base: Dir, generated: Files, files: Files, path: string)
    requires PropertyOrder(Keys(files))
    ensures LayoutOf(base, generated, FilesJson(files), path)
            == AddMarkers(Materialize(Materialize(base, generated), files), path)
  {
    FilesTexts(files);
    TextTestsLaidOut(base, generated, FilesJson(files), path);
  }

  /** The entries of such an object are its files, each content text. */
  lemma FilesTexts(files: Files)
    requires PropertyOrder(Keys(files))
    ensures var es := ObjectEntries(FilesJson(files));
      && (forall i :: 0 <= i < |es| ==> es[i].1.JStr?)
      && Texts(es) == files
  {
    StoredJson.FilesEntries(files);
    FilesJsonTexts(files);
  }

  lemma FilesJsonTexts(files: Files)
    ensures var ms := FilesJson(files).members;
      && (forall i :: 0 <= i < |ms| ==> ms[i].1.JStr?)
      && Texts(ms) == files
  {
    var ms := FilesJson(files).members;
    var t := Texts(ms);
    forall i | 0 <= i < |files| ensures t[i] == files[i] {
      assert ms[i] == (files[i].0, JStr(files[i].1));
    }
  }

  /** `executeTests` as a function of the workspace's prior content and the outcomes. */
  function Execute(base: Dir, generated: Files, tests: Json, env: ExecEnv): (x: Execution)
    ensures x.result.workspacePath == env.workspacePath
    ensures env.mkdirError.None? <==> x.workspace == Some(LayoutOf(base, generated, tests, env.workspacePath).files)
    ensures x.result.exitCode.Some? <==>
      env.mkdirError.None? && LayoutOf(base, generated, tests, env.workspacePath).error.None? && env.install.Installed?
    ensures 2 <= |x.lines| <= 4
  {
    var start := [LogLine("qa", "running", "Setting up workspace and running tests", JNull)];
    var path := env.workspacePath;
    var layout := LayoutOf(base, generated, tests, path);
    var setupError := if env.mkdirError.Some? then env.mkdirError else layout.error;
    var t := AfterSetup(path, setupError, env.install, env.pytest);
    Execution(t.result, start + t.lines, if env.mkdirError.Some? then None else Some(layout.files))
  }

  /** What follows the set-up: its failure, or the two subprocesses. */
  function AfterSetup(path: string, setupError: Option<string>, install: Install, pytest: PytestExit): Tail {
    if setupError.Some? then SetupFailed(path, setupError.value) else RunSubprocesses(path, install, pytest)
  }

  /** The loop of `executeTests` that writes each file of `files`, in order. */
  method WriteAll(ws: Workspaces, path: string, files: Files)
    requires path in ws.dirs
    modifies ws
    ensures ws.dirs == old(ws.dirs)[path := Materialize(old(ws.dirs)[path], files)]
  {
    ghost var base := ws.dirs[path];
    for i := 0 to |files|
      invariant ws.dirs == old(ws.dirs)[path := Materialize(base, files[..i])]
    {
      assert files[..i + 1][..i] == files[..i];
      ws.WriteFile(path, files[i].0, files[i].1);
    }
    assert files[..|files|] == files;
  }

  /** The marker step of `executeTests`, which stops at the first write that fails. */
  method WriteMarkers(ws: Workspaces, path: string) returns (setupError: Option<string>)
    requires path in ws.dirs
    modifies ws
    ensures var layout := AddMarkers(old(ws.dirs)[path], path);
      && setupError == layout.error
      && ws.dirs == old(ws.dirs)[path := layout.files]
  {
    var w := ws.dirs[path];
    if !Exists(w, TestsInit) && !HasDir(w, "tests") {
      setupError := WriteError(w, path, "tests", TestsInit);
      return;
    }
    WriteInitMarkers(ws, path);
    setupError := WriteRoutersMarker(ws, path);
  }

  /** Writes `tests/__init__.py` and `__init__.py` where they are missing. */
  method WriteInitMarkers(ws: Workspaces, path: string)
    requires path in ws.dirs
    modifies ws
    ensures ws.dirs == old(ws.dirs)[path := Marked(old(ws.dirs)[path])]
  {
    if !Exists(ws.dirs[path], TestsInit) {
      ws.WriteFile(path, TestsInit, "");
    }
    if !Exists(ws.dirs[path], RootInit) {
      ws.WriteFile(path, RootInit, "");
    }
  }

  /** Writes `routers/__init__.py` when `routers` exists without one. */
  method WriteRoutersMarker(ws: Workspaces, path: string) returns (setupError: Option<string>)
    requires path in ws.dirs
    modifies ws
    ensures var layout := MarkRouters(old(ws.dirs)[path], path);
      && setupError == layout.error
      && ws.dirs == old(ws.dirs)[path := layout.files]
  {
    var w := ws.dirs[path];
    setupError := None;
    if Exists(w, "routers") && !Exists(w, RoutersInit) {
      setupError := WriteError(w, path, "routers", RoutersInit);
      if setupError.None? {
        ws.WriteFile(path, RoutersInit, "");
      }
    }
  }

  /** A second write to the same workspace replaces the first. */
  lemma UpdateTwice(dirs: map<string, Dir>, path: string, a: Dir, b: Dir)
    ensures dirs[path := a][path := b] == dirs[path := b]
  {
  }

  /**
   * The loop of `executeTests` over the test files' entries: writes each
   * text content in order and stops at the first content that is not text.
   */
  method WriteTests(ws: Workspaces, path: string, es: seq<Member>) returns (setupError: Option<string>)
    requires path in ws.dirs
    modifies ws
    ensures var n := TextCount(es);
      && ws.dirs == old(ws.dirs)[path := Materialize(old(ws.dirs)[path], Texts(es[..n]))]
      && setupError == if n < |es| then Some(ContentError(es[n].1)) else None
  {
    ghost var base := ws.dirs[path];
    var i := 0;
    while i < |es| && es[i].1.JStr?
      invariant i <= |es|
      invariant forall j :: 0 <= j < i ==> es[j].1.JStr?
      invariant ws.dirs == old(ws.dirs)[path := Materialize(base, Texts(es[..i]))]
    {
      ghost var next := Texts(es[..i + 1]);
      assert next[..i] == Texts(es[..i]);
      ws.WriteFile(path, es[i].0, es[i].1.s);
      i := i + 1;
    }
    assert i == TextCount(es);
    setupError := if i < |es| then Some(ContentError(es[i].1)) else None;
  }

  /** The set-up half of `executeTests`: make the directory, write every file, add the markers. */
  method LayOut(ws: Workspaces, path: string, generated: Files, tests: Json) returns (setupError: Option<string>)
    modifies ws
    ensures var layout := LayoutOf(BaseOf(old(ws.dirs), path), generated, tests, path);
      && setupError == layout.error
      && ws.dirs == old(ws.dirs)[path := layout.files]
  {
    ghost var base := BaseOf(ws.dirs, path);
    ws.MakeDir(path);
    assert ws.dirs == old(ws.dirs)[path := base];
    WriteAll(ws, path, generated);
    ghost var first := Materialize(base, generated);
    UpdateTwice(old(ws.dirs), path, base, first);
    assert ws.dirs == old(ws.dirs)[path := first];
    if tests.JNull? {
      setupError := Some(NullKeysError);
      return;
    }
    var entries := ObjectEntries(tests);
    setupError := WriteTests(ws, path, entries);
    ghost var written := Materialize(first, Texts(entries[..TextCount(entries)]));
    UpdateTwice(old(ws.dirs), path, first, written);
    assert ws.dirs == old(ws.dirs)[path := written];
    if setupError.None? {
      setupError := WriteMarkers(ws, path);
      UpdateTwice(old(ws.dirs), path, written, AddMarkers(written, path).files);
    }
  }

  /** The second half of `executeTests`: install, then run pytest and read its summary. */
  method RunTestProcesses(store: Store, projectId: string, path: string, install: Install, pytest: PytestExit)
    returns (result: TestResult, ghost lines: seq<LogLine>)
    requires store.Valid() && projectId in store.projects
    modifies store`logs, store`nextLogId
    ensures store.Valid()
    ensures result == RunSubprocesses(path, install, pytest).result
    ensures lines == RunSubprocesses(path, install, pytest).lines
    ensures store.logs == old(store.logs) + Entries(old(store.nextLogId), projectId, lines, store.clock)
    ensures store.nextLogId == old(store.nextLogId) + |lines|
  {
    ghost var first := store.nextLogId;
    var installing := [LogLine("qa", "running", "Installing dependencies", JNull)];
    store.AddLogs(projectId, installing);
    ghost var rest;
    if install.InstallFailed? {
      result, rest := ReportInstallFailure(store, projectId, path, install);
    } else {
      result, rest := RunPytest(store, projectId, path, pytest);
    }
    lines := installing + rest;
    EntriesAfter(old(store.logs), first, projectId, installing, rest, store.clock);
  }

  /** Logs the failure of `pip install`. */
  method ReportInstallFailure(store: Store, projectId: string, path: string, install: Install)
    returns (result: TestResult, ghost lines: seq<LogLine>)
    requires store.Valid() && projectId in store.projects && install.InstallFailed?
    modifies store`logs, store`nextLogId
    ensures store.Valid()
    ensures result == InstallFailure(path, install).result
    ensures lines == InstallFailure(path, install).lines
    ensures store.logs == old(store.logs) + Entries(old(store.nextLogId), projectId, lines, store.clock)
    ensures store.nextLogId == old(store.nextLogId) + |lines|
  {
    var output := InstallOutput(install.stdout, install.stderr, install.message);
    var line := LogLine("qa", "error", "Dependency installation failed", JObj([("output", JStr(output))]));
    store.AddLog(projectId, line.stage, line.status, line.message, line.data);
    lines := [line];
    result := TestResult(NoCounts, "Dependency installation failed:\n" + output, path, None);
  }

  /** Runs pytest, reads its summary and logs the verdict. */
  method RunPytest(store: Store, projectId: string, path: string, pytest: PytestExit)
    returns (result: TestResult, ghost lines: seq<LogLine>)
    requires store.Valid() && projectId in store.projects
    modifies store`logs, store`nextLogId
    ensures store.Valid()
    ensures result == PytestRun(path, pytest).result
    ensures lines == PytestRun(path, pytest).lines
    ensures store.logs == old(store.logs) + Entries(old(store.nextLogId), projectId, lines, store.clock)
    ensures store.nextLogId == old(store.nextLogId) + |lines|
  {
    ghost var first := store.nextLogId;
    var running := [LogLine("qa", "running", "Executing pytest", JNull)];
    store.AddLogs(projectId, running);
    var testOutput := PytestOutput(pytest);
    var exitCode := ExitCodeOf(pytest);
    var counts := ParseTestOutput(testOutput);
    result := TestResult(counts, testOutput, path, Some(exitCode));
    var verdict := [LogLine("qa", VerdictStatus(counts), CompletedMessage(counts), CountsData(counts))];
    store.AddLogs(projectId, verdict);
    lines := running + verdict;
    EntriesAfter(old(store.logs), first, projectId, running, verdict, store.clock);
  }

  /** `executeTests`: lays out the workspace, runs the two subprocesses and reads the summary. */
  method ExecuteTests(store: Store, ws: Workspaces, projectId: string, generated: Files, tests: Json, env: ExecEnv)
    returns (result: TestResult, ghost lines: seq<LogLine>)
    requires store.Valid() && projectId in store.projects
    modifies store`logs, store`nextLogId, ws
    ensures store.Valid()
    ensures var x := Execute(BaseOf(old(ws.dirs), env.workspacePath), generated, tests, env);
      && result == x.result
      && lines == x.lines
      && ws.dirs == if x.workspace.Some? then old(ws.dirs)[env.workspacePath := x.workspace.value] else old(ws.dirs)
    ensures store.logs == old(store.logs) + Entries(old(store.nextLogId), projectId, lines, store.clock)
    ensures store.nextLogId == old(store.nextLogId) + |lines|
  {
    ghost var first := store.nextLogId;
    var path := env.workspacePath;
    var start := [LogLine("qa", "running", "Setting up workspace and running tests", JNull)];
    store.AddLogs(projectId, start);
    var setupError := env.mkdirError;
    if setupError.None? {
      setupError := LayOut(ws, path, generated, tests);
    }
    ghost var rest;
    result, rest := RunAfterSetup(store, projectId, path, setupError, env.install, env.pytest);
    EntriesAfter(old(store.logs), first, projectId, start, rest, store.clock);
    lines := start + rest;
  }

  /** The part of `executeTests` after the set-up: the failure report, or the subprocesses. */
  method RunAfterSetup(store: Store, projectId: string, path: string, setupError: Option<string>,
                       install: Install, pytest: PytestExit)
    returns (result: TestResult, ghost lines: seq<LogLine>)
    requires store.Valid() && projectId in store.projects
    modifies store`logs, store`nextLogId
    ensures store.Valid()
    ensures result == AfterSetup(path, setupError, install, pytest).result
    ensures lines == AfterSetup(path, setupError, install, pytest).lines
    ensures store.logs == old(store.logs) + Entries(old(store.nextLogId), projectId, lines, store.clock)
    ensures store.nextLogId == old(store.nextLogId) + |lines|
  {
    if setupError.Some? {
      result, lines := ReportSetupFailure(store, projectId, path, setupError.value);
    } else {
      result, lines := RunTestProcesses(store, projectId, path, install, pytest);
    }
  }

  /** The catch of `executeTests` when the workspace could not be set up. */
  method ReportSetupFailure(store: Store, projectId: string, path: string, e: string)
    returns (result: TestResult, ghost lines: seq<LogLine>)
    requires store.Valid() && projectId in store.projects
    modifies store`logs, store`nextLogId
    ensures store.Valid()
    ensures result == SetupFailed(path, e).result
    ensures lines == SetupFailed(path, e).lines
    ensures store.logs == old(store.logs) + Entries(old(store.nextLogId), projectId, lines, store.clock)
    ensures store.nextLogId == old(store.nextLogId) + |lines|
  {
    var failed := [LogLine("qa", "error", "Test execution failed: " + e, JNull)];
    store.AddLogs(projectId, failed);
    lines := failed;
    result := TestResult(NoCounts, "Workspace setup failed: " + e, path, None);
  }
}
