/**
 * The JavaScript string operations the backend and the dashboard rely on:
 * character classes of regular expressions, `trim`, `toLowerCase` on ASCII,
 * `substring(0, n)`, number formatting in template literals and `parseInt(s, 10)`.
 */
module Strings {
  import opened Wrappers

  /** `\d` in a JavaScript regular expression. */
  predicate IsDigit(c: char) {
    '0' <= c <= '9'
  }

  /** `\s` in a JavaScript regular expression; also the set `trim` removes. */
  predicate IsSpace(c: char) {
    c == '\t' || c == '\n' || c == '\U{000B}' || c == '\U{000C}' || c == '\r' || c == ' '
    || c == '\U{00A0}' || c == '\U{1680}' || ('\U{2000}' <= c <= '\U{200A}')
    || c == '\U{2028}' || c == '\U{2029}' || c == '\U{202F}' || c == '\U{205F}'
    || c == '\U{3000}' || c == '\U{FEFF}'
  }

  /** Where `^` and `$` match in a multiline JavaScript regular expression. */
  predicate IsLineTerminator(c: char) {
    c == '\n' || c == '\r' || c == '\U{2028}' || c == '\U{2029}'
  }

  predicate IsLowerAlnum(c: char) {
    ('a' <= c <= 'z') || IsDigit(c)
  }

  predicate IsAsciiLetter(c: char) {
    ('a' <= c <= 'z') || ('A' <= c <= 'Z')
  }

  predicate AllDigits(s: string) {
    forall i :: 0 <= i < |s| ==> IsDigit(s[i])
  }

  predicate AllSpaces(s: string) {
    forall i :: 0 <= i < |s| ==> IsSpace(s[i])
  }

  /** `s.substring(0, n)`. */
  function Prefix(s: string, n: nat): (r: string)
    ensures |r| == if n < |s| then n else |s|
    ensures r <= s
  {
    if n < |s| then s[..n] else s
  }

  /** `s.trimStart()`: drops the leading whitespace. */
  function TrimStart(s: string): (r: string)
    ensures |r| <= |s| && r == s[|s| - |r|..]
    ensures forall i :: 0 <= i < |s| - |r| ==> IsSpace(s[i])
    ensures r != [] ==> !IsSpace(r[0])
  {
    if s != [] && IsSpace(s[0]) then TrimStart(s[1..]) else s
  }

  /** `s.trimEnd()`: drops the trailing whitespace. */
  function TrimEnd(s: string): (r: string)
    ensures |r| <= |s| && r == s[..|r|]
    ensures forall i :: |r| <= i < |s| ==> IsSpace(s[i])
    ensures r != [] ==> !IsSpace(r[|r| - 1])
  {
    if s != [] && IsSpace(s[|s| - 1]) then TrimEnd(s[..|s| - 1]) else s
  }

  /** `s.trim()`: the longest slice of `s` that neither starts nor ends with whitespace. */
  function Trim(s: string): (r: string)
    ensures |r| <= |s|
    ensures r != [] ==> !IsSpace(r[0]) && !IsSpace(r[|r| - 1])
    ensures (forall i :: 0 <= i < |s| ==> IsSpace(s[i])) <==> r == []
    ensures s != [] && !IsSpace(s[0]) && !IsSpace(s[|s| - 1]) ==> r == s
  {
    TrimEdges(s);
    TrimAllSpaces(s);
    TrimUnchanged(s);
    TrimEnd(TrimStart(s))
  }

  lemma TrimUnchanged(s: string)
    ensures s != [] && !IsSpace(s[0]) && !IsSpace(s[|s| - 1]) ==> TrimEnd(TrimStart(s)) == s
  {
    if s != [] && !IsSpace(s[0]) && !IsSpace(s[|s| - 1]) {
      assert TrimStart(s) == s;
    }
  }

  lemma TrimEdges(s: string)
    ensures var r := TrimEnd(TrimStart(s));
      r != [] ==> !IsSpace(r[0]) && !IsSpace(r[|r| - 1])
  {
    var t := TrimStart(s);
    var r := TrimEnd(t);
    assert r != [] ==> r[0] == t[0];
  }

  lemma TrimAllSpaces(s: string)
    ensures (forall i :: 0 <= i < |s| ==> IsSpace(s[i])) <==> TrimEnd(TrimStart(s)) == []
  {
    var t := TrimStart(s);
    var r := TrimEnd(t);
    assert t != [] ==> !IsSpace(s[|s| - |t|]) by {
      if t != [] { assert t[0] == s[|s| - |t|]; }
    }
    assert t != [] ==> r != [] by {
      if t != [] { assert !IsSpace(t[0]); }
    }
    assert t == [] ==> forall i :: 0 <= i < |s| ==> IsSpace(s[i]);
  }

  /** Leading whitespace is what `trimStart` removes first. */
  lemma {:induction false} TrimStartPadded(a: string, x: string)
    requires AllSpaces(a)
    ensures TrimStart(a + x) == TrimStart(x)
  {
    if a != [] {
      assert (a + x)[1..] == a[1..] + x;
      TrimStartPadded(a[1..], x);
    } else {
      assert a + x == x;
    }
  }

  /** Trailing whitespace is what `trimEnd` removes first. */
  lemma {:induction false} TrimEndPadded(x: string, b: string)
    requires AllSpaces(b)
    ensures TrimEnd(x + b) == TrimEnd(x)
  {
    if b != [] {
      assert (x + b)[..|x + b| - 1] == x + b[..|b| - 1];
      TrimEndPadded(x, b[..|b| - 1]);
    } else {
      assert x + b == x;
    }
  }

  /** Text after a non-space character survives `trimStart` whole. */
  lemma {:induction false} TrimStartKeepsTail(s: string, b: string)
    requires !AllSpaces(s)
    ensures TrimStart(s + b) == TrimStart(s) + b
  {
    assert (s + b)[0] == s[0];
    if IsSpace(s[0]) {
      assert (s + b)[1..] == s[1..] + b;
      assert !AllSpaces(s[1..]) by {
        var k :| 0 <= k < |s| && !IsSpace(s[k]);
        assert s[1..][k - 1] == s[k];
      }
      TrimStartKeepsTail(s[1..], b);
    }
  }

  /** Whitespace added around a text does not change what `trim` keeps. */
  lemma TrimPadded(a: string, s: string, b: string)
    requires AllSpaces(a) && AllSpaces(b)
    ensures Trim(a + s + b) == Trim(s)
  {
    if AllSpaces(s) {
      assert AllSpaces(a + s + b) by {
        forall i | 0 <= i < |a + s + b| ensures IsSpace((a + s + b)[i]) {
          if i < |a| { assert (a + s + b)[i] == a[i]; }
          else if i < |a| + |s| { assert (a + s + b)[i] == s[i - |a|]; }
          else { assert (a + s + b)[i] == b[i - |a| - |s|]; }
        }
      }
    } else {
      assert a + s + b == a + (s + b);
      TrimStartPadded(a, s + b);
      TrimStartKeepsTail(s, b);
      TrimEndPadded(TrimStart(s), b);
    }
  }

  /** `toLowerCase` on one character, for the ASCII letters. */
  function ToLowerAscii(c: char): (r: char)
    ensures 'A' <= c <= 'Z' ==> 'a' <= r <= 'z'
    ensures !('A' <= c <= 'Z') ==> r == c
  {
    if 'A' <= c <= 'Z' then (c as int + 32) as char else c
  }

  function ToLower(s: string): (r: string)
    ensures |r| == |s|
    ensures forall i :: 0 <= i < |s| ==> r[i] == ToLowerAscii(s[i])
  {
    if s == [] then [] else [ToLowerAscii(s[0])] + ToLower(s[1..])
  }

  /** How many UTF-16 code units JavaScript counts for a character. */
  function Utf16Units(c: char): nat {
    if c as int >= 0x1_0000 then 2 else 1
  }

  /** `s.length` in JavaScript. */
  function Utf16Length(s: string): nat {
    if s == [] then 0 else Utf16Units(s[0]) + Utf16Length(s[1..])
  }

  /**
   * `s.substring(0, n)` on UTF-16 code units, up to the last whole
   * character: a character whose two units straddle unit `n` is left out.
   */
  function UnitsPrefix(s: string, n: nat): (r: string)
    ensures r <= s && Utf16Length(r) <= n
    ensures r != s ==> Utf16Length(r) + Utf16Units(s[|r|]) > n
  {
    if s == [] || Utf16Units(s[0]) > n then []
    else
      var t := UnitsPrefix(s[1..], n - Utf16Units(s[0]));
      assert s[1..][|t|..] == s[|t| + 1..];
      [s[0]] + t
  }

  /** A prefix longer than the whole string is the whole string. */
  lemma {:induction false} UnitsPrefixWhole(s: string, n: nat)
    requires Utf16Length(s) <= n
    ensures UnitsPrefix(s, n) == s
  {
    if s != [] {
      UnitsPrefixWhole(s[1..], n - Utf16Units(s[0]));
    }
  }

  /** The ASCII character classes the name sanitisers keep. */
  datatype CharClass = LowerAlnum | LowerAlnumDash

  predicate InClass(c: char, cls: CharClass) {
    IsLowerAlnum(c) || (cls == LowerAlnumDash && c == '-')
  }

  /**
   * `s.replace(/[^<class>]/g, '-')`: the expression has no `u` flag, so it
   * works on code units and a character outside the Basic Multilingual
   * Plane becomes two dashes.
   */
  function ReplaceOutside(s: string, cls: CharClass): (r: string)
    ensures |r| == Utf16Length(s)
    ensures forall i :: 0 <= i < |r| ==> InClass(r[i], cls) || r[i] == '-'
  {
    if s == [] then ""
    else
      var head := if InClass(s[0], cls) then [s[0]] else if Utf16Units(s[0]) == 2 then "--" else "-";
      head + ReplaceOutside(s[1..], cls)
  }

  /** `s.toLowerCase().replace(/[^<class>]/g, '-').substring(0, max)`. */
  function Slugify(s: string, cls: CharClass, max: nat): string {
    Prefix(ReplaceOutside(ToLower(s), cls), max)
  }

  /** Lower-casing ASCII letters keeps the JavaScript length. */
  lemma {:induction false} ToLowerLength(s: string)
    ensures Utf16Length(ToLower(s)) == Utf16Length(s)
  {
    if s != [] {
      assert ToLower(s)[1..] == ToLower(s[1..]);
      ToLowerLength(s[1..]);
    }
  }

  /** A slug is `max` long, or the whole name when that is shorter, and holds only class characters and dashes. */
  lemma SlugifyShape(s: string, cls: CharClass, max: nat)
    ensures |Slugify(s, cls, max)| == if Utf16Length(s) < max then Utf16Length(s) else max
    ensures forall i :: 0 <= i < |Slugify(s, cls, max)| ==>
      InClass(Slugify(s, cls, max)[i], cls) || Slugify(s, cls, max)[i] == '-'
  {
    ToLowerLength(s);
  }

  /** A text made of class characters and dashes comes through the replacement unchanged. */
  lemma {:induction false} ReplaceOutsideKeeps(s: string, cls: CharClass)
    requires forall i :: 0 <= i < |s| ==> InClass(s[i], cls) || s[i] == '-'
    ensures ReplaceOutside(s, cls) == s
  {
    if s != [] {
      ReplaceOutsideKeeps(s[1..], cls);
    }
  }

  /** Sanitising a sanitised name changes nothing. */
  lemma SlugifyIdempotent(s: string, cls: CharClass, max: nat)
    ensures Slugify(Slugify(s, cls, max), cls, max) == Slugify(s, cls, max)
  {
    var t := Slugify(s, cls, max);
    SlugifyShape(s, cls, max);
    assert ToLower(t) == t;
    ReplaceOutsideKeeps(t, cls);
  }

  function DigitChar(d: nat): (c: char)
    requires d < 10
    ensures IsDigit(c) && c as int - '0' as int == d
  {
    ('0' as int + d) as char
  }

  /** The value of a string of decimal digits, most significant first. */
  function DigitsValue(s: string): nat
    requires AllDigits(s)
  {
    if s == [] then 0 else 10 * DigitsValue(s[..|s| - 1]) + (s[|s| - 1] as int - '0' as int)
  }

  /** A natural number in a template literal: its decimal digits, without leading zeros. */
  function NatToString(n: nat): (r: string)
    ensures r != [] && AllDigits(r)
    ensures DigitsValue(r) == n
    ensures r[0] == '0' ==> n == 0
  {
    if n < 10 then [DigitChar(n)]
    else
      var r := NatToString(n / 10) + [DigitChar(n % 10)];
      assert r[..|r| - 1] == NatToString(n / 10);
      r
  }

  /** Digits without a leading zero are the text of their own value. */
  lemma {:induction false} CanonicalDigitsText(s: string)
    requires s != [] && AllDigits(s) && (s[0] != '0' || |s| == 1)
    ensures NatToString(DigitsValue(s)) == s
    decreases |s|
  {
    if |s| > 1 {
      var init := s[..|s| - 1];
      assert AllDigits(init) by {
        forall i | 0 <= i < |init| ensures IsDigit(init[i]) { assert init[i] == s[i]; }
      }
      assert init[0] == s[0];
      CanonicalDigitsText(init);
      var v := DigitsValue(init);
      assert v != 0;
      assert NatToString(10 * v + (s[|s| - 1] as int - '0' as int)) == init + [s[|s| - 1]];
      assert s == init + [s[|s| - 1]];
    }
  }

  /** The text of a number has no leading zero. */
  lemma NatToStringCanonical(n: nat)
    ensures NatToString(n)[0] != '0' || |NatToString(n)| == 1
  {
  }

  /** An integer in a template literal. */
  function IntToString(i: int): (r: string)
    ensures r != []
  {
    if i < 0 then "-" + NatToString(-i) else NatToString(i)
  }

  /** The length of the run of digits that starts `s`. */
  function DigitPrefixLength(s: string): (n: nat)
    ensures n <= |s| && AllDigits(s[..n])
    ensures n < |s| ==> !IsDigit(s[n])
  {
    if s != [] && IsDigit(s[0]) then
      var n := 1 + DigitPrefixLength(s[1..]);
      assert forall i :: 1 <= i < n ==> s[..n][i] == s[1..][..n - 1][i - 1];
      n
    else 0
  }

  /**
   * `parseInt(s, 10)`: leading whitespace, an optional sign, then the longest
   * run of digits; None stands for NaN, the result when there is no digit.
   */
  function ParseInt(s: string): Option<int> {
    var t := TrimStart(s);
    var negative := t != [] && t[0] == '-';
    var body := if t != [] && (t[0] == '-' || t[0] == '+') then t[1..] else t;
    var n := DigitPrefixLength(body);
    if n == 0 then None
    else
      var v: int := DigitsValue(body[..n]);
      Some(if negative then -v else v)
  }

  /** Reading back a formatted number gives the number. */
  lemma {:induction false} ParseIntRoundTrip(n: nat)
    ensures ParseInt(NatToString(n)) == Some(n)
  {
    var s := NatToString(n);
    assert TrimStart(s) == s;
    assert DigitPrefixLength(s) == |s| by { DigitRunIsWhole(s); }
    assert s[..|s|] == s;
  }

  lemma {:induction false} DigitRunIsWhole(s: string)
    requires AllDigits(s)
    ensures DigitPrefixLength(s) == |s|
  {
    if s != [] {
      assert AllDigits(s[1..]) by {
        forall i | 0 <= i < |s[1..]| ensures IsDigit(s[1..][i]) { assert s[1..][i] == s[i + 1]; }
      }
      DigitRunIsWhole(s[1..]);
    }
  }

  /** `parseInt` of a negative number's text gives the number back too. */
  lemma ParseIntRoundTripInt(i: int)
    ensures ParseInt(IntToString(i)) == Some(i)
  {
    if i < 0 {
      var d := NatToString(-i);
      var s := "-" + d;
      assert s[0] == '-' && !IsSpace(s[0]);
      assert TrimStart(s) == s;
      assert s[1..] == d;
      DigitRunIsWhole(d);
      assert d[..|d|] == d;
    } else {
      ParseIntRoundTrip(i);
    }
  }
}
