/** String helpers with the meaning Python gives them: `in` on strings (substring),
    `startswith`, `str.join`, `str.split(c)`, `str.strip()`, `str.isdigit()` on ASCII digits,
    `int()` of a digit string, `str(n)` and `f"{n:02}"`, and string ordering. */
module Text {
  import opened Common

  // ---------------------------------------------------------------- prefixes, infixes

  /** `s.startswith(p)` */
  predicate StartsWith(s: string, p: string) {
    |p| <= |s| && s[..|p|] == p
  }

  /** `sub in s` */
  predicate Contains(s: string, sub: string)
    decreases |s|
  {
    StartsWith(s, sub) || (|s| > 0 && Contains(s[1..], sub))
  }

  /** `sub` occurs in `s` starting at position `i`. */
  predicate OccursAt(s: string, sub: string, i: int) {
    0 <= i && i + |sub| <= |s| && s[i..i + |sub|] == sub
  }

  lemma {:induction false} ContainsAt(s: string, sub: string, i: nat)
    requires OccursAt(s, sub, i)
    ensures Contains(s, sub)
    decreases i
  {
    if i == 0 {
      assert StartsWith(s, sub);
    } else {
      assert s[1..][i - 1..i - 1 + |sub|] == s[i..i + |sub|];
      ContainsAt(s[1..], sub, i - 1);
    }
  }

  lemma {:induction false} ContainsWitness(s: string, sub: string) returns (i: nat)
    requires Contains(s, sub)
    ensures OccursAt(s, sub, i)
    decreases |s|
  {
    if StartsWith(s, sub) {
      i := 0;
    } else {
      var j := ContainsWitness(s[1..], sub);
      assert s[1..][j..j + |sub|] == s[j + 1..j + 1 + |sub|];
      i := j + 1;
    }
  }

  /** Python's `in` on strings: `sub in s` holds exactly when `sub` occurs at some position. */
  lemma ContainsIff(s: string, sub: string)
    ensures Contains(s, sub) <==> exists i :: OccursAt(s, sub, i)
  {
    if Contains(s, sub) {
      var i := ContainsWitness(s, sub);
    }
    if exists i :: OccursAt(s, sub, i) {
      var i :| OccursAt(s, sub, i);
      ContainsAt(s, sub, i);
    }
  }

  /** A string contains each of its suffixes. */
  lemma ContainsSuffix(s: string, suffix: string)
    requires |suffix| <= |s| && s[|s| - |suffix|..] == suffix
    ensures Contains(s, suffix)
  {
    ContainsAt(s, suffix, |s| - |suffix|);
  }

  /** A string that contains `sub` contains it wherever it is embedded. */
  lemma ContainsInContext(a: string, s: string, b: string, sub: string)
    requires Contains(s, sub)
    ensures Contains(a + s + b, sub)
  {
    var i := ContainsWitness(s, sub);
    assert (a + s + b)[|a| + i..|a| + i + |sub|] == s[i..i + |sub|];
    ContainsAt(a + s + b, sub, |a| + i);
  }

  /** A string that contains `sub` keeps containing it behind any prefix. */
  lemma ContainsInSuffix(a: string, s: string, sub: string)
    requires Contains(s, sub)
    ensures Contains(a + s, sub)
  {
    ContainsInContext(a, s, "", sub);
    assert a + s + "" == a + s;
  }

  lemma ContainsSelf(s: string)
    ensures Contains(s, s)
  {
    assert StartsWith(s, s);
  }

  /** `in` on strings is transitive. */
  lemma ContainsTransitive(a: string, b: string, c: string)
    requires Contains(a, b) && Contains(b, c)
    ensures Contains(a, c)
  {
    var i := ContainsWitness(a, b);
    var j := ContainsWitness(b, c);
    forall k | 0 <= k < |c|
      ensures a[i + j + k] == c[k]
    {
      assert b[j..j + |c|][k] == c[k];
      assert a[i..i + |b|][j + k] == b[j + k];
    }
    assert a[i + j..i + j + |c|] == c;
    ContainsAt(a, c, i + j);
  }

  // ---------------------------------------------------------------- join and split

  /** `sep.join(parts)` */
  function Join(sep: string, parts: seq<string>): string
    decreases |parts|
  {
    if |parts| == 0 then ""
    else if |parts| == 1 then parts[0]
    else parts[0] + sep + Join(sep, parts[1..])
  }

  /** Every joined part appears in the joined text. */
  lemma {:induction false} JoinContainsParts(sep: string, parts: seq<string>, k: nat)
    requires k < |parts|
    ensures Contains(Join(sep, parts), parts[k])
    decreases |parts|
  {
    if |parts| == 1 {
      ContainsSelf(parts[0]);
    } else if k == 0 {
      ContainsSelf(parts[0]);
      ContainsInContext("", parts[0], sep + Join(sep, parts[1..]), parts[0]);
      assert "" + parts[0] + (sep + Join(sep, parts[1..])) == Join(sep, parts);
    } else {
      JoinContainsParts(sep, parts[1..], k - 1);
      ContainsInContext(parts[0] + sep, Join(sep, parts[1..]), "", parts[k]);
      assert parts[0] + sep + Join(sep, parts[1..]) + "" == Join(sep, parts);
    }
  }

  /** A non-empty join ends with its last part. */
  lemma {:induction false} JoinEndsWithLast(sep: string, parts: seq<string>)
    requires |parts| > 0
    ensures var j := Join(sep, parts); var last := parts[|parts| - 1];
      |last| <= |j| && j[|j| - |last|..] == last
    decreases |parts|
  {
    if |parts| > 1 {
      JoinEndsWithLast(sep, parts[1..]);
      var rest := Join(sep, parts[1..]);
      assert Join(sep, parts) == (parts[0] + sep) + rest;
    }
  }

  function IndexOf(s: string, c: char): (i: nat)
    requires c in s
    ensures i < |s| && s[i] == c && c !in s[..i]
  {
    if s[0] == c then 0 else 1 + IndexOf(s[1..], c)
  }

  /** `s.split(c)` for a single separator character */
  function Split(s: string, c: char): (parts: seq<string>)
    ensures |parts| >= 1
    ensures forall k :: 0 <= k < |parts| ==> c !in parts[k]
    decreases |s|
  {
    if c !in s then [s]
    else
      var i := IndexOf(s, c);
      [s[..i]] + Split(s[i + 1..], c)
  }

  /** Splitting and joining back with the same separator gives the text back. */
  lemma {:induction false} SplitJoin(s: string, c: char)
    ensures Join([c], Split(s, c)) == s
    decreases |s|
  {
    if c in s {
      var i := IndexOf(s, c);
      SplitJoin(s[i + 1..], c);
      assert Split(s, c) == [s[..i]] + Split(s[i + 1..], c);
      assert Split(s, c)[1..] == Split(s[i + 1..], c);
      assert s == s[..i] + [c] + s[i + 1..];
    }
  }

  // ---------------------------------------------------------------- whitespace

  /** The characters Python's `str.isspace()` accepts, which `str.strip()` removes. */
  predicate IsSpace(c: char) {
    c == ' ' || ('\t' <= c <= '\r') || ('\U{1C}' <= c <= '\U{1F}') || c == '\U{85}' || c == '\U{A0}'
    || c == '\U{1680}' || ('\U{2000}' <= c <= '\U{200A}') || c == '\U{2028}' || c == '\U{2029}'
    || c == '\U{202F}' || c == '\U{205F}' || c == '\U{3000}'
  }

  /** The index of the first character at or after `i` that is not whitespace. */
  function SkipSpaces(s: string, i: nat): (n: nat)
    requires i <= |s|
    ensures i <= n <= |s|
    ensures forall k :: i <= k < n ==> IsSpace(s[k])
    ensures n < |s| ==> !IsSpace(s[n])
    decreases |s| - i
  {
    if i < |s| && IsSpace(s[i]) then SkipSpaces(s, i + 1) else i
  }

  /** The end of `s[lo..j]` once its trailing whitespace is dropped. */
  function TrimEnd(s: string, lo: nat, j: nat): (e: nat)
    requires lo <= j <= |s|
    ensures lo <= e <= j
    ensures forall k :: e <= k < j ==> IsSpace(s[k])
    ensures e > lo ==> !IsSpace(s[e - 1])
    decreases j
  {
    if j > lo && IsSpace(s[j - 1]) then TrimEnd(s, lo, j - 1) else j
  }

  /** `s.strip()`: the text without its leading and trailing whitespace. */
  function Strip(s: string): string {
    var b := SkipSpaces(s, 0);
    s[b..TrimEnd(s, b, |s|)]
  }

  /** What `strip()` leaves: the text between the leading and the trailing whitespace,
      beginning and ending with a character that is not whitespace. */
  lemma StripTrims(s: string)
    ensures var i, r := SkipSpaces(s, 0), Strip(s);
      i + |r| <= |s| && s[i..i + |r|] == r
      && (forall k :: 0 <= k < i ==> IsSpace(s[k]))
      && (forall k :: i + |r| <= k < |s| ==> IsSpace(s[k]))
    ensures var r := Strip(s); |r| > 0 ==> !IsSpace(r[0]) && !IsSpace(r[|r| - 1])
  {
    var b := SkipSpaces(s, 0);
    var e := TrimEnd(s, b, |s|);
    assert Strip(s) == s[b..e];
  }

  /** Text without whitespace at either end is left as it is. */
  lemma StripUnpadded(s: string)
    requires |s| > 0 ==> !IsSpace(s[0]) && !IsSpace(s[|s| - 1])
    ensures Strip(s) == s
  {
    assert SkipSpaces(s, 0) == 0;
    assert TrimEnd(s, 0, |s|) == |s|;
  }

  // ---------------------------------------------------------------- decimal numbers

  predicate IsDigit(c: char) { '0' <= c <= '9' }

  /** `s.isdigit()` on ASCII digits: non-empty and all digits */
  predicate AllDigits(s: string) {
    |s| > 0 && forall k :: 0 <= k < |s| ==> IsDigit(s[k])
  }

  function DigitChar(d: nat): (c: char)
    requires d < 10
    ensures IsDigit(c)
  {
    ['0', '1', '2', '3', '4', '5', '6', '7', '8', '9'][d]
  }

  /** `int(s)` of a string of ASCII digits (leading zeros allowed) */
  function DecimalValue(s: string): nat
    requires forall k :: 0 <= k < |s| ==> IsDigit(s[k])
    decreases |s|
  {
    if |s| == 0 then 0
    else
      var last := s[|s| - 1];
      assert IsDigit(last);
      DecimalValue(s[..|s| - 1]) * 10 + (last as int - '0' as int)
  }
  /** A text of digits has the value 0 exactly when every digit is `0`. */
  lemma {:induction false} DecimalValueZero(s: string)
    requires forall k :: 0 <= k < |s| ==> IsDigit(s[k])
    ensures DecimalValue(s) == 0 <==> forall k :: 0 <= k < |s| ==> s[k] == '0'
    decreases |s|
  {
    if |s| > 0 {
      var init := s[..|s| - 1];
      DecimalValueZero(init);
      assert forall k :: 0 <= k < |init| ==> init[k] == s[k];
    }
  }


  /** `str(n)` for a natural number */
  function NatText(n: nat): (s: string)
    ensures AllDigits(s)
    decreases n
  {
    if n < 10 then [DigitChar(n)] else NatText(n / 10) + [DigitChar(n % 10)]
  }

  /** `int(str(n)) == n` */
  lemma {:induction false} NatTextRoundTrip(n: nat)
    ensures DecimalValue(NatText(n)) == n
    decreases n
  {
    var s := NatText(n);
    if n >= 10 {
      NatTextRoundTrip(n / 10);
      assert s[..|s| - 1] == NatText(n / 10);
    }
  }

  /** `str(i)` for any integer, with a leading minus sign for negative values */
  function IntText(i: int): string {
    if i < 0 then "-" + NatText(-i) else NatText(i)
  }

  /** `int(text)` for an optionally signed decimal number with surrounding whitespace. */
  function ParseInt(text: string): Option<int> {
    var t := Strip(text);
    if AllDigits(t) then Some(DecimalValue(t))
    else if |t| > 1 && (t[0] == '-' || t[0] == '+') && AllDigits(t[1..]) then
      var magnitude: int := DecimalValue(t[1..]);
      Some(if t[0] == '-' then -magnitude else magnitude)
    else None
  }

  /** `int(str(i)) == i` */
  lemma {:induction false} IntTextRoundTrip(pid: int)
    ensures ParseInt(IntText(pid)) == Some(pid)
  {
    if pid < 0 {
      var text := IntText(pid);
      NegativeText(-pid, text);
    } else {
      ParseDigits(NatText(pid));
      NatTextRoundTrip(pid);
    }
  }

  lemma NegativeText(magnitude: nat, text: string)
    requires magnitude > 0 && text == "-" + NatText(magnitude)
    ensures ParseInt(text) == Some(-(magnitude as int))
  {
    ParseNegative(NatText(magnitude));
    NatTextRoundTrip(magnitude);
  }

  lemma ParseDigits(t: string)
    requires AllDigits(t)
    ensures ParseInt(t) == Some(DecimalValue(t))
  {
    assert IsDigit(t[0]) && IsDigit(t[|t| - 1]);
    StripUnpadded(t);
  }

  lemma ParseNegative(digits: string)
    requires AllDigits(digits)
    ensures ParseInt("-" + digits) == Some(-(DecimalValue(digits) as int))
  {
    var t := "-" + digits;
    assert IsDigit(t[|t| - 1]) by { assert t[|t| - 1] == digits[|digits| - 1]; }
    StripUnpadded(t);
    assert t[1..] == digits;
    assert !AllDigits(t) by { assert !IsDigit(t[0]); }
  }

  /** `f"{n:02}"`: zero-padded to at least two digits. */
  function Pad2(n: nat): (s: string)
    ensures AllDigits(s) && |s| >= 2 && DecimalValue(s) == n
    ensures n < 100 ==> |s| == 2
  {
    NatTextRoundTrip(n);
    if n < 10 then
      var s := "0" + NatText(n);
      assert s[..|s| - 1] == "0";
      assert DecimalValue("0") == 0 by { assert "0"[..0] == ""; }
      s
    else
      var t := NatText(n);
      assert n < 100 ==> |t| == 2 by {
        if n < 100 { assert NatText(n / 10) == [DigitChar(n / 10)]; }
      }
      t
  }

  // ---------------------------------------------------------------- ordering

  /** Python's ordering of strings: code point by code point, a proper prefix first. */
  predicate LexLeq(a: string, b: string)
    decreases |a|
  {
    |a| == 0 || (|b| > 0 && (a[0] < b[0] || (a[0] == b[0] && LexLeq(a[1..], b[1..]))))
  }

  lemma {:induction false} LexLeqTotal(a: string, b: string)
    ensures LexLeq(a, b) || LexLeq(b, a)
    decreases |a|
  {
    if |a| > 0 && |b| > 0 && a[0] == b[0] {
      LexLeqTotal(a[1..], b[1..]);
    }
  }

  lemma {:induction false} LexLeqTransitive(a: string, b: string, c: string)
    requires LexLeq(a, b) && LexLeq(b, c)
    ensures LexLeq(a, c)
    decreases |a|
  {
    if |a| > 0 && a[0] == b[0] && b[0] == c[0] {
      LexLeqTransitive(a[1..], b[1..], c[1..]);
    }
  }

  lemma {:induction false} LexLeqAntisymmetric(a: string, b: string)
    requires LexLeq(a, b) && LexLeq(b, a)
    ensures a == b
    decreases |a|
  {
    if |a| > 0 {
      LexLeqAntisymmetric(a[1..], b[1..]);
      assert a == [a[0]] + a[1..] && b == [b[0]] + b[1..];
    }
  }

  /** `sorted(names)[0]`: the first of the names in Python's string order. */
  function Smallest(names: seq<string>): (m: string)
    requires |names| > 0
    ensures m in names
    ensures forall k :: 0 <= k < |names| ==> LexLeq(m, names[k])
    decreases |names|
  {
    if |names| == 1 then
      assert LexLeq(names[0], names[0]) by { LexLeqTotal(names[0], names[0]); }
      names[0]
    else
      var rest := Smallest(names[1..]);
      LexLeqTotal(names[0], rest);
      if LexLeq(names[0], rest) then
        assert forall k :: 1 <= k < |names| ==> LexLeq(names[0], names[k]) by {
          forall k | 1 <= k < |names| ensures LexLeq(names[0], names[k]) {
            assert names[k] == names[1..][k - 1];
            LexLeqTransitive(names[0], rest, names[k]);
          }
        }
        assert LexLeq(names[0], names[0]) by { LexLeqTotal(names[0], names[0]); }
        names[0]
      else
        assert forall k :: 1 <= k < |names| ==> LexLeq(rest, names[k]) by {
          forall k | 1 <= k < |names| ensures LexLeq(rest, names[k]) {
            assert names[k] == names[1..][k - 1];
          }
        }
        rest
  }

  /** The first name in sorted order is the only name that precedes all the others. */
  lemma SmallestUnique(names: seq<string>, m: string)
    requires m in names && forall k :: 0 <= k < |names| ==> LexLeq(m, names[k])
    ensures m == Smallest(names)
  {
    var s := Smallest(names);
    var i :| 0 <= i < |names| && names[i] == m;
    var j :| 0 <= j < |names| && names[j] == s;
    LexLeqAntisymmetric(m, s);
  }
}
