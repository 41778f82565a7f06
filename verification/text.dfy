/**
 * The string operations of Python that the modelled code relies on:
 * `str.lower()` (on ASCII letters), `str.strip()`, decimal rendering of a
 * counter in an f-string, and `sep.join(parts)`.
 */
module Text {
  import opened Wrappers

  predicate IsUpper(c: char) { 'A' <= c <= 'Z' }

  function LowerChar(c: char): (r: char)
    ensures IsUpper(c) ==> r as int == c as int + 32
    ensures !IsUpper(c) ==> r == c
    ensures !IsUpper(r)
  {
    if IsUpper(c) then (c as int + 32) as char else c
  }

  /** `s.lower()`, folding the 26 ASCII capitals and leaving every other character alone. */
  function Lower(s: string): (r: string)
    ensures |r| == |s|
    ensures forall i :: 0 <= i < |s| ==> r[i] == LowerChar(s[i])
  {
    if s == [] then [] else [LowerChar(s[0])] + Lower(s[1..])
  }

  lemma {:induction false} LowerIdempotent(s: string)
    ensures Lower(Lower(s)) == Lower(s)
  {
    var l := Lower(s);
    assert forall i :: 0 <= i < |l| ==> Lower(l)[i] == l[i] by {
      forall i | 0 <= i < |l| ensures Lower(l)[i] == l[i] {
        assert l[i] == LowerChar(s[i]);
      }
    }
  }

  /** Two strings have the same lower-case form exactly when they agree letter by letter up to ASCII case. */
  lemma {:induction false} LowerEqualIff(a: string, b: string)
    ensures Lower(a) == Lower(b) <==> |a| == |b| && forall i :: 0 <= i < |a| ==> LowerChar(a[i]) == LowerChar(b[i])
  {
    if |a| == |b| && forall i :: 0 <= i < |a| ==> LowerChar(a[i]) == LowerChar(b[i]) {
      assert forall i :: 0 <= i < |a| ==> Lower(a)[i] == Lower(b)[i];
    }
    if Lower(a) == Lower(b) {
      forall i | 0 <= i < |a| ensures LowerChar(a[i]) == LowerChar(b[i]) {
        assert Lower(a)[i] == Lower(b)[i];
      }
    }
  }

  /** Python's `str.isspace()` for one character: the Unicode whitespace code points. */
  predicate IsSpace(c: char) {
    || c == ' '
    || '\t' <= c <= '\r'
    || '\U{1c}' <= c <= '\U{1f}'
    || c == '\U{85}'
    || c == '\U{a0}'
    || c == '\U{1680}'
    || '\U{2000}' <= c <= '\U{200a}'
    || c == '\U{2028}'
    || c == '\U{2029}'
    || c == '\U{202f}'
    || c == '\U{205f}'
    || c == '\U{3000}'
  }

  /** How many whitespace characters open `s`. */
  function LeadingSpaces(s: string): (k: nat)
    ensures k <= |s|
    ensures forall i :: 0 <= i < k ==> IsSpace(s[i])
    ensures k < |s| ==> !IsSpace(s[k])
  {
    if s == [] || !IsSpace(s[0]) then 0 else 1 + LeadingSpaces(s[1..])
  }

  /** How many whitespace characters close `s`. */
  function TrailingSpaces(s: string): (k: nat)
    ensures k <= |s|
    ensures forall i :: |s| - k <= i < |s| ==> IsSpace(s[i])
    ensures k < |s| ==> !IsSpace(s[|s| - 1 - k])
  {
    if s == [] || !IsSpace(s[|s| - 1]) then 0 else 1 + TrailingSpaces(s[..|s| - 1])
  }

  /** The whitespace that closes a suffix of `s` closes `s` itself. */
  lemma TrailingSpacesOfSuffix(s: string, lo: nat)
    requires lo <= |s|
    ensures forall i :: |s| - TrailingSpaces(s[lo..]) <= i < |s| ==> IsSpace(s[i])
  {
    var t := s[lo..];
    forall i | |s| - TrailingSpaces(t) <= i < |s|
      ensures IsSpace(s[i])
    {
      assert s[i] == t[i - lo];
    }
  }

  /**
   * `s.strip()`: the slice of `s` that neither starts nor ends with
   * whitespace and has only whitespace before and after it.
   */
  function Strip(s: string): (r: string)
    ensures LeadingSpaces(s) + |r| <= |s|
    ensures r == [] <==> forall i :: 0 <= i < |s| ==> IsSpace(s[i])
    ensures r != [] ==> !IsSpace(r[0]) && !IsSpace(r[|r| - 1])
    ensures forall i :: 0 <= i < |r| ==> r[i] == s[LeadingSpaces(s) + i]
    ensures forall i :: LeadingSpaces(s) + |r| <= i < |s| ==> IsSpace(s[i])
  {
    var t := s[LeadingSpaces(s)..];
    var r := t[..|t| - TrailingSpaces(t)];
    TrailingSpacesOfSuffix(s, LeadingSpaces(s));
    assert t != [] ==> !IsSpace(t[0]);
    assert forall i :: 0 <= i < LeadingSpaces(s) ==> IsSpace(s[i]);
    assert (forall i :: 0 <= i < |s| ==> IsSpace(s[i])) ==> t == [] by {
      if t != [] {
        assert s[LeadingSpaces(s)] == t[0];
      }
    }
    r
  }

  /**
   * The input is the leading whitespace, the stripped text and the trailing
   * whitespace, in that order.
   */
  lemma StripRemovesOnlySpace(s: string)
    ensures s == s[..LeadingSpaces(s)] + Strip(s) + s[LeadingSpaces(s) + |Strip(s)|..]
  {
    SpliceAt(s, Strip(s), LeadingSpaces(s));
  }

  /** A string that occurs in `s` at `lo` splits `s` into a prefix, itself and a suffix. */
  lemma SpliceAt(s: string, r: string, lo: nat)
    requires lo + |r| <= |s|
    requires forall i :: 0 <= i < |r| ==> r[i] == s[lo + i]
    ensures s == s[..lo] + r + s[lo + |r|..]
  {
    assert r == s[lo..lo + |r|];
    assert s == s[..lo] + s[lo..lo + |r|] + s[lo + |r|..];
  }

  /** A string that neither starts nor ends with whitespace is its own stripped form. */
  lemma StripOfStripped(r: string)
    requires r != [] ==> !IsSpace(r[0]) && !IsSpace(r[|r| - 1])
    ensures Strip(r) == r
  {
    if r != [] {
      assert LeadingSpaces(r) == 0;
      assert TrailingSpaces(r) == 0;
      assert r[0..|r|] == r;
    }
  }

  lemma StripIdempotent(s: string)
    ensures Strip(Strip(s)) == Strip(s)
  {
    StripOfStripped(Strip(s));
  }

  predicate IsDigit(c: char) { '0' <= c <= '9' }

  predicate AllDigits(s: string) { forall i :: 0 <= i < |s| ==> IsDigit(s[i]) }

  function DigitChar(d: nat): (c: char)
    requires d < 10
    ensures IsDigit(c) && c as int - '0' as int == d
  {
    ('0' as int + d) as char
  }

  /** `f"{n}"` for a non-negative integer: its decimal digits without leading zeros. */
  function NatToString(n: nat): (s: string)
    ensures s != [] && AllDigits(s)
    ensures |s| > 1 ==> s[0] != '0'
  {
    if n < 10 then [DigitChar(n)] else NatToString(n / 10) + [DigitChar(n % 10)]
  }

  /** The number a string of decimal digits denotes. */
  function DigitsValue(s: string): nat
    requires AllDigits(s)
  {
    if s == [] then 0 else DigitsValue(s[..|s| - 1]) * 10 + (s[|s| - 1] as int - '0' as int)
  }

  lemma {:induction false} NatToStringRoundTrip(n: nat)
    ensures DigitsValue(NatToString(n)) == n
  {
    if n >= 10 {
      var s := NatToString(n);
      assert s[..|s| - 1] == NatToString(n / 10);
      NatToStringRoundTrip(n / 10);
    }
  }

  /** The length of the run of decimal digits that opens `s`. */
  function DigitPrefixLength(s: string): (k: nat)
    ensures k <= |s| && AllDigits(s[..k])
  {
    if s != [] && IsDigit(s[0]) then 1 + DigitPrefixLength(s[1..]) else 0
  }

  /** The number written at the start of `s`, if `s` starts with a digit. */
  function LeadingNumber(s: string): Option<nat> {
    var k := DigitPrefixLength(s);
    if k == 0 then None else Some(DigitsValue(s[..k]))
  }

  lemma {:induction false} DigitPrefixOf(d: string, rest: string)
    requires AllDigits(d)
    requires rest == [] || !IsDigit(rest[0])
    ensures DigitPrefixLength(d + rest) == |d|
  {
    if d != [] {
      assert (d + rest)[1..] == d[1..] + rest;
      DigitPrefixOf(d[1..], rest);
    } else {
      assert d + rest == rest;
    }
  }

  /** A line that starts with the rendering of `n` followed by a non-digit reads back as `n`. */
  lemma NumberedLine(n: nat, rest: string)
    requires rest == [] || !IsDigit(rest[0])
    ensures LeadingNumber(NatToString(n) + rest) == Some(n)
  {
    var d := NatToString(n);
    DigitPrefixOf(d, rest);
    assert (d + rest)[..|d|] == d;
    NatToStringRoundTrip(n);
  }

  /** `sep.join(parts)`. */
  function Join(parts: seq<string>, sep: string): string {
    if parts == [] then []
    else if |parts| == 1 then parts[0]
    else parts[0] + sep + Join(parts[1..], sep)
  }

  /** `part` occurs in `s` starting at offset `o`. */
  predicate OccursAt(s: string, part: string, o: nat) {
    o + |part| <= |s| && s[o..o + |part|] == part
  }

  /** Each part occurs in the joined string. */
  lemma {:induction false} JoinContains(parts: seq<string>, sep: string, k: nat)
    requires k < |parts|
    ensures exists o :: OccursAt(Join(parts, sep), parts[k], o)
  {
    var j := Join(parts, sep);
    if |parts| == 1 {
      assert j[..|parts[0]|] == parts[0];
      assert OccursAt(j, parts[k], 0);
    } else if k == 0 {
      assert j == parts[0] + (sep + Join(parts[1..], sep));
      assert j[..|parts[0]|] == parts[0];
      assert OccursAt(j, parts[k], 0);
    } else {
      var rest := Join(parts[1..], sep);
      JoinContains(parts[1..], sep, k - 1);
      var o1: nat :| OccursAt(rest, parts[k], o1);
      var pre := parts[0] + sep;
      assert j == pre + rest;
      assert j[|pre| + o1..|pre| + o1 + |parts[k]|] == rest[o1..o1 + |parts[k]|];
      assert OccursAt(j, parts[k], |pre| + o1);
    }
  }
}
