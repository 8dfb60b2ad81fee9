/**
 * String operations of the JavaScript runtime that the components rely on:
 * white space as `\s` and `String.prototype.trim` see it, the e-mail shape
 * `/^\S+@\S+\.\S+$/`, `Number.prototype.toFixed(2)` on whole cents,
 * decimal rendering of page numbers, `startsWith`, `replace` with a
 * one-character string pattern and `Array.prototype.join`.
 */
module Strings {

  /** The characters JavaScript's `\s` and `trim` treat as white space. */
  predicate IsSpace(c: char)
  {
    c == '\t' || c == '\n' || c == '\U{000B}' || c == '\U{000C}' || c == '\r' || c == ' '
    || c == '\U{00A0}' || c == '\U{1680}' || ('\U{2000}' <= c <= '\U{200A}')
    || c == '\U{2028}' || c == '\U{2029}' || c == '\U{202F}' || c == '\U{205F}'
    || c == '\U{3000}' || c == '\U{FEFF}'
  }

  predicate NoSpace(s: string)
  {
    forall k :: 0 <= k < |s| ==> !IsSpace(s[k])
  }

  /** Drops the leading white space: the result is a suffix and all that was dropped is white space. */
  function TrimStart(s: string): (r: string)
    ensures |r| <= |s| && r == s[|s| - |r|..]
    ensures forall k :: 0 <= k < |s| - |r| ==> IsSpace(s[k])
    ensures r == [] || !IsSpace(r[0])
  {
    if |s| > 0 && IsSpace(s[0]) then TrimStart(s[1..]) else s
  }

  /** Drops the trailing white space: the result is a prefix and all that was dropped is white space. */
  function TrimEnd(s: string): (r: string)
    ensures |r| <= |s| && r == s[..|r|]
    ensures forall k :: |r| <= k < |s| ==> IsSpace(s[k])
    ensures r == [] || !IsSpace(r[|r| - 1])
  {
    if |s| > 0 && IsSpace(s[|s| - 1]) then TrimEnd(s[..|s| - 1]) else s
  }

  /** `s.trim()`. */
  function Trim(s: string): (r: string)
    ensures |r| <= |s|
    ensures r == [] || (!IsSpace(r[0]) && !IsSpace(r[|r| - 1]))
    ensures r == [] <==> forall k :: 0 <= k < |s| ==> IsSpace(s[k])
    ensures NoSpace(s) ==> r == s
  {
    TrimEnd(TrimStart(s))
  }

  /**
   * `/^\S+@\S+\.\S+$/.test(s)`: no white space anywhere, an '@' that is
   * not the first character, and after it, with at least one character
   * between, a '.' that is not the last character.
   */
  predicate EmailShape(s: string)
  {
    NoSpace(s) &&
    exists i, j :: 0 < i < |s| && i + 1 < j < |s| - 1 && s[i] == '@' && s[j] == '.'
  }

  /** Every local part, domain and suffix without white space makes a well-shaped address. */
  lemma EmailShapeOfParts(local: string, domain: string, suffix: string)
    requires local != [] && domain != [] && suffix != []
    requires NoSpace(local) && NoSpace(domain) && NoSpace(suffix)
    ensures EmailShape(local + "@" + domain + "." + suffix)
  {
    var s := local + "@" + domain + "." + suffix;
    var i, j := |local|, |local| + 1 + |domain|;
    assert s[i] == '@' && s[j] == '.';
    forall k | 0 <= k < |s| ensures !IsSpace(s[k]) {
      if k < i {
        assert s[k] == local[k];
      } else if i < k < j {
        assert s[k] == domain[k - i - 1];
      } else if j < k {
        assert s[k] == suffix[k - j - 1];
      }
    }
  }

  /** A well-shaped address is its own trim and is not empty. */
  lemma EmailShapeIsTrimmed(s: string)
    requires EmailShape(s)
    ensures Trim(s) == s && s != ""
  {
  }

  function DigitChar(d: nat): (c: char)
    requires d < 10
    ensures '0' <= c <= '9'
  {
    ('0' as int + d) as char
  }

  function DigitValue(c: char): (d: nat)
    ensures d < 10
  {
    if '0' <= c <= '9' then (c as int - '0' as int) else 0
  }

  lemma DigitRoundTrip(d: nat)
    requires d < 10
    ensures DigitValue(DigitChar(d)) == d
  {
  }

  /** A natural number in decimal, as a template literal renders it. */
  function NatToString(n: nat): (r: string)
    ensures r != []
    ensures forall k :: 0 <= k < |r| ==> '0' <= r[k] <= '9'
  {
    if n < 10 then [DigitChar(n)] else NatToString(n / 10) + [DigitChar(n % 10)]
  }

  /** Reads a string of decimal digits back as a number. */
  function ParseNat(s: string): nat
  {
    if s == [] then 0 else ParseNat(s[..|s| - 1]) * 10 + DigitValue(s[|s| - 1])
  }

  lemma {:induction false} NatToStringRoundTrip(n: nat)
    ensures ParseNat(NatToString(n)) == n
  {
    if n >= 10 {
      var s := NatToString(n / 10) + [DigitChar(n % 10)];
      assert s[..|s| - 1] == NatToString(n / 10);
      NatToStringRoundTrip(n / 10);
    }
  }

  /** Distinct numbers render differently. */
  lemma NatToStringInjective(m: nat, n: nat)
    requires NatToString(m) == NatToString(n)
    ensures m == n
  {
    NatToStringRoundTrip(m);
    NatToStringRoundTrip(n);
  }

  /** `(c / 100).toFixed(2)` for an amount of `c` cents. */
  function FormatCents(c: int): string
  {
    var a := if c < 0 then -c else c;
    (if c < 0 then "-" else "") + NatToString(a / 100) + "." + [DigitChar(a % 100 / 10), DigitChar(a % 10)]
  }

  /** Reads a string of the form [-]digits.dd back as cents. */
  function ParseCents(s: string): int
  {
    var negative := |s| > 0 && s[0] == '-';
    var body := if negative then s[1..] else s;
    var v := if |body| >= 3 then ParseNat(body[..|body| - 3]) * 100 + ParseNat(body[|body| - 2..]) else 0;
    if negative then -v else v
  }

  /** The two digits after the point of `a` cents. */
  lemma CentsDigits(a: nat)
    ensures (a / 100) * 100 + (a % 100 / 10) * 10 + a % 10 == a
  {
    var q, m := a / 100, a % 100;
    assert a == 100 * q + m && 0 <= m < 100;
    assert m == 10 * (m / 10) + m % 10;
    assert a == 10 * (10 * q + m / 10) + m % 10;
  }

  lemma ParseTwoDigits(x: nat, y: nat)
    requires x < 10 && y < 10
    ensures ParseNat([DigitChar(x), DigitChar(y)]) == x * 10 + y
  {
    var t := [DigitChar(x), DigitChar(y)];
    assert t[..1] == [DigitChar(x)];
    assert [DigitChar(x)][..0] == [];
    DigitRoundTrip(x);
    DigitRoundTrip(y);
    assert ParseNat([DigitChar(x)]) == x;
    assert ParseNat(t) == ParseNat(t[..1]) * 10 + DigitValue(t[1]);
  }

  /** Formatting loses nothing: the rendered amount reads back as the same number of cents. */
  lemma FormatCentsRoundTrip(c: int)
    ensures ParseCents(FormatCents(c)) == c
  {
    var a := if c < 0 then -c else c;
    var digits := NatToString(a / 100);
    var tail := [DigitChar(a % 100 / 10), DigitChar(a % 10)];
    assert FormatCents(c) == (if c < 0 then "-" else "") + (digits + "." + tail);
    NatToStringRoundTrip(a / 100);
    ParseTwoDigits(a % 100 / 10, a % 10);
    CentsDigits(a);
    ParseCentsParts(digits, tail, c < 0);
  }

  /** A sign, digits, a point and two more digits read back part by part. */
  lemma ParseCentsParts(digits: string, tail: string, negative: bool)
    requires |tail| == 2 && digits != [] && digits[0] != '-'
    ensures var v := ParseNat(digits) * 100 + ParseNat(tail);
      ParseCents((if negative then "-" else "") + (digits + "." + tail)) == if negative then -v else v
  {
    var body := digits + "." + tail;
    UnsignedParts(digits, tail);
    if negative {
      NegatedCents(body);
    } else {
      assert "" + body == body;
    }
  }

  /** Without a sign, the digits before the point count hundreds and the last two count units. */
  lemma UnsignedParts(digits: string, tail: string)
    requires |tail| == 2 && digits != [] && digits[0] != '-'
    ensures ParseCents(digits + "." + tail) == ParseNat(digits) * 100 + ParseNat(tail)
  {
    var body := digits + "." + tail;
    assert body[0] == digits[0];
    assert body[..|body| - 3] == digits;
    assert body[|body| - 2..] == tail;
  }

  /** A leading '-' negates what the rest reads as. */
  lemma NegatedCents(body: string)
    requires body != [] && body[0] != '-'
    ensures ParseCents("-" + body) == -ParseCents(body)
  {
    assert ("-" + body)[0] == '-';
    assert ("-" + body)[1..] == body;
  }

  predicate StartsWith(s: string, prefix: string)
  {
    |prefix| <= |s| && s[..|prefix|] == prefix
  }

  /** The index of the first occurrence of `x`, or |s| if there is none (`indexOf`, with absence as |s|). */
  function IndexOf<T(==)>(s: seq<T>, x: T): (i: nat)
    ensures i <= |s|
  {
    if s == [] then 0 else if s[0] == x then 0 else 1 + IndexOf(s[1..], x)
  }

  /** The index found holds `x`, nothing before it does, and it is |s| exactly when `x` is absent. */
  lemma {:induction false} IndexOfSpec<T>(s: seq<T>, x: T)
    ensures IndexOf(s, x) < |s| <==> x in s
    ensures IndexOf(s, x) < |s| ==> s[IndexOf(s, x)] == x
    ensures forall k :: 0 <= k < IndexOf(s, x) ==> s[k] != x
  {
    if s != [] && s[0] != x {
      IndexOfSpec(s[1..], x);
      assert forall k :: 1 <= k < |s| ==> s[k] == s[1..][k - 1];
      assert x in s <==> x in s[1..];
    }
  }

  /** Appending leaves the first occurrence of what was already there where it was. */
  lemma IndexOfAppend<T>(s: seq<T>, y: T, x: T)
    ensures x in s ==> IndexOf(s + [y], x) == IndexOf(s, x)
    ensures x !in s && x == y ==> IndexOf(s + [y], x) == |s|
  {
    var i, j := IndexOf(s + [y], x), IndexOf(s, x);
    IndexOfSpec(s + [y], x);
    IndexOfSpec(s, x);
    if x in s {
      assert (s + [y])[j] == x;
      assert forall k :: 0 <= k < j ==> (s + [y])[k] == s[k];
    } else if x == y {
      assert (s + [y])[|s|] == x;
      assert forall k :: 0 <= k < |s| ==> (s + [y])[k] == s[k];
    }
  }

  /** `s.replace(from, to)` with one-character string arguments: only the first occurrence is replaced. */
  function ReplaceFirst(s: string, from: char, to: char): (r: string)
  {
    var i := IndexOf(s, from);
    if i == |s| then s else s[..i] + [to] + s[i + 1..]
  }

  /** The first `from` becomes `to`; every other character, later occurrences of `from` included, stays. */
  lemma ReplaceFirstSpec(s: string, from: char, to: char)
    ensures |ReplaceFirst(s, from, to)| == |s|
    ensures forall k :: 0 <= k < |s| ==>
      ReplaceFirst(s, from, to)[k] == (if k == IndexOf(s, from) then to else s[k])
    ensures from !in s ==> ReplaceFirst(s, from, to) == s
  {
    IndexOfSpec(s, from);
  }

  /** `parts.join(separator)`. */
  function Join(parts: seq<string>, separator: string): string
  {
    if parts == [] then ""
    else if |parts| == 1 then parts[0]
    else Join(parts[..|parts| - 1], separator) + separator + parts[|parts| - 1]
  }
}
