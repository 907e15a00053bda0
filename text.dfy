/**
 * The JavaScript string operations the service leans on: `trim`, the
 * case-insensitive "contains" test its list filters use, `parseInt` on
 * query parameters, decimal rendering of numbers in template strings, and
 * `Array.prototype.join`.
 */
module Text {
  import opened Wrappers

  /** White space as `String.prototype.trim` and the regular-expression class `\s` see it. */
  predicate IsSpace(c: char) {
    || c == ' ' || c == '\t' || c == '\n' || c == '\r' || c == '\U{B}' || c == '\U{C}'
    || c == '\U{A0}' || c == '\U{1680}' || ('\U{2000}' <= c <= '\U{200A}')
    || c == '\U{2028}' || c == '\U{2029}' || c == '\U{202F}' || c == '\U{205F}'
    || c == '\U{3000}' || c == '\U{FEFF}'
  }

  /** `s` with its leading white space removed. */
  function TrimStart(s: string): (r: string)
    ensures |r| <= |s| && r == s[|s| - |r|..]
    ensures forall i :: 0 <= i < |s| - |r| ==> IsSpace(s[i])
    ensures r == [] || !IsSpace(r[0])
  {
    if |s| > 0 && IsSpace(s[0]) then TrimStart(s[1..]) else s
  }

  /** `s` with its trailing white space removed. */
  function TrimEnd(s: string): (r: string)
    ensures |r| <= |s| && r == s[..|r|]
    ensures forall i :: |r| <= i < |s| ==> IsSpace(s[i])
    ensures r == [] || !IsSpace(r[|r| - 1])
  {
    if |s| > 0 && IsSpace(s[|s| - 1]) then TrimEnd(s[..|s| - 1]) else s
  }

  /** Neither end of `s` is white space. */
  predicate IsTrimmed(s: string) {
    s == [] || (!IsSpace(s[0]) && !IsSpace(s[|s| - 1]))
  }

  /** `String.prototype.trim`: the result has no white space at either end and leaves a trimmed string alone. */
  function Trim(s: string): (r: string)
    ensures IsTrimmed(r)
    ensures IsTrimmed(s) ==> r == s
    ensures |r| <= |s|
  {
    TrimEnd(TrimStart(s))
  }

  /** Trimming twice is trimming once (the route's sanitiser and the schema's setter both trim). */
  lemma TrimIdempotent(s: string)
    ensures Trim(Trim(s)) == Trim(s)
  {
  }

  /** A string trims to nothing exactly when it is all white space. */
  lemma {:induction false} TrimEmptyIff(s: string)
    ensures Trim(s) == [] <==> forall i :: 0 <= i < |s| ==> IsSpace(s[i])
  {
    var t := TrimStart(s);
    if t != [] {
      assert t[0] == s[|s| - |t|] && !IsSpace(t[0]);
      assert Trim(s)[0] == t[0];
    }
  }

  /** A string that is blank after trimming. */
  predicate IsBlank(s: string) {
    Trim(s) == []
  }

  /** ASCII upper-case letters mapped to lower case; every other character is left alone. */
  function LowerChar(c: char): char {
    if 'A' <= c <= 'Z' then (c as int + 32) as char else c
  }

  function Lower(s: string): (r: string)
    ensures |r| == |s|
  {
    seq(|s|, i requires 0 <= i < |s| => LowerChar(s[i]))
  }

  /** `needle` occurs in `hay` starting at position `i`. */
  predicate OccursAt(hay: string, needle: string, i: int) {
    0 <= i <= |hay| - |needle| && hay[i..i + |needle|] == needle
  }

  /** Substring search, stated against the positions where `needle` occurs. */
  function Contains(hay: string, needle: string): (r: bool)
    ensures r <==> exists i :: OccursAt(hay, needle, i)
  {
    if |needle| <= |hay| && hay[..|needle|] == needle then
      assert OccursAt(hay, needle, 0);
      true
    else if |hay| == 0 then
      false
    else
      var r := Contains(hay[1..], needle);
      assert forall i :: OccursAt(hay[1..], needle, i) ==> OccursAt(hay, needle, i + 1);
      assert forall i :: OccursAt(hay, needle, i) && i > 0 ==> OccursAt(hay[1..], needle, i - 1);
      r
  }

  /** The test a `new RegExp(needle, 'i')` filter applies to a field, read as a literal, case-insensitive substring search. */
  predicate ContainsIgnoringCase(hay: string, needle: string) {
    Contains(Lower(hay), Lower(needle))
  }

  lemma ContainsEmpty(hay: string)
    ensures ContainsIgnoringCase(hay, "")
  {
    assert OccursAt(Lower(hay), Lower(""), 0);
  }

  // ---------------------------------------------------------------------
  // Decimal text of numbers and `parseInt`
  // ---------------------------------------------------------------------

  /** `c` is a digit in base `radix` (10 or 16). */
  predicate IsDigit(c: char, radix: nat) {
    || '0' <= c <= '9'
    || (radix == 16 && ('a' <= c <= 'f' || 'A' <= c <= 'F'))
  }

  function DigitValue(c: char): (v: nat)
    ensures '0' <= c <= '9' ==> v == c as int - '0' as int
    ensures v < 16
  {
    if '0' <= c <= '9' then c as int - '0' as int
    else if 'a' <= c <= 'f' then c as int - 'a' as int + 10
    else if 'A' <= c <= 'F' then c as int - 'A' as int + 10
    else 0
  }

  function DigitChar(d: nat): (c: char)
    requires d < 10
    ensures '0' <= c <= '9' && DigitValue(c) == d
  {
    ('0' as int + d) as char
  }

  /** The decimal text of `n`, as a template string renders a non-negative integer. */
  function NatToDecimal(n: nat): (r: string)
    ensures |r| >= 1
    ensures forall i :: 0 <= i < |r| ==> '0' <= r[i] <= '9'
    ensures r[0] == '0' ==> n == 0
  {
    if n < 10 then [DigitChar(n)] else NatToDecimal(n / 10) + [DigitChar(n % 10)]
  }

  function IntToDecimal(n: int): string {
    if n < 0 then "-" + NatToDecimal(-n) else NatToDecimal(n)
  }

  /** The longest prefix of `s` made of digits in base `radix`. */
  function LeadingDigits(s: string, radix: nat): (r: string)
    ensures |r| <= |s| && r == s[..|r|]
    ensures forall i :: 0 <= i < |r| ==> IsDigit(r[i], radix)
    ensures |r| < |s| ==> !IsDigit(s[|r|], radix)
  {
    if |s| > 0 && IsDigit(s[0], radix) then [s[0]] + LeadingDigits(s[1..], radix) else []
  }

  /** The number a run of digits denotes, most significant digit first. */
  function DigitsValue(ds: string, radix: nat): nat {
    if ds == [] then 0 else DigitsValue(ds[..|ds| - 1], radix) * radix + DigitValue(ds[|ds| - 1])
  }

  /**
   * `parseInt(s)` without a radix argument: leading white space is skipped, one
   * sign is read, a `0x`/`0X` prefix switches to base 16, and the longest run of
   * digits is read; no digits at all is NaN, here `None`.
   */
  function ParseInt(s: string): (r: Option<int>)
    ensures r.Some? ==> TrimStart(s) != "" && (r.value < 0 ==> TrimStart(s)[0] == '-')
  {
    var t := TrimStart(s);
    if |t| > 0 && t[0] == '-' then
      match ParseUnsigned(t[1..])
      case None => None
      case Some(v) => Some(-v)
    else if |t| > 0 && t[0] == '+' then ParseUnsigned(t[1..])
    else ParseUnsigned(t)
  }

  /** The digits after the sign: a `0x`/`0X` prefix selects base 16, otherwise base 10. */
  function ParseUnsigned(u: string): Option<int> {
    var hex := |u| >= 2 && u[0] == '0' && (u[1] == 'x' || u[1] == 'X');
    var radix := if hex then 16 else 10;
    var digits := LeadingDigits(if hex then u[2..] else u, radix);
    if digits == [] then None else Some(DigitsValue(digits, radix))
  }

  lemma {:induction false} DecimalValue(n: nat)
    ensures DigitsValue(NatToDecimal(n), 10) == n
  {
    if n >= 10 {
      var s := NatToDecimal(n / 10);
      var d := DigitChar(n % 10);
      assert (s + [d])[..|s + [d]| - 1] == s;
      DecimalValue(n / 10);
    }
  }

  lemma {:induction false} LeadingDigitsOfDecimal(ds: string, rest: string)
    requires forall i :: 0 <= i < |ds| ==> '0' <= ds[i] <= '9'
    requires rest == [] || !IsDigit(rest[0], 10)
    ensures LeadingDigits(ds + rest, 10) == ds
  {
    if ds != [] {
      assert (ds + rest)[1..] == ds[1..] + rest;
      LeadingDigitsOfDecimal(ds[1..], rest);
    } else {
      assert ds + rest == rest;
    }
  }

  /** The text may follow a number without being read as part of it. */
  predicate EndsNumber(rest: string) {
    rest == [] || (!IsDigit(rest[0], 10) && rest[0] != 'x' && rest[0] != 'X')
  }

  /**
   * `parseInt` reads back the decimal text of any integer, whatever non-digit
   * text follows it ("12abc" gives 12).
   */
  lemma ParseIntOfDecimal(n: int, rest: string)
    requires EndsNumber(rest)
    ensures ParseInt(IntToDecimal(n) + rest) == Some(n)
  {
    if n < 0 {
      var m: nat := -n;
      var s := "-" + (NatToDecimal(m) + rest);
      assert IntToDecimal(n) == "-" + NatToDecimal(m);
      assert IntToDecimal(n) + rest == s;
      ParseNegative(m, rest);
      assert ParseInt(s) == Some(n);
    } else {
      assert IntToDecimal(n) == NatToDecimal(n);
      ParseNonNegative(n, rest);
    }
  }

  lemma ParseNonNegative(m: nat, rest: string)
    requires EndsNumber(rest)
    ensures ParseInt(NatToDecimal(m) + rest) == Some(m as int)
  {
    var u := NatToDecimal(m) + rest;
    UnsignedOfDecimal(m, rest);
    NoLeadingSpace(u);
    assert u[0] != '-' && u[0] != '+';
  }

  lemma ParseNegative(m: nat, rest: string)
    requires EndsNumber(rest) && m > 0
    ensures ParseInt("-" + (NatToDecimal(m) + rest)) == Some(-(m as int))
  {
    var u := NatToDecimal(m) + rest;
    var s := "-" + u;
    UnsignedOfDecimal(m, rest);
    NoLeadingSpace(s);
    assert s[0] == '-';
    assert s[1..] == u;
  }

  lemma NoLeadingSpace(s: string)
    requires s != [] && (s[0] == '-' || '0' <= s[0] <= '9')
    ensures TrimStart(s) == s
  {
    assert !IsSpace(s[0]);
  }

  lemma UnsignedOfDecimal(m: nat, rest: string)
    requires EndsNumber(rest)
    ensures ParseUnsigned(NatToDecimal(m) + rest) == Some(m)
  {
    var ds := NatToDecimal(m);
    var u := ds + rest;
    DecimalValue(m);
    LeadingDigitsOfDecimal(ds, rest);
    if |u| >= 2 && u[0] == '0' {
      assert m == 0 && |ds| == 1;
      assert u[1] == rest[0];
    }
  }

  // ---------------------------------------------------------------------
  // Array.prototype.join
  // ---------------------------------------------------------------------

  /** `parts.join(sep)`: the parts in order, with `sep` between neighbours and nowhere else. */
  function Join(parts: seq<string>, sep: string): (r: string)
    ensures |parts| == 0 ==> r == ""
    ensures |parts| == 1 ==> r == parts[0]
  {
    if |parts| == 0 then "" else if |parts| == 1 then parts[0] else parts[0] + sep + Join(parts[1..], sep)
  }

  /** Appending a part appends the separator and that part: the parts keep their order. */
  lemma {:induction false} JoinSnoc(parts: seq<string>, x: string, sep: string)
    requires |parts| >= 1
    ensures Join(parts + [x], sep) == Join(parts, sep) + sep + x
  {
    var ps := parts + [x];
    if |parts| == 1 {
      assert ps[1..] == [x];
    } else {
      assert ps[1..] == parts[1..] + [x];
      JoinSnoc(parts[1..], x, sep);
    }
  }

  /** Every part appears in the joined text. */
  lemma {:induction false} JoinContainsParts(parts: seq<string>, sep: string, k: nat)
    requires k < |parts|
    ensures Contains(Join(parts, sep), parts[k])
  {
    var j := Join(parts, sep);
    if |parts| > 1 {
      if k == 0 {
        assert j[..|parts[0]|] == parts[0];
        assert OccursAt(j, parts[0], 0);
      } else {
        JoinContainsParts(parts[1..], sep, k - 1);
        var tail := Join(parts[1..], sep);
        var i :| OccursAt(tail, parts[k], i);
        var off := |parts[0]| + |sep|;
        assert j == parts[0] + sep + tail;
        assert j[off + i..off + i + |parts[k]|] == tail[i..i + |parts[k]|];
        assert OccursAt(j, parts[k], off + i);
      }
    } else {
      assert OccursAt(j, parts[k], 0);
    }
  }
}
