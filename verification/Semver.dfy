/** Version comparison on `x.y.z` strings with an optional leading `v`; anything else counts as 0.0.0. */
module Semver {
  import opened Common

  datatype Version = Version(major: nat, minor: nat, patch: nat)

  predicate IsDigit(c: char) {
    '0' <= c <= '9'
  }

  predicate Digits(s: string) {
    s != [] && forall i :: 0 <= i < |s| ==> IsDigit(s[i])
  }

  function Number(s: string): nat
    requires forall i :: 0 <= i < |s| ==> IsDigit(s[i])
  {
    if s == [] then 0
    else
      assert IsDigit(s[|s| - 1]);
      10 * Number(s[..|s| - 1]) + (s[|s| - 1] as int - '0' as int)
  }

  /** The first `.` of `s`, or its length. */
  function Dot(s: string): (i: nat)
    ensures i <= |s|
    ensures i < |s| ==> s[i] == '.'
    ensures forall j :: 0 <= j < i ==> s[j] != '.'
  {
    if s == [] || s[0] == '.' then 0 else 1 + Dot(s[1..])
  }

  /** The three numbers of `digits.digits.digits`. */
  function Triple(s: string): Option<Version> {
    var i := Dot(s);
    if i == |s| then None else
      var rest := s[i + 1..];
      var j := Dot(rest);
      if j == |rest| then None else
        var last := rest[j + 1..];
        if Digits(s[..i]) && Digits(rest[..j]) && Digits(last) then
          Some(Version(Number(s[..i]), Number(rest[..j]), Number(last)))
        else None
  }

  /** The version a string spells, if it matches `v?digits.digits.digits`. */
  function Parse(text: string): Option<Version> {
    Triple(if text != [] && text[0] == 'v' then text[1..] else text)
  }

  function ParseOrZero(s: string): Version {
    var v := Parse(s);
    if v.Some? then v.value else Version(0, 0, 0)
  }

  /** Negative, zero or positive as `a` is older than, equal to or newer than `b`. */
  function CompareSemver(a: string, b: string): int {
    var x, y := ParseOrZero(a), ParseOrZero(b);
    if x.major != y.major then x.major - y.major
    else if x.minor != y.minor then x.minor - y.minor
    else x.patch - y.patch
  }

  /** The version order, defined without reference to the comparison. */
  predicate Less(x: Version, y: Version) {
    || x.major < y.major
    || (x.major == y.major && x.minor < y.minor)
    || (x.major == y.major && x.minor == y.minor && x.patch < y.patch)
  }

  /** The version a string counts as: what it spells, or 0.0.0. */
  ghost function Spelled(s: string): Version {
    if Parse(s).Some? then Parse(s).value else Version(0, 0, 0)
  }

  lemma CompareOrders(a: string, b: string)
    ensures CompareSemver(a, b) < 0 <==> Less(Spelled(a), Spelled(b))
    ensures CompareSemver(a, b) == 0 <==> Spelled(a) == Spelled(b)
    ensures CompareSemver(a, b) > 0 <==> Less(Spelled(b), Spelled(a))
  {
  }

  // ---------------------------------------------------------------------------------------------
  // What is parsed
  // ---------------------------------------------------------------------------------------------

  /** A number in decimal, without leading zeros. */
  function Decimal(n: nat): (s: string)
    ensures s != []
  {
    if n < 10 then [DIGITS[n]] else Decimal(n / 10) + [DIGITS[n % 10]]
  }

  const DIGITS := "0123456789"

  function Printed(v: Version): string {
    Decimal(v.major) + "." + (Decimal(v.minor) + "." + Decimal(v.patch))
  }

  lemma DigitIs(d: nat)
    requires d < 10
    ensures IsDigit(DIGITS[d]) && DIGITS[d] as int - '0' as int == d
  {
  }

  lemma NumberAppend(s: string, d: nat)
    requires (forall i :: 0 <= i < |s| ==> IsDigit(s[i])) && d < 10
    ensures forall i :: 0 <= i < |s + [DIGITS[d]]| ==> IsDigit((s + [DIGITS[d]])[i])
    ensures Number(s + [DIGITS[d]]) == 10 * Number(s) + d
  {
    DigitIs(d);
    assert (s + [DIGITS[d]])[..|s|] == s;
  }

  /** Reading a printed number gives the number back. */
  lemma {:induction false} NumberOfDecimal(n: nat)
    ensures Digits(Decimal(n)) && Number(Decimal(n)) == n
  {
    if n < 10 {
      NumberAppend("", n);
      assert "" + [DIGITS[n]] == [DIGITS[n]];
    } else {
      NumberOfDecimal(n / 10);
      NumberAppend(Decimal(n / 10), n % 10);
    }
  }

  lemma {:induction false} DotAfter(a: string, rest: string)
    requires '.' !in a
    ensures Dot(a + "." + rest) == |a|
  {
    if a == "" {
      assert "" + "." + rest == "." + rest;
    } else {
      assert (a + "." + rest)[1..] == a[1..] + "." + rest;
      DotAfter(a[1..], rest);
    }
  }

  lemma SplitAt(s: string, a: string, rest: string)
    requires Digits(a) && s == a + "." + rest
    ensures Dot(s) == |a| < |s| && s[..|a|] == a && s[|a| + 1..] == rest && s[0] != 'v'
  {
    DotAfter(a, rest);
    assert s[0] == a[0];
  }

  lemma TripleOf(s: string, a: string, b: string, c: string)
    requires Digits(a) && Digits(b) && Digits(c) && s == a + "." + (b + "." + c)
    ensures Triple(s) == Some(Version(Number(a), Number(b), Number(c))) && s[0] != 'v'
  {
    SplitAt(s, a, b + "." + c);
    SplitAt(b + "." + c, b, c);
  }

  /** Three runs of digits separated by dots, after an optional `v`. */
  ghost predicate Shaped(text: string, a: string, b: string, c: string) {
    && Digits(a) && Digits(b) && Digits(c)
    && (text == a + "." + (b + "." + c) || text == "v" + (a + "." + (b + "." + c)))
  }

  lemma ParseShaped(text: string, a: string, b: string, c: string)
    requires Shaped(text, a, b, c)
    ensures Parse(text) == Some(Version(Number(a), Number(b), Number(c)))
  {
    var s := a + "." + (b + "." + c);
    TripleOf(s, a, b, c);
    assert ("v" + s)[1..] == s;
  }

  /** Parsing a printed version, with or without the leading `v`, gives its three numbers back. */
  lemma ParsePrinted(v: Version)
    ensures Parse(Printed(v)) == Some(v) && Parse("v" + Printed(v)) == Some(v)
  {
    var a, b, c := Decimal(v.major), Decimal(v.minor), Decimal(v.patch);
    NumberOfDecimal(v.major);
    NumberOfDecimal(v.minor);
    NumberOfDecimal(v.patch);
    ParseShaped(Printed(v), a, b, c);
    ParseShaped("v" + Printed(v), a, b, c);
  }

  lemma ThreeParts(s: string, i: nat)
    requires i < |s|
    ensures s == s[..i] + s[i..i + 1] + s[i + 1..]
  {
  }

  lemma CutAtDot(s: string)
    requires Dot(s) < |s|
    ensures s == s[..Dot(s)] + "." + s[Dot(s) + 1..]
  {
    var i := Dot(s);
    assert s[i..i + 1] == ".";
    ThreeParts(s, i);
  }

  lemma TripleShape(s: string) returns (a: string, b: string, c: string)
    requires Triple(s).Some?
    ensures Digits(a) && Digits(b) && Digits(c) && s == a + "." + (b + "." + c)
  {
    var i := Dot(s);
    var rest := s[i + 1..];
    var j := Dot(rest);
    a, b, c := s[..i], rest[..j], rest[j + 1..];
    assert rest == b + "." + c by {
      CutAtDot(rest);
    }
    CutAtDot(s);
  }

  /** Nothing else is parsed. */
  lemma ParsesIff(text: string)
    ensures Parse(text).Some? <==> exists a, b, c :: Shaped(text, a, b, c)
  {
    if Parse(text).Some? {
      var s := if text != [] && text[0] == 'v' then text[1..] else text;
      var a, b, c := TripleShape(s);
      assert s != text ==> text == "v" + s;
      assert Shaped(text, a, b, c);
    }
    forall a, b, c | Shaped(text, a, b, c)
      ensures Parse(text).Some?
    {
      ParseShaped(text, a, b, c);
    }
  }
}
