// Shared value helpers: optional values, ASCII case mapping, decimal text,
// prefix/suffix tests, space-separated fields and Math.random draws.

module Common {

  datatype Option<+T> = None | Some(value: T)

  /** Identifiers of stored documents, compared exactly as given. */
  type Id = string

  /** A GPS point of the schemas' `pointSchema`. */
  datatype Point = Point(lat: real, lng: real)

  /** A point as it arrives in a request body; each coordinate may be missing. */
  datatype PointInput = PointInput(lat: Option<real>, lng: Option<real>)

  predicate IsComplete(p: PointInput) {
    p.lat.Some? && p.lng.Some?
  }

  function PointOf(p: PointInput): (r: Point)
    requires IsComplete(p)
    ensures r.lat == p.lat.value && r.lng == p.lng.value
  {
    Point(p.lat.value, p.lng.value)
  }

  /** The value of an optional field, or the given default when it is absent. */
  function Or<T>(o: Option<T>, default: T): (r: T)
    ensures o.Some? ==> r == o.value
    ensures o.None? ==> r == default
  {
    if o.Some? then o.value else default
  }

  /** An optional string that is present and not "": a truthy JavaScript
      string, and a value a required Mongoose String path accepts. */
  predicate Filled(o: Option<string>) {
    o.Some? && o.value != ""
  }

  /** A String path an update sets: when present it must not be "". */
  predicate SetStringOk(o: Option<string>) {
    o.Some? ==> o.value != ""
  }

  // ---------------------------------------------------------------------
  // Case mapping (ASCII letters; every other character is left alone)
  // ---------------------------------------------------------------------

  function UpperChar(c: char): char {
    if 'a' <= c <= 'z' then (c as int - 32) as char else c
  }

  function LowerChar(c: char): char {
    if 'A' <= c <= 'Z' then (c as int + 32) as char else c
  }

  /** String.prototype.toUpperCase restricted to ASCII. */
  function Upper(s: string): (r: string)
    ensures |r| == |s|
    ensures forall i :: 0 <= i < |s| ==> r[i] == UpperChar(s[i])
  {
    seq(|s|, i requires 0 <= i < |s| => UpperChar(s[i]))
  }

  /** String.prototype.toLowerCase restricted to ASCII. */
  function Lower(s: string): (r: string)
    ensures |r| == |s|
    ensures forall i :: 0 <= i < |s| ==> r[i] == LowerChar(s[i])
  {
    seq(|s|, i requires 0 <= i < |s| => LowerChar(s[i]))
  }

  predicate NoLowerCase(s: string) {
    forall i :: 0 <= i < |s| ==> !('a' <= s[i] <= 'z')
  }

  lemma UpperIsIdempotent(s: string)
    ensures NoLowerCase(Upper(s))
    ensures Upper(Upper(s)) == Upper(s)
  {
  }

  lemma LowerIsIdempotent(s: string)
    ensures Lower(Lower(s)) == Lower(s)
  {
  }

  /** Upper-casing distributes over concatenation, so upper-casing a joined
      string is the same as joining the upper-cased parts. */
  lemma UpperConcat(a: string, b: string)
    ensures Upper(a + b) == Upper(a) + Upper(b)
  {
    assert forall i :: 0 <= i < |a + b| ==> Upper(a + b)[i] == (Upper(a) + Upper(b))[i];
  }

  // ---------------------------------------------------------------------
  // Prefixes and suffixes
  // ---------------------------------------------------------------------

  predicate StartsWith(s: string, prefix: string) {
    |prefix| <= |s| && s[..|prefix|] == prefix
  }

  predicate EndsWith(s: string, suffix: string) {
    |suffix| <= |s| && s[|s| - |suffix|..] == suffix
  }

  // ---------------------------------------------------------------------
  // Decimal text of integers (String(n) / template literals for integers)
  // ---------------------------------------------------------------------

  function DigitChar(d: nat): char
    requires d < 10
  {
    ('0' as int + d) as char
  }

  predicate IsDigit(c: char) {
    '0' <= c <= '9'
  }

  predicate AllDigits(s: string) {
    forall i :: 0 <= i < |s| ==> IsDigit(s[i])
  }

  /** Decimal digits of a natural number, without leading zeros. */
  function Digits(n: nat): (r: string)
    ensures |r| >= 1 && AllDigits(r)
    ensures n >= 10 ==> r[0] != '0'
    decreases n
  {
    if n < 10 then [DigitChar(n)] else Digits(n / 10) + [DigitChar(n % 10)]
  }

  /** The value read back from a string of decimal digits. */
  function DigitsValue(s: string): nat
    requires AllDigits(s)
  {
    if s == [] then 0
    else DigitsValue(s[..|s| - 1]) * 10 + (s[|s| - 1] as int - '0' as int)
  }

  /** Writing a number in decimal and reading it back gives the number. */
  lemma {:induction false} DigitsRoundTrip(n: nat)
    ensures DigitsValue(Digits(n)) == n
    decreases n
  {
    if n >= 10 {
      DigitsRoundTrip(n / 10);
      var s := Digits(n);
      assert s[..|s| - 1] == Digits(n / 10);
    }
  }

  /** Two different numbers never share a decimal text. */
  lemma DigitsInjective(m: nat, n: nat)
    requires Digits(m) == Digits(n)
    ensures m == n
  {
    DigitsRoundTrip(m);
    DigitsRoundTrip(n);
  }

  /** Decimal text of an integer, with a leading '-' for negative values. */
  function IntToString(i: int): (r: string)
    ensures |r| >= 1
    ensures (i < 0) == (r[0] == '-')
  {
    if i < 0 then "-" + Digits(-i) else Digits(i)
  }

  lemma IntToStringInjective(i: int, j: int)
    requires IntToString(i) == IntToString(j)
    ensures i == j
  {
    if i < 0 {
      assert IntToString(i)[1..] == Digits(-i);
      assert IntToString(j)[1..] == Digits(-j);
      DigitsInjective(-i, -j);
    } else {
      DigitsInjective(i, j);
    }
  }

  /** String.prototype.padStart(2, '0'). */
  function PadStart2(s: string): (r: string)
    ensures |s| >= 2 ==> r == s
    ensures |s| < 2 ==> |r| == 2
  {
    if |s| >= 2 then s else seq(2 - |s|, _ => '0') + s
  }

  // ---------------------------------------------------------------------
  // Separated fields (String.prototype.split with a one-character separator)
  // ---------------------------------------------------------------------

  /** The fields of s between occurrences of sep; there is always at least one. */
  function Fields(s: string, sep: char): (r: seq<string>)
    ensures |r| >= 1
    ensures forall k, i :: 0 <= k < |r| && 0 <= i < |r[k]| ==> r[k][i] != sep
    decreases |s|
  {
    if s == [] then [""]
    else
      var rest := Fields(s[1..], sep);
      if s[0] == sep then [""] + rest
      else [[s[0]] + rest[0]] + rest[1..]
  }

  /** Joining fields with the separator between them. */
  function Join(parts: seq<string>, sep: char): string
    requires |parts| >= 1
  {
    if |parts| == 1 then parts[0] else parts[0] + [sep] + Join(parts[1..], sep)
  }

  /** Splitting and joining again gives back the original string. */
  lemma {:induction false} FieldsJoin(s: string, sep: char)
    ensures Join(Fields(s, sep), sep) == s
    decreases |s|
  {
    if s != [] {
      FieldsJoin(s[1..], sep);
      var rest := Fields(s[1..], sep);
      if s[0] == sep {
        assert Fields(s, sep) == [""] + rest;
        assert ([""] + rest)[1..] == rest;
      } else {
        if |rest| == 1 {
          assert Join(rest, sep) == rest[0];
        } else {
          assert Join(rest, sep) == rest[0] + [sep] + Join(rest[1..], sep);
          assert ([[s[0]] + rest[0]] + rest[1..])[1..] == rest[1..];
        }
      }
    }
  }

  predicate NoSep(s: string, sep: char) {
    forall i :: 0 <= i < |s| ==> s[i] != sep
  }

  /** Splitting a separator-free prefix followed by more text: the prefix
      opens the first field. */
  lemma {:induction false} FieldsOfPrefix(a: string, s: string, sep: char)
    requires NoSep(a, sep)
    ensures Fields(a + s, sep) == [a + Fields(s, sep)[0]] + Fields(s, sep)[1..]
    decreases |a|
  {
    if a != [] {
      FieldsOfPrefix(a[1..], s, sep);
      assert (a + s)[1..] == a[1..] + s;
      assert (a + s)[0] == a[0];
      assert [a[0]] + (a[1..] + Fields(s, sep)[0]) == a + Fields(s, sep)[0];
    } else {
      var f := Fields(s, sep);
      assert a + s == s;
      assert a + f[0] == f[0];
      assert [f[0]] + f[1..] == f;
    }
  }

  /** Joining separator-free fields and splitting again gives back the fields. */
  lemma {:induction false} JoinFields(parts: seq<string>, sep: char)
    requires |parts| >= 1
    requires forall k :: 0 <= k < |parts| ==> NoSep(parts[k], sep)
    ensures Fields(Join(parts, sep), sep) == parts
    decreases |parts|
  {
    if |parts| == 1 {
      FieldsOfPrefix(parts[0], "", sep);
      assert parts[0] + "" == parts[0];
    } else {
      var rest := Join(parts[1..], sep);
      JoinFields(parts[1..], sep);
      assert Join(parts, sep) == parts[0] + ([sep] + rest);
      FieldsOfPrefix(parts[0], [sep] + rest, sep);
      assert ([sep] + rest)[1..] == rest;
      assert Fields([sep] + rest, sep) == [""] + Fields(rest, sep);
      assert parts[0] + "" == parts[0];
      assert parts == [parts[0]] + parts[1..];
    }
  }

  /** The field at index k of s.split(sep), or None when there is no such field. */
  function FieldAt(s: string, sep: char, k: nat): Option<string> {
    var f := Fields(s, sep);
    if k < |f| then Some(f[k]) else None
  }

  // ---------------------------------------------------------------------
  // Math.floor(Math.random() * n)
  // ---------------------------------------------------------------------

  /** A Math.random() result. */
  predicate IsDraw(r: real) {
    0.0 <= r < 1.0
  }

  /** Math.floor(r * n) for a draw r: an index into a collection of n items. */
  function Pick(n: nat, r: real): (k: nat)
    requires n > 0 && IsDraw(r)
    ensures k < n
  {
    PickBound(n, r);
    (r * n as real).Floor
  }

  lemma PickBound(n: nat, r: real)
    requires n > 0 && IsDraw(r)
    ensures 0 <= (r * n as real).Floor < n
  {
    assert 0.0 <= r * n as real;
    assert r * n as real < n as real;
  }

  lemma PickOfZero(n: nat)
    requires n > 0
    ensures Pick(n, 0.0) == 0
  {
  }
}
