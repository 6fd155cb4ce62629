/**
 * The JavaScript string primitives the application relies on: white space as
 * ECMA-262 defines it, `trim`, `includes`, `length` in UTF-16 code units,
 * `parseInt` without a radix, and the decimal rendering of a number.
 */
module Text {
  import opened Wrappers

  /** ECMA-262 WhiteSpace and LineTerminator code points: what `String.prototype.trim`
      strips, what `parseInt` skips and what the regular-expression class `\s` matches. */
  predicate IsSpace(c: char) {
    var n := c as int;
    n == 0x09 || n == 0x0A || n == 0x0B || n == 0x0C || n == 0x0D || n == 0x20
    || n == 0xA0 || n == 0x1680 || (0x2000 <= n <= 0x200A)
    || n == 0x2028 || n == 0x2029 || n == 0x202F || n == 0x205F || n == 0x3000 || n == 0xFEFF
  }

  /** Number of white-space characters at the start of `s`. */
  function LeadingSpaces(s: string): (n: nat)
    ensures n <= |s|
    ensures forall k :: 0 <= k < n ==> IsSpace(s[k])
    ensures n < |s| ==> !IsSpace(s[n])
  {
    if |s| > 0 && IsSpace(s[0]) then 1 + LeadingSpaces(s[1..]) else 0
  }

  /** Number of white-space characters at the end of `s`. */
  function TrailingSpaces(s: string): (n: nat)
    ensures n <= |s|
    ensures forall k :: |s| - n <= k < |s| ==> IsSpace(s[k])
    ensures n < |s| ==> !IsSpace(s[|s| - 1 - n])
  {
    if |s| > 0 && IsSpace(s[|s| - 1]) then 1 + TrailingSpaces(s[..|s| - 1]) else 0
  }

  /** `String.prototype.trim`: the longest infix of `s` that neither starts nor
      ends with white space, obtained by dropping white space at both ends. */
  function Trim(s: string): (r: string)
    ensures |r| <= |s|
    ensures r == [] || (!IsSpace(r[0]) && !IsSpace(r[|r| - 1]))
    ensures exists i, j {:trigger s[i..j]} :: 0 <= i <= j <= |s| && r == s[i..j]
              && (forall k :: 0 <= k < i ==> IsSpace(s[k]))
              && (forall k :: j <= k < |s| ==> IsSpace(s[k]))
  {
    var i := LeadingSpaces(s);
    var t := s[i..];
    var j := i + |t| - TrailingSpaces(t);
    assert t[..|t| - TrailingSpaces(t)] == s[i..j];
    s[i..j]
  }

  /** Trimming twice is trimming once. */
  lemma TrimIdempotent(s: string)
    ensures Trim(Trim(s)) == Trim(s)
  {
    var r := Trim(s);
    assert LeadingSpaces(r) == 0;
    assert TrailingSpaces(r) == 0;
  }

  /** A string is blank (trims to "") exactly when every character is white space. */
  lemma TrimEmptyIffAllSpace(s: string)
    ensures Trim(s) == [] <==> forall k :: 0 <= k < |s| ==> IsSpace(s[k])
  {
    if Trim(s) == [] {
      var i, j :| 0 <= i <= j <= |s| && Trim(s) == s[i..j]
                  && (forall k :: 0 <= k < i ==> IsSpace(s[k]))
                  && (forall k :: j <= k < |s| ==> IsSpace(s[k]));
      assert i == j;
    }
  }

  /** A string with no space at either end is its own trim. */
  lemma TrimNoOuterSpace(s: string)
    requires s == [] || (!IsSpace(s[0]) && !IsSpace(s[|s| - 1]))
    ensures Trim(s) == s
  {
    if s != [] {
      assert LeadingSpaces(s) == 0;
      assert TrailingSpaces(s) == 0;
    }
  }

  /** `String.prototype.length`: the number of UTF-16 code units, so a code point
      outside the Basic Multilingual Plane counts twice. */
  function Utf16Length(s: string): (n: nat)
    ensures |s| <= n <= 2 * |s|
    ensures (forall k :: 0 <= k < |s| ==> s[k] as int < 0x1_0000) ==> n == |s|
  {
    if s == [] then 0 else (if s[0] as int < 0x1_0000 then 1 else 2) + Utf16Length(s[1..])
  }

  /** JavaScript truthiness of an optional string: present and non-empty. */
  predicate Truthy(s: Option<string>) {
    s.Some? && s.value != ""
  }

  predicate StartsWith(s: string, prefix: string) {
    |prefix| <= |s| && s[..|prefix|] == prefix
  }

  /** `String.prototype.includes`. */
  predicate Contains(s: string, sub: string)
    decreases |s|
  {
    StartsWith(s, sub) || (|s| > 0 && Contains(s[1..], sub))
  }

  /** `Contains` means that `sub` starts at some index of `s`. */
  lemma {:induction false} ContainsIff(s: string, sub: string)
    ensures Contains(s, sub) <==> exists i :: 0 <= i <= |s| && StartsWith(s[i..], sub)
    decreases |s|
  {
    if Contains(s, sub) {
      if !StartsWith(s, sub) {
        ContainsIff(s[1..], sub);
        var i :| 0 <= i <= |s[1..]| && StartsWith(s[1..][i..], sub);
        assert s[1..][i..] == s[i + 1..];
      } else {
        assert s[0..] == s;
      }
    } else {
      forall i | 0 <= i <= |s| ensures !StartsWith(s[i..], sub) {
        ContainsAt(s, sub, i);
      }
    }
  }

  /** An occurrence at index `i` makes `Contains` true. */
  lemma {:induction false} ContainsAt(s: string, sub: string, i: nat)
    requires i <= |s|
    ensures StartsWith(s[i..], sub) ==> Contains(s, sub)
    decreases i
  {
    if i > 0 {
      assert s[1..][i - 1..] == s[i..];
      ContainsAt(s[1..], sub, i - 1);
    } else {
      assert s[0..] == s;
    }
  }

  /** An occurrence in `b` is an occurrence in `a + b`. */
  lemma ContainsAppended(a: string, b: string, sub: string)
    requires Contains(b, sub)
    ensures Contains(a + b, sub)
  {
    ContainsIff(b, sub);
    var i :| 0 <= i <= |b| && StartsWith(b[i..], sub);
    assert (a + b)[|a| + i..] == b[i..];
    ContainsAt(a + b, sub, |a| + i);
  }

  /** When no character of `a` can start `sub`, an occurrence in `a + b` lies in `b`. */
  lemma ContainsPastPrefix(a: string, b: string, sub: string)
    requires sub != []
    requires forall k :: 0 <= k < |a| ==> a[k] != sub[0]
    ensures Contains(a + b, sub) ==> Contains(b, sub)
  {
    if Contains(a + b, sub) {
      ContainsIff(a + b, sub);
      var i :| 0 <= i <= |a + b| && StartsWith((a + b)[i..], sub);
      assert (a + b)[i] == sub[0];
      assert forall k :: 0 <= k < |a| ==> (a + b)[k] == a[k];
      assert i >= |a|;
      assert (a + b)[i..] == b[i - |a|..];
      ContainsAt(b, sub, i - |a|);
    }
  }

  predicate IsDigit(c: char) {
    '0' <= c <= '9'
  }

  /** The value of a digit or ASCII letter in radixes up to 36 (letters count from 10). */
  function DigitOf(c: char): nat {
    if '0' <= c <= '9' then c as int - '0' as int
    else if 'a' <= c <= 'z' then c as int - 'a' as int + 10
    else if 'A' <= c <= 'Z' then c as int - 'A' as int + 10
    else 36
  }

  predicate IsRadixDigit(c: char, radix: nat) {
    DigitOf(c) < radix
  }

  /** Length of the longest prefix of `s` made of digits of `radix`. */
  function DigitRun(s: string, radix: nat): (n: nat)
    ensures n <= |s|
    ensures forall k :: 0 <= k < n ==> IsRadixDigit(s[k], radix)
    ensures n < |s| ==> !IsRadixDigit(s[n], radix)
  {
    if |s| > 0 && IsRadixDigit(s[0], radix) then 1 + DigitRun(s[1..], radix) else 0
  }

  /** The number written by the digits `ds` in `radix`, most significant first. */
  function DigitsValue(ds: string, radix: nat): nat {
    if ds == [] then 0 else DigitsValue(ds[..|ds| - 1], radix) * radix + DigitOf(ds[|ds| - 1])
  }

  /** `parseInt(s)` with no radix argument; `None` stands for NaN. Leading white
      space is skipped, then an optional sign, then a `0x`/`0X` prefix selects
      radix 16; the longest run of digits that follows is the value. */
  function ParseInt(s: string): Option<int> {
    var t := s[LeadingSpaces(s)..];
    var negative := |t| > 0 && t[0] == '-';
    var u := if |t| > 0 && (t[0] == '-' || t[0] == '+') then t[1..] else t;
    var hex := |u| >= 2 && u[0] == '0' && (u[1] == 'x' || u[1] == 'X');
    var radix := if hex then 16 else 10;
    var v := if hex then u[2..] else u;
    var n := DigitRun(v, radix);
    if n == 0 then None
    else
      var m: int := DigitsValue(v[..n], radix);
      Some(if negative then -m else m)
  }

  function DigitChar(d: nat): (c: char)
    requires d < 10
    ensures IsDigit(c) && DigitOf(c) == d
  {
    ('0' as int + d) as char
  }

  /** The decimal rendering of `n` (`String(n)` for a non-negative integer). */
  function Decimal(n: nat): (r: string)
    ensures |r| > 0
    ensures forall k :: 0 <= k < |r| ==> IsDigit(r[k])
    ensures r[0] == '0' <==> n == 0
  {
    if n < 10 then [DigitChar(n)] else Decimal(n / 10) + [DigitChar(n % 10)]
  }

  /** Reading back a decimal rendering gives the number. */
  lemma {:induction false} DecimalRoundTrip(n: nat)
    ensures DigitsValue(Decimal(n), 10) == n
  {
    if n >= 10 {
      var r := Decimal(n);
      assert r[..|r| - 1] == Decimal(n / 10);
      DecimalRoundTrip(n / 10);
    }
  }

  /** `parseInt` of a decimal rendering followed by a non-digit is the number. */
  lemma ParseIntOfDecimal(n: nat, rest: string)
    requires rest == [] || !IsDigit(rest[0])
    requires n == 0 ==> rest == [] || (rest[0] != 'x' && rest[0] != 'X')
    ensures ParseInt(Decimal(n) + rest) == Some(n)
  {
    var d := Decimal(n);
    var s := d + rest;
    assert s[0] == d[0];
    assert LeadingSpaces(s) == 0;
    assert s[0..] == s;
    var n1 := DigitRun(s, 10);
    assert forall k :: 0 <= k < |d| ==> s[k] == d[k] && IsRadixDigit(s[k], 10);
    assert n1 >= |d|;
    assert |rest| > 0 ==> s[|d|] == rest[0] && !IsRadixDigit(s[|d|], 10);
    assert n1 <= |d|;
    assert s[..n1] == d;
    DecimalRoundTrip(n);
  }

  /** `parseInt` is NaN when, after white space, neither a sign nor a digit follows. */
  lemma ParseIntNaN(s: string)
    requires LeadingSpaces(s) == |s|
          || (var c := s[LeadingSpaces(s)]; !IsDigit(c) && c != '+' && c != '-')
    ensures ParseInt(s) == None
  {
  }
}
