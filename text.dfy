/** Option and Result, the failure-carrying values used across the model. */
module Options {

  datatype Option<+T> = None | Some(value: T)

  /** A call that either returns a value or raises an error. */
  datatype Result<+T, +E> = Ok(value: T) | Err(error: E)
}

/** Decimal rendering of integers, as Python's `str(int)` writes it, and its inverse. */
module Text {
  import opened Options

  predicate IsDigit(c: char) {
    '0' <= c <= '9'
  }

  predicate AllDigits(s: string) {
    forall i :: 0 <= i < |s| ==> IsDigit(s[i])
  }

  function DigitChar(d: nat): (c: char)
    requires d < 10
    ensures IsDigit(c)
  {
    ('0' as int + d) as char
  }

  function DigitValue(c: char): (d: nat)
    requires IsDigit(c)
    ensures d < 10
  {
    c as int - '0' as int
  }

  /** The value of a string of decimal digits, most significant first. */
  function DigitsValue(s: string): nat
    requires AllDigits(s)
  {
    if s == [] then 0 else DigitsValue(s[..|s| - 1]) * 10 + DigitValue(s[|s| - 1])
  }

  /** The decimal digits of `n`, without leading zeros. */
  function NatToString(n: nat): (s: string)
    ensures Canonical(s)
    ensures s[0] == '0' ==> n == 0
    ensures DigitsValue(s) == n
    decreases n
  {
    if n < 10 then
      [DigitChar(n)]
    else
      var s := NatToString(n / 10) + [DigitChar(n % 10)];
      assert s[..|s| - 1] == NatToString(n / 10);
      s
  }

  /** At least one digit, and no leading zero unless the number is zero itself. */
  predicate Canonical(s: string) {
    |s| >= 1 && AllDigits(s) && (s[0] == '0' ==> |s| == 1)
  }

  /** `str(n)`: a minus sign before the digits of a negative number. */
  function IntToString(n: int): (s: string)
    ensures |s| >= 1 && ')' !in s
    ensures s[0] == '-' <==> n < 0
  {
    if n < 0 then "-" + NatToString(-n) else NatToString(n)
  }

  /**
   * Reads back exactly the texts `str(n)` writes: canonical digits, or a minus
   * sign before canonical digits that are not zero. Leading zeros and `-0`
   * are refused, so every accepted text is the rendering of its value.
   */
  function ParseInt(s: string): (r: Option<int>)
    ensures r.Some? <==> Canonical(s) || (|s| >= 2 && s[0] == '-' && Canonical(s[1..]) && s[1] != '0')
    ensures r.Some? ==> s == IntToString(r.value)
  {
    if Canonical(s) then
      CanonicalDigits(s);
      Some(DigitsValue(s))
    else if |s| >= 2 && s[0] == '-' && Canonical(s[1..]) && s[1] != '0' then
      var magnitude := s[1..];
      CanonicalDigits(magnitude);
      NonZeroValue(magnitude);
      assert s == "-" + magnitude;
      var value: int := DigitsValue(magnitude);
      Some(-value)
    else
      None
  }

  /** Canonical digits are the rendering of their own value. */
  lemma {:induction false} CanonicalDigits(s: string)
    requires Canonical(s)
    ensures NatToString(DigitsValue(s)) == s
    decreases |s|
  {
    if |s| > 1 {
      var front := s[..|s| - 1];
      var last := s[|s| - 1];
      assert front[0] == s[0];
      assert Canonical(front);
      CanonicalDigits(front);
      NonZeroValue(front);
      var n := DigitsValue(s);
      assert n == DigitsValue(front) * 10 + DigitValue(last);
      assert n / 10 == DigitsValue(front) && n % 10 == DigitValue(last);
      assert s == front + [last];
    }
  }

  /** Digits that do not start with zero have a positive value. */
  lemma {:induction false} NonZeroValue(s: string)
    requires |s| >= 1 && AllDigits(s) && s[0] != '0'
    ensures DigitsValue(s) >= 1
    decreases |s|
  {
    if |s| > 1 {
      var front := s[..|s| - 1];
      assert front[0] == s[0];
      NonZeroValue(front);
    }
  }

  /** Rendering then parsing gives back the number: the text carries it faithfully. */
  lemma IntRoundTrip(n: int)
    ensures ParseInt(IntToString(n)) == Some(n)
  {
    var s := IntToString(n);
    if n < 0 {
      assert s[1..] == NatToString(-n);
      assert !IsDigit(s[0]);
      assert s[1] != '0';
    }
  }

  // ---------------------------------------------------------------------------
  // `sep.join(parts)` and where each part lands in the result.

  /** `sep.join(parts)`: the parts in order, `sep` between each two. */
  function JoinWith(sep: string, parts: seq<string>): string {
    if parts == [] then ""
    else if |parts| == 1 then parts[0]
    else parts[0] + sep + JoinWith(sep, parts[1..])
  }

  /** The number of characters in all the parts together. */
  function TotalLength(parts: seq<string>): nat {
    if parts == [] then 0 else |parts[0]| + TotalLength(parts[1..])
  }

  /** Where part `j` starts in `sep.join(parts)`: after each earlier part and its separator. */
  function PartOffset(sep: string, parts: seq<string>, j: nat): nat
    requires j <= |parts|
  {
    if j == 0 then 0 else |parts[0]| + |sep| + PartOffset(sep, parts[1..], j - 1)
  }

  lemma {:induction false} JoinLength(sep: string, parts: seq<string>)
    requires |parts| >= 1
    ensures |JoinWith(sep, parts)| == TotalLength(parts) + |sep| * (|parts| - 1)
  {
    if |parts| > 1 {
      JoinLength(sep, parts[1..]);
    }
  }

  /** Part `j` of a join sits at `PartOffset(sep, parts, j)`, followed by a separator unless it is the last. */
  lemma {:induction false} JoinSlice(sep: string, parts: seq<string>, j: nat)
    requires j < |parts|
    ensures var s := JoinWith(sep, parts); var o := PartOffset(sep, parts, j);
      o + |parts[j]| <= |s|
      && s[o..o + |parts[j]|] == parts[j]
      && (j + 1 < |parts| ==> o + |parts[j]| + |sep| <= |s| && s[o + |parts[j]|..o + |parts[j]| + |sep|] == sep)
  {
    if |parts| > 1 {
      var head := parts[0] + sep;
      var rest := JoinWith(sep, parts[1..]);
      assert JoinWith(sep, parts) == head + rest;
      if j > 0 {
        JoinSlice(sep, parts[1..], j - 1);
        var o' := PartOffset(sep, parts[1..], j - 1);
        SliceOfConcat(head, rest, o', o' + |parts[j]|);
        if j + 1 < |parts| {
          SliceOfConcat(head, rest, o' + |parts[j]|, o' + |parts[j]| + |sep|);
        }
      }
    }
  }

  lemma SliceOfConcat<T>(a: seq<T>, b: seq<T>, x: nat, y: nat)
    requires x <= y <= |b|
    ensures (a + b)[|a| + x..|a| + y] == b[x..y]
  {
  }
}
