/** The few Python string operations the schema layer relies on: `str(int)`, `",".join(...)`,
    `str.strip()` and the digit test behind the `\d` pattern class. */
module Text {
  import opened Wrappers

  predicate IsAsciiDigit(c: char) {
    '0' <= c <= '9'
  }

  predicate AllDigits(s: string) {
    forall i :: 0 <= i < |s| ==> IsAsciiDigit(s[i])
  }

  function DigitChar(d: nat): (c: char)
    requires d < 10
    ensures IsAsciiDigit(c)
  {
    ['0', '1', '2', '3', '4', '5', '6', '7', '8', '9'][d]
  }

  function DigitValue(c: char): (d: nat)
    requires IsAsciiDigit(c)
    ensures d < 10 && DigitChar(d) == c
  {
    (c as int - '0' as int) as nat
  }

  // ---------------------------------------------------------------------------
  // Decimal rendering: Python's str(n) on an int
  // ---------------------------------------------------------------------------

  /** The decimal digits of `n`, most significant first, without leading zeros. */
  function NatToString(n: nat): (r: string)
    ensures |r| >= 1 && AllDigits(r)
    ensures |r| > 1 ==> r[0] != '0'
  {
    if n < 10 then [DigitChar(n)] else NatToString(n / 10) + [DigitChar(n % 10)]
  }

  /** Python's `str(n)`: a minus sign before the digits of a negative number. */
  function IntToString(n: int): (r: string)
    ensures |r| >= 1
    ensures n >= 0 <==> AllDigits(r)
  {
    if n < 0 then
      var r := "-" + NatToString(-n);
      assert !IsAsciiDigit(r[0]);
      r
    else NatToString(n)
  }

  /** The value of a non-empty string of decimal digits; None for anything else. */
  function ParseNat(s: string): (r: Option<nat>)
    ensures r.Some? <==> |s| >= 1 && AllDigits(s)
  {
    if |s| == 0 || !IsAsciiDigit(s[|s| - 1]) then None
    else if |s| == 1 then Some(DigitValue(s[0]))
    else match ParseNat(s[..|s| - 1])
      case None => None
      case Some(v) => Some(v * 10 + DigitValue(s[|s| - 1]))
  }

  /** The inverse of `IntToString`: an optional minus sign followed by decimal digits. */
  function ParseInt(s: string): (r: Option<int>)
  {
    if |s| >= 1 && s[0] == '-' then
      match ParseNat(s[1..])
      case None => None
      case Some(v) => Some(-(v as int))
    else
      match ParseNat(s)
      case None => None
      case Some(v) => Some(v)
  }

  lemma DigitValueOfChar(d: nat)
    requires d < 10
    ensures DigitValue(DigitChar(d)) == d
  {
  }

  lemma {:induction false} ParseNatToString(n: nat)
    ensures ParseNat(NatToString(n)) == Some(n)
  {
    if n < 10 {
      DigitValueOfChar(n);
    } else {
      var s := NatToString(n);
      assert s[..|s| - 1] == NatToString(n / 10);
      assert s[|s| - 1] == DigitChar(n % 10);
      DigitValueOfChar(n % 10);
      ParseNatToString(n / 10);
      assert (n / 10) * 10 + n % 10 == n;
    }
  }

  /** `str(n)` never loses information: parsing it back yields `n`. */
  lemma IntToStringRoundTrip(n: int)
    ensures ParseInt(IntToString(n)) == Some(n)
  {
    ParseNatToString(if n < 0 then -n else n);
    if n < 0 {
      assert IntToString(n)[1..] == NatToString(-n);
    } else {
      assert NatToString(n)[0] != '-';
    }
  }

  function Pow10(k: nat): (p: nat)
    ensures p >= 1
  {
    if k == 0 then 1 else 10 * Pow10(k - 1)
  }

  /** `n` has at most `k` decimal digits exactly when it is below 10^k. */
  lemma {:induction false} DigitCountBound(n: nat, k: nat)
    requires k >= 1
    ensures |NatToString(n)| <= k <==> n < Pow10(k)
  {
    if n >= 10 && k > 1 {
      DigitCountBound(n / 10, k - 1);
    }
    if n >= 10 && k == 1 {
      assert |NatToString(n)| == |NatToString(n / 10)| + 1;
    }
  }

  /** A natural number is written with exactly six digits exactly when it lies in
      100000..999999, the range the pincode validators accept. */
  lemma SixDigits(n: nat)
    ensures |NatToString(n)| == 6 <==> 100000 <= n <= 999999
  {
    DigitCountBound(n, 6);
    DigitCountBound(n, 5);
    assert Pow10(5) == 100000 && Pow10(6) == 1000000;
  }

  // ---------------------------------------------------------------------------
  // sep.join(parts) and its inverse, str.split(sep)
  // ---------------------------------------------------------------------------

  /** Python's `sep.join(parts)` for a one-character separator. */
  function Join(sep: char, parts: seq<string>): (r: string)
  {
    if |parts| == 0 then ""
    else if |parts| == 1 then parts[0]
    else parts[0] + [sep] + Join(sep, parts[1..])
  }

  /** Python's `s.split(sep)` for a one-character separator: never empty, `[""]` for `""`. */
  function Split(sep: char, s: string): (r: seq<string>)
    ensures |r| >= 1
  {
    if s == [] then [""]
    else
      var rest := Split(sep, s[1..]);
      if s[0] == sep then [""] + rest else [[s[0]] + rest[0]] + rest[1..]
  }

  lemma {:induction false} SplitNoSeparator(sep: char, a: string, b: string)
    requires sep !in a
    ensures Split(sep, a + b)[0] == a + Split(sep, b)[0]
    ensures Split(sep, a + b)[1..] == Split(sep, b)[1..]
  {
    if a != [] {
      assert a[0] in a && (a + b)[0] == a[0];
      assert (a + b)[1..] == a[1..] + b;
      assert forall c :: c in a[1..] ==> c in a;
      SplitNoSeparator(sep, a[1..], b);
      var rest := Split(sep, a[1..] + b);
      assert Split(sep, a + b) == [[a[0]] + rest[0]] + rest[1..];
      assert [a[0]] + (a[1..] + Split(sep, b)[0]) == a + Split(sep, b)[0];
    } else {
      assert a + b == b;
    }
  }

  /** Splitting a join gives the parts back, provided no part contains the separator
      (`[]` joins to `""`, which splits to `[""]`, hence the non-empty requirement). */
  lemma {:induction false} SplitJoin(sep: char, parts: seq<string>)
    requires |parts| >= 1
    requires forall i :: 0 <= i < |parts| ==> sep !in parts[i]
    ensures Split(sep, Join(sep, parts)) == parts
  {
    if |parts| == 1 {
      SplitNoSeparator(sep, parts[0], "");
      assert parts[0] + "" == parts[0];
    } else {
      var tail := Join(sep, parts[1..]);
      assert forall i :: 0 <= i < |parts[1..]| ==> parts[1..][i] == parts[i + 1];
      SplitJoin(sep, parts[1..]);
      assert Join(sep, parts) == parts[0] + ([sep] + tail);
      SplitNoSeparator(sep, parts[0], [sep] + tail);
      assert ([sep] + tail)[1..] == tail;
      assert Split(sep, [sep] + tail) == [""] + Split(sep, tail);
      var r := Split(sep, Join(sep, parts));
      assert r[0] == parts[0] && r[1..] == parts[1..];
      assert r == [r[0]] + r[1..];
      assert parts == [parts[0]] + parts[1..];
    }
  }

  // ---------------------------------------------------------------------------
  // str.strip()
  // ---------------------------------------------------------------------------

  /** Python's `str.isspace` on one character (the characters `str.strip()` removes). */
  predicate IsSpace(c: char) {
    || '\U{9}' <= c <= '\U{D}'
    || '\U{1C}' <= c <= '\U{20}'
    || c == '\U{85}' || c == '\U{A0}' || c == '\U{1680}'
    || '\U{2000}' <= c <= '\U{200A}'
    || c == '\U{2028}' || c == '\U{2029}' || c == '\U{202F}' || c == '\U{205F}' || c == '\U{3000}'
  }

  predicate AllSpace(s: string) {
    forall i :: 0 <= i < |s| ==> IsSpace(s[i])
  }

  function StripLeft(s: string): (r: string)
    ensures |r| <= |s|
    ensures r == [] || !IsSpace(r[0])
  {
    if s != [] && IsSpace(s[0]) then StripLeft(s[1..]) else s
  }

  function StripRight(s: string): (r: string)
    ensures |r| <= |s|
    ensures r == [] || !IsSpace(r[|r| - 1])
  {
    if s != [] && IsSpace(s[|s| - 1]) then StripRight(s[..|s| - 1]) else s
  }

  /** Python's `str.strip()`: `s` without its leading and trailing whitespace. */
  function Strip(s: string): (r: string)
  {
    StripRight(StripLeft(s))
  }

  lemma AllSpaceCons(c: char, t: string)
    requires IsSpace(c) && AllSpace(t)
    ensures AllSpace([c] + t)
  {
    forall m | 0 <= m < |[c] + t| ensures IsSpace(([c] + t)[m]) {
      if m > 0 { assert ([c] + t)[m] == t[m - 1]; }
    }
  }

  lemma AllSpaceSnoc(t: string, c: char)
    requires AllSpace(t) && IsSpace(c)
    ensures AllSpace(t + [c])
  {
    forall m | 0 <= m < |t + [c]| ensures IsSpace((t + [c])[m]) {
      if m < |t| { assert (t + [c])[m] == t[m]; }
    }
  }

  lemma {:induction false} StripLeftSlice(s: string)
    ensures StripLeft(s) == s[|s| - |StripLeft(s)|..]
    ensures AllSpace(s[..|s| - |StripLeft(s)|])
  {
    if s != [] && IsSpace(s[0]) {
      var t := s[1..];
      StripLeftSlice(t);
      var k := |t| - |StripLeft(t)|;
      assert t[k..] == s[k + 1..];
      assert s[..k + 1] == [s[0]] + t[..k];
      AllSpaceCons(s[0], t[..k]);
    }
  }

  lemma {:induction false} StripRightSlice(s: string)
    ensures StripRight(s) == s[..|StripRight(s)|]
    ensures AllSpace(s[|StripRight(s)|..])
  {
    if s != [] && IsSpace(s[|s| - 1]) {
      var t := s[..|s| - 1];
      StripRightSlice(t);
      var k := |StripRight(t)|;
      assert t[..k] == s[..k];
      assert s[k..] == t[k..] + [s[|s| - 1]];
      AllSpaceSnoc(t[k..], s[|s| - 1]);
    }
  }

  /** The stripped text is the slice of `s` left once the whitespace at both ends is cut off:
      it neither starts nor ends with whitespace and everything cut was whitespace. */
  lemma StripIsTrimmedSlice(s: string)
    ensures exists i, j :: 0 <= i <= j <= |s| && Strip(s) == s[i..j]
                           && AllSpace(s[..i]) && AllSpace(s[j..])
    ensures Strip(s) == [] || (!IsSpace(Strip(s)[0]) && !IsSpace(Strip(s)[|Strip(s)| - 1]))
  {
    var l := StripLeft(s);
    StripLeftSlice(s);
    StripRightSlice(l);
    var i := |s| - |l|;
    var j := |Strip(s)|;
    assert Strip(s) == s[i..i + j];
    assert s[i + j..] == l[j..];
    if Strip(s) != [] {
      assert Strip(s)[0] == l[0];
    }
  }

  lemma {:induction false} AllSpaceStripsToEmpty(s: string)
    requires AllSpace(s)
    ensures StripLeft(s) == []
  {
    if s != [] {
      AllSpaceStripsToEmpty(s[1..]);
    }
  }

  /** Stripping leaves nothing exactly when the string is all whitespace (this is the
      "blank text" test of the fee-breakdown reader). */
  lemma StripEmpty(s: string)
    ensures Strip(s) == [] <==> AllSpace(s)
  {
    StripIsTrimmedSlice(s);
    var i, j :| 0 <= i <= j <= |s| && Strip(s) == s[i..j] && AllSpace(s[..i]) && AllSpace(s[j..]);
    if Strip(s) == [] {
      forall k | 0 <= k < |s| ensures IsSpace(s[k]) {
        if k < i { assert s[k] == s[..i][k]; } else { assert s[k] == s[j..][k - j]; }
      }
    }
    if AllSpace(s) {
      AllSpaceStripsToEmpty(s);
    }
  }
}
