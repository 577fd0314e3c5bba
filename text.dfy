/**
 * The pieces of Go's `strings` and `strconv` packages that the modelled code relies on:
 * `strings.TrimSpace`, `strings.ToLower`, `strings.Join`, `strconv.Itoa` (and `%d`) and
 * `strconv.Atoi`. Strings are sequences of Unicode scalar values.
 */
module Text {
  import opened Wrappers

  /** Go's `unicode.IsSpace`: the Latin-1 spaces and the other Unicode White_Space characters. */
  predicate IsSpace(c: char)
  {
    || c == ' ' || c == '\t' || c == '\n' || c == '\r'
    || c == '\U{000B}' || c == '\U{000C}' || c == '\U{0085}' || c == '\U{00A0}'
    || c == '\U{1680}' || ('\U{2000}' <= c <= '\U{200A}')
    || c == '\U{2028}' || c == '\U{2029}' || c == '\U{202F}' || c == '\U{205F}' || c == '\U{3000}'
  }

  /** Neither end of `s` is a space. */
  predicate IsTrimmed(s: string)
  {
    s == [] || (!IsSpace(s[0]) && !IsSpace(s[|s| - 1]))
  }

  predicate AllSpace(s: string)
  {
    forall k :: 0 <= k < |s| ==> IsSpace(s[k])
  }

  function TrimLeft(s: string): string
  {
    if s != [] && IsSpace(s[0]) then TrimLeft(s[1..]) else s
  }

  function TrimRight(s: string): string
  {
    if s != [] && IsSpace(s[|s| - 1]) then TrimRight(s[..|s| - 1]) else s
  }

  /**
   * Go's `strings.TrimSpace`. Its properties are stated by TrimSpaceCuts rather than in an
   * `ensures`, so that they are brought in only where a proof needs them.
   */
  function TrimSpace(s: string): string
  {
    TrimRight(TrimLeft(s))
  }

  /** TrimLeft removes a run of spaces from the front and stops at the first non-space. */
  lemma {:induction false} TrimLeftCuts(s: string)
    ensures |TrimLeft(s)| <= |s| && TrimLeft(s) == s[|s| - |TrimLeft(s)|..]
    ensures TrimLeft(s) == [] || !IsSpace(TrimLeft(s)[0])
    ensures AllSpace(s[..|s| - |TrimLeft(s)|])
  {
    if s != [] && IsSpace(s[0]) {
      TrimLeftCuts(s[1..]);
      var r := TrimLeft(s[1..]);
      assert s[1..][|s| - 1 - |r|..] == s[|s| - |r|..];
      assert forall k :: 0 <= k < |s| - 1 - |r| ==> s[1..][k] == s[k + 1];
    }
  }

  /** TrimRight removes a run of spaces from the back and stops at the last non-space. */
  lemma {:induction false} TrimRightCuts(s: string)
    ensures |TrimRight(s)| <= |s| && TrimRight(s) == s[..|TrimRight(s)|]
    ensures TrimRight(s) == [] || !IsSpace(TrimRight(s)[|TrimRight(s)| - 1])
    ensures AllSpace(s[|TrimRight(s)|..])
  {
    if s != [] && IsSpace(s[|s| - 1]) {
      TrimRightCuts(s[..|s| - 1]);
      var r := TrimRight(s[..|s| - 1]);
      assert s[..|s| - 1][..|r|] == s[..|r|];
      assert forall k :: |r| <= k < |s| - 1 ==> s[..|s| - 1][k] == s[k];
    }
  }

  /**
   * TrimSpace returns the middle part `s[i..i + |r|]` of `s`; it neither starts nor ends with
   * a space, and everything cut off on either side is space.
   */
  lemma TrimSpaceCuts(s: string) returns (i: nat)
    ensures i + |TrimSpace(s)| <= |s| && TrimSpace(s) == s[i..i + |TrimSpace(s)|]
    ensures IsTrimmed(TrimSpace(s))
    ensures AllSpace(s[..i]) && AllSpace(s[i + |TrimSpace(s)|..])
  {
    var t := TrimLeft(s);
    var r := TrimRight(t);
    TrimLeftCuts(s);
    TrimRightCuts(t);
    i := |s| - |t|;
    assert r == t[..|r|] == s[i..i + |r|];
    assert s[i + |r|..] == t[|r|..];
    if r != [] {
      assert r[0] == t[0];
    }
  }

  /** A string with no space at either end is left alone by TrimSpace. */
  lemma TrimmedIsFixed(s: string)
    requires IsTrimmed(s)
    ensures TrimSpace(s) == s
  {
  }

  /** Trimming twice is trimming once. */
  lemma TrimSpaceIdempotent(s: string)
    ensures TrimSpace(TrimSpace(s)) == TrimSpace(s)
  {
    var _ := TrimSpaceCuts(s);
    TrimmedIsFixed(TrimSpace(s));
  }

  /** TrimSpace yields the empty string exactly when every character is a space. */
  lemma TrimSpaceBlank(s: string)
    ensures TrimSpace(s) == [] <==> AllSpace(s)
  {
    var r := TrimSpace(s);
    var i := TrimSpaceCuts(s);
    if r == [] {
      forall k | 0 <= k < |s| ensures IsSpace(s[k]) {
        if k < i { assert s[..i][k] == s[k]; } else { assert s[i..][k - i] == s[k]; }
      }
    } else {
      assert s[i] == r[0];
    }
  }

  /**
   * One character of Go's `strings.ToLower`: ASCII upper case, and the two non-ASCII letters
   * whose lower case is an ASCII letter (KELVIN SIGN and LATIN CAPITAL LETTER I WITH DOT ABOVE).
   * Other non-ASCII letters are left as they are.
   */
  function LowerChar(c: char): char
  {
    if 'A' <= c <= 'Z' then (c as int + 32) as char
    else if c == '\U{212A}' then 'k'
    else if c == '\U{0130}' then 'i'
    else c
  }

  function ToLower(s: string): (r: string)
    ensures |r| == |s|
    ensures forall k :: 0 <= k < |s| ==> r[k] == LowerChar(s[k])
  {
    seq(|s|, k requires 0 <= k < |s| => LowerChar(s[k]))
  }

  /** A string of lower-case ASCII letters is its own lower case. */
  lemma LowerIsFixed(s: string)
    requires forall k :: 0 <= k < |s| ==> 'a' <= s[k] <= 'z'
    ensures ToLower(s) == s
  {
  }

  /** Go's `strings.Join`. */
  function Join(parts: seq<string>, sep: string): string
  {
    if parts == [] then ""
    else if |parts| == 1 then parts[0]
    else parts[0] + sep + Join(parts[1..], sep)
  }

  predicate NoneEmpty(parts: seq<string>)
  {
    forall k :: 0 <= k < |parts| ==> parts[k] != ""
  }

  /** Joining non-empty parts gives the empty string only when there are no parts. */
  lemma {:induction false} JoinBlankIff(parts: seq<string>, sep: string)
    requires NoneEmpty(parts)
    ensures Join(parts, sep) == "" <==> parts == []
  {
    if |parts| > 1 {
      assert Join(parts, sep)[..|parts[0]|] == parts[0];
    }
  }

  predicate IsDigit(c: char)
  {
    '0' <= c <= '9'
  }

  predicate AllDigits(s: string)
  {
    forall k :: 0 <= k < |s| ==> IsDigit(s[k])
  }

  function DigitChar(d: nat): (c: char)
    requires d < 10
    ensures IsDigit(c) && c as int - '0' as int == d
  {
    ('0' as int + d) as char
  }

  /** The value of a run of decimal digits, most significant first. */
  function DigitsValue(ds: string): nat
    requires AllDigits(ds)
  {
    if ds == [] then 0
    else 10 * DigitsValue(ds[..|ds| - 1]) + (ds[|ds| - 1] as int - '0' as int)
  }

  /** The shortest decimal spelling of `n`. */
  function FormatNat(n: nat): (r: string)
    ensures r != [] && AllDigits(r)
  {
    if n < 10 then [DigitChar(n)] else FormatNat(n / 10) + [DigitChar(n % 10)]
  }

  /** Go's `strconv.Itoa`, which is also what `%d` prints. */
  function FormatInt(n: int): (r: string)
  {
    if n < 0 then "-" + FormatNat(-n) else FormatNat(n)
  }

  const MinInt64: int := -0x8000_0000_0000_0000
  const MaxInt64: int := 0x7FFF_FFFF_FFFF_FFFF

  /** Go's `int` on a 64-bit platform. */
  type Int64 = x: int | MinInt64 <= x <= MaxInt64

  /** The two ways `strconv.Atoi` fails. */
  datatype NumError = Syntax(input: string) | Range(input: string)

  /** The largest value of Go's `uint64`, the accumulator `strconv.ParseUint` reads digits into. */
  const MaxUint64: int := 0xFFFF_FFFF_FFFF_FFFF

  /** What follows an optional leading `+` or `-`. */
  function Magnitude(s: string): (m: string)
    ensures m == s || (s != [] && (s[0] == '+' || s[0] == '-') && m == s[1..])
  {
    if s != [] && (s[0] == '+' || s[0] == '-') then s[1..] else s
  }

  /** The number of decimal digits at the front of `s`. */
  function LeadingDigits(s: string): (n: nat)
    ensures n <= |s| && AllDigits(s[..n])
    ensures n < |s| ==> !IsDigit(s[n])
    ensures AllDigits(s) ==> n == |s| && s[..n] == s
  {
    if s != [] && IsDigit(s[0]) then
      var n := 1 + LeadingDigits(s[1..]);
      assert forall k :: 1 <= k < n ==> s[..n][k] == s[1..][..n - 1][k - 1];
      n
    else 0
  }

  /**
   * Go's `strconv.Atoi` on a 64-bit platform, for every length of input (its fast path for
   * short inputs and `strconv.ParseInt` agree on those): an optional sign, then digits read
   * left to right into a `uint64`. A digit that makes that accumulator overflow is a range
   * error at once, before any later character is looked at; a non-digit met before that is a
   * syntax error, and so is an empty digit part. A value that fits `uint64` but not the
   * 64-bit `int` is a range error too.
   */
  function Atoi(s: string): (r: Result<int, NumError>)
    ensures r.Success? ==> MinInt64 <= r.value <= MaxInt64
    ensures r.Success? <==>
      && Magnitude(s) != [] && AllDigits(Magnitude(s))
      && DigitsValue(Magnitude(s)) <= (if s[0] == '-' then -MinInt64 else MaxInt64)
    ensures DigitsValue(Magnitude(s)[..LeadingDigits(Magnitude(s))]) > MaxUint64 ==> r == Failure(Range(s))
    ensures (&& DigitsValue(Magnitude(s)[..LeadingDigits(Magnitude(s))]) <= MaxUint64
             && (Magnitude(s) == [] || !AllDigits(Magnitude(s)))) ==> r == Failure(Syntax(s))
    ensures AllDigits(s) && s != [] && DigitsValue(s) <= MaxInt64 ==> r == Success(DigitsValue(s))
  {
    var digits := Magnitude(s);
    var run := digits[..LeadingDigits(digits)];
    if DigitsValue(run) > MaxUint64 then
      Failure(Range(s))
    else if digits == [] || !AllDigits(digits) then
      Failure(Syntax(s))
    else
      var v: int := if s[0] == '-' then -(DigitsValue(digits) as int) else DigitsValue(digits);
      if v < MinInt64 || v > MaxInt64 then Failure(Range(s)) else Success(v)
  }

  /** The digit run of `s` ends at the first non-digit. */
  lemma {:induction false} LeadingDigitsAt(s: string, i: nat)
    requires i < |s| && AllDigits(s[..i]) && !IsDigit(s[i])
    ensures LeadingDigits(s) == i
  {
    if i > 0 {
      assert s[1..][..i - 1] == s[1..i];
      assert forall k :: 0 <= k < i - 1 ==> s[1..i][k] == s[..i][k + 1];
      LeadingDigitsAt(s[1..], i - 1);
      assert IsDigit(s[..i][0]);
    }
  }

  /** The value of `i` nines. */
  function Nines(i: nat): nat
  {
    if i == 0 then 0 else 10 * Nines(i - 1) + 9
  }

  lemma {:induction false} NinesValue(s: string, i: nat)
    requires i <= |s| && forall k :: 0 <= k < i ==> s[k] == '9'
    ensures AllDigits(s[..i]) && DigitsValue(s[..i]) == Nines(i)
  {
    if i > 0 {
      NinesValue(s, i - 1);
      assert s[..i][..i - 1] == s[..i - 1];
    }
  }

  /** Five more nines shift the value five places left and fill them with nines. */
  lemma NinesFive(i: nat)
    ensures Nines(i + 5) == 100000 * Nines(i) + 99999
  {
    assert Nines(i + 2) == 100 * Nines(i) + 99;
    assert Nines(i + 4) == 10000 * Nines(i) + 9999;
  }

  /**
   * An input of twenty nines followed by `x` ("99999999999999999999x"): the twentieth nine
   * overflows the accumulator, so the answer is a range error although the input is not a
   * number at all.
   */
  lemma AtoiOverflowBeforeSyntax(s: string)
    requires |s| == 21 && s[20] == 'x' && forall k :: 0 <= k < 20 ==> s[k] == '9'
    ensures Atoi(s) == Failure(Range(s))
  {
    assert Magnitude(s) == s;
    NinesValue(s, 20);
    LeadingDigitsAt(s, 20);
    NinesFive(0);
    NinesFive(5);
    NinesFive(10);
    NinesFive(15);
  }

  lemma {:induction false} DigitsValueFormatNat(n: nat)
    ensures DigitsValue(FormatNat(n)) == n
  {
    var r := FormatNat(n);
    if n >= 10 {
      DigitsValueFormatNat(n / 10);
      assert r[..|r| - 1] == FormatNat(n / 10);
    }
  }

  /** Reading back what Itoa printed gives the number again, for every 64-bit `int`. */
  lemma AtoiFormatInt(n: int)
    requires MinInt64 <= n <= MaxInt64
    ensures Atoi(FormatInt(n)) == Success(n)
  {
    var s := FormatInt(n);
    if n < 0 {
      DigitsValueFormatNat(-n);
      assert s[1..] == FormatNat(-n);
    } else {
      DigitsValueFormatNat(n);
      assert IsDigit(s[0]);
    }
  }
}
