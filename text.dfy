/** The parts of Go's `strings` and `strconv` packages that the provider
    relies on: prefix/suffix/substring tests and decimal conversion of
    64-bit integers. */
module Text {
  import opened Wrappers

  const MinInt64: int := -0x8000_0000_0000_0000
  const MaxInt64: int := 0x7fff_ffff_ffff_ffff

  predicate InInt64(n: int) { MinInt64 <= n <= MaxInt64 }

  /** strings.HasPrefix */
  predicate HasPrefix(s: string, p: string) { |p| <= |s| && s[..|p|] == p }

  /** strings.HasSuffix */
  predicate HasSuffix(s: string, p: string) { |p| <= |s| && s[|s| - |p|..] == p }

  /** strings.Contains */
  predicate Contains(s: string, sub: string)
    decreases |s|
  {
    HasPrefix(s, sub) || (|s| > 0 && Contains(s[1..], sub))
  }

  /** Every string contains each of its suffixes. */
  lemma {:induction false} SuffixIsContained(s: string, sub: string)
    requires HasSuffix(s, sub)
    ensures Contains(s, sub)
    decreases |s|
  {
    if |s| == |sub| {
      assert s[..|sub|] == s == sub;
    } else {
      assert s[1..][|s[1..]| - |sub|..] == s[|s| - |sub|..];
      SuffixIsContained(s[1..], sub);
    }
  }

  /** strconv.FormatBool */
  function FormatBool(b: bool): (r: string)
    ensures r == "true" <==> b
    ensures r == "false" <==> !b
  {
    if b then "true" else "false"
  }

  predicate IsDigit(c: char) { '0' <= c <= '9' }

  predicate AllDigits(s: string) { forall i :: 0 <= i < |s| ==> IsDigit(s[i]) }

  function DigitChar(d: nat): (c: char)
    requires d < 10
    ensures IsDigit(c) && c as int - '0' as int == d
  {
    ('0' as int + d) as char
  }

  /** The value of a string of decimal digits, most significant first. */
  function DecimalValue(s: string): nat
    requires AllDigits(s)
    decreases |s|
  {
    if s == [] then 0
    else DecimalValue(s[..|s| - 1]) * 10 + (s[|s| - 1] as int - '0' as int)
  }

  /** The shortest decimal spelling of n: no sign, no leading zero. */
  function NatToDecimal(n: nat): (s: string)
    ensures |s| > 0 && AllDigits(s)
    ensures |s| > 1 ==> s[0] != '0'
  {
    if n < 10 then [DigitChar(n)] else NatToDecimal(n / 10) + [DigitChar(n % 10)]
  }

  /** strconv.Itoa and strconv.FormatInt(_, 10): "-" before the digits of
      a negative number. */
  function Itoa(n: int): (s: string)
    ensures |s| > 0 && (IsDigit(s[0]) || s[0] == '-')
  {
    if n < 0 then "-" + NatToDecimal(-n) else NatToDecimal(n)
  }

  const MaxUint64: int := 0xffff_ffff_ffff_ffff

  /** The longest run of decimal digits at the start of s. */
  function DigitPrefix(s: string): (p: string)
    ensures |p| <= |s| && p == s[..|p|] && AllDigits(p)
    ensures |p| < |s| ==> !IsDigit(s[|p|])
  {
    if s == [] || !IsDigit(s[0]) then [] else [s[0]] + DigitPrefix(s[1..])
  }

  function AtoiSyntaxError(s: string): string { "strconv.Atoi: parsing \"" + s + "\": invalid syntax" }

  function AtoiRangeError(s: string): string { "strconv.Atoi: parsing \"" + s + "\": value out of range" }

  /** strconv.Atoi on a 64-bit platform: an optional sign, then one or more
      decimal digits, with a value that fits in 64 bits. The digits are
      scanned left to right (strconv.ParseUint), so a run of digits that
      overflows 64 unsigned bits is reported as out of range even when a
      bad character follows it. */
  function Atoi(s: string): (r: Result<int>)
    ensures r.Ok? ==> InInt64(r.value)
    ensures r.Ok? ==> |s| > 0 && (IsDigit(s[0]) || s[0] == '+' || s[0] == '-')
    ensures r.Err? ==> r.msg == AtoiSyntaxError(s) || r.msg == AtoiRangeError(s)
    ensures var digits := if |s| > 0 && (s[0] == '+' || s[0] == '-') then s[1..] else s;
      DecimalValue(DigitPrefix(digits)) > MaxUint64 ==> r == Err(AtoiRangeError(s))
  {
    var neg := |s| > 0 && s[0] == '-';
    var digits := if |s| > 0 && (s[0] == '+' || s[0] == '-') then s[1..] else s;
    var run := DigitPrefix(digits);
    if DecimalValue(run) > MaxUint64 then Err(AtoiRangeError(s))
    else if digits == [] || run != digits then Err(AtoiSyntaxError(s))
    else
      var m: int := DecimalValue(digits);
      var v := if neg then -m else m;
      if InInt64(v) then Ok(v)
      else Err(AtoiRangeError(s))
  }

  /** A string of digits is its own digit run. */
  lemma {:induction false} DigitPrefixOfDigits(s: string)
    requires AllDigits(s)
    ensures DigitPrefix(s) == s
  {
    if s != [] {
      DigitPrefixOfDigits(s[1..]);
    }
  }

  /** A run of digits whose value is beyond 64 unsigned bits, followed by a
      bad character, is out of range, not invalid syntax. */
  lemma OverflowReportedBeforeBadCharacter(run: string, rest: string)
    requires |run| > 0 && AllDigits(run) && DecimalValue(run) > MaxUint64
    requires |rest| > 0 && !IsDigit(rest[0])
    ensures Atoi(run + rest) == Err(AtoiRangeError(run + rest))
  {
    var s := run + rest;
    assert s[..|run|] == run;
    DigitPrefixOfDigits(run);
    DigitPrefixAppend(run, rest);
  }

  /** The digit run of digits followed by a non-digit is those digits. */
  lemma {:induction false} DigitPrefixAppend(run: string, rest: string)
    requires AllDigits(run)
    requires |rest| > 0 && !IsDigit(rest[0])
    ensures DigitPrefix(run + rest) == run
  {
    if run == [] {
      assert run + rest == rest;
    } else {
      assert (run + rest)[1..] == run[1..] + rest;
      DigitPrefixAppend(run[1..], rest);
    }
  }

  lemma {:induction false} DecimalValueOfNatToDecimal(n: nat)
    ensures DecimalValue(NatToDecimal(n)) == n
  {
    if n >= 10 {
      var prefix := NatToDecimal(n / 10);
      var s := prefix + [DigitChar(n % 10)];
      assert s[..|s| - 1] == prefix;
      DecimalValueOfNatToDecimal(n / 10);
    }
  }

  /** Parsing what Itoa prints gives the number back. */
  lemma AtoiOfItoa(n: int)
    requires InInt64(n)
    ensures Atoi(Itoa(n)) == Ok(n)
  {
    var m: nat := if n < 0 then -n else n;
    var d := NatToDecimal(m);
    DecimalValueOfNatToDecimal(m);
    DigitPrefixOfDigits(d);
    assert DecimalValue(DigitPrefix(d)) == m <= MaxUint64;
    if n < 0 {
      var s := "-" + d;
      assert s == Itoa(n);
      assert s[0] == '-' && s[1..] == d;
    } else {
      assert d == Itoa(n);
      assert d[0] != '+' && d[0] != '-';
    }
  }

  /** Itoa never spells a word: its output is digits after an optional '-'. */
  lemma ItoaIsNotAWord(n: int, w: string)
    requires |w| > 0 && !IsDigit(w[0]) && w[0] != '-'
    ensures Itoa(n) != w
  {
  }
}
