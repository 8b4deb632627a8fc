/**
  The few functions of Go's `strings` and `strconv` packages the core relies
  on: `strings.HasPrefix`, `strings.TrimPrefix`, `strings.ToLower` (ASCII
  letters only), `strings.Join`, `strconv.Itoa` and `strconv.Atoi`, with
  the unbounded decimal reading that stands for `uuid.Parse` and Go's
  float64-to-int conversion.
 */
module Text {
  import opened Errors

  /** strings.HasPrefix: the first |prefix| characters of `s` are those of `prefix`. */
  predicate HasPrefix(s: string, prefix: string): (b: bool)
    ensures b <==> |prefix| <= |s| && forall i :: 0 <= i < |prefix| ==> s[i] == prefix[i]
  {
    |prefix| <= |s| && s[..|prefix|] == prefix
  }

  /** strings.TrimPrefix: `s` without a leading `prefix`, or `s` itself. */
  function TrimPrefix(s: string, prefix: string): (r: string)
    ensures HasPrefix(s, prefix) ==> prefix + r == s
    ensures !HasPrefix(s, prefix) ==> r == s
  {
    if HasPrefix(s, prefix) then s[|prefix|..] else s
  }

  function LowerChar(c: char): char
  {
    if 'A' <= c <= 'Z' then (c as int + 32) as char else c
  }

  /** strings.ToLower for ASCII letters. */
  function ToLower(s: string): (r: string)
    ensures |r| == |s|
    ensures forall i :: 0 <= i < |s| ==> r[i] == LowerChar(s[i])
  {
    if s == [] then [] else [LowerChar(s[0])] + ToLower(s[1..])
  }

  /** strings.Join: the parts in order, `sep` between neighbours. */
  function Join(parts: seq<string>, sep: string): string
  {
    if parts == [] then ""
    else if |parts| == 1 then parts[0]
    else Join(parts[..|parts| - 1], sep) + sep + parts[|parts| - 1]
  }

  /** The total length of the parts. */
  function TotalLength(parts: seq<string>): nat
  {
    if parts == [] then 0 else TotalLength(parts[..|parts| - 1]) + |parts[|parts| - 1]|
  }

  /** The joined string is the parts plus one separator between each pair of neighbours. */
  lemma {:induction false} JoinLength(parts: seq<string>, sep: string)
    ensures |Join(parts, sep)| == TotalLength(parts) + (if parts == [] then 0 else (|parts| - 1) * |sep|)
    decreases |parts|
  {
    var n := |parts|;
    if n > 1 {
      JoinLength(parts[..n - 1], sep);
      assert (n - 1) * |sep| == (n - 2) * |sep| + |sep|;
    } else if n == 1 {
      assert parts[..0] == [];
    }
  }

  /** Part i sits in the joined string after the i parts before it and i separators. */
  lemma {:induction false} JoinHoldsEachPart(parts: seq<string>, sep: string, i: int)
    requires 0 <= i < |parts|
    ensures var off := TotalLength(parts[..i]) + i * |sep|;
      off + |parts[i]| <= |Join(parts, sep)| && Join(parts, sep)[off .. off + |parts[i]|] == parts[i]
    decreases |parts|
  {
    var n := |parts|;
    var prefix := parts[..n - 1];
    var off := TotalLength(parts[..i]) + i * |sep|;
    if n == 1 {
      assert parts[..0] == [];
    } else if i == n - 1 {
      JoinLength(prefix, sep);
      assert (n - 1) * |sep| == (n - 2) * |sep| + |sep|;
      assert off == |Join(prefix, sep)| + |sep|;
    } else {
      JoinHoldsEachPart(prefix, sep, i);
      assert prefix[..i] == parts[..i];
      assert Join(parts, sep) == Join(prefix, sep) + sep + parts[n - 1];
    }
  }

  /** The separator follows every part but the last: right after parts 0..i and i separators. */
  lemma {:induction false} JoinSeparatorAfterEachPart(parts: seq<string>, sep: string, i: int)
    requires 0 <= i < |parts| - 1
    ensures var off := TotalLength(parts[..i + 1]) + i * |sep|;
      off + |sep| <= |Join(parts, sep)| && Join(parts, sep)[off .. off + |sep|] == sep
    decreases |parts|
  {
    var n := |parts|;
    var prefix := parts[..n - 1];
    assert Join(parts, sep) == Join(prefix, sep) + sep + parts[n - 1];
    if i == n - 2 {
      JoinLength(prefix, sep);
      assert prefix == parts[..i + 1];
    } else {
      JoinSeparatorAfterEachPart(prefix, sep, i);
      assert prefix[..i + 1] == parts[..i + 1];
    }
  }

  predicate IsDigit(c: char)
  {
    '0' <= c <= '9'
  }

  predicate AllDigits(s: string)
  {
    forall i :: 0 <= i < |s| ==> IsDigit(s[i])
  }

  function DigitChar(d: int): (c: char)
    requires 0 <= d < 10
    ensures IsDigit(c) && c as int - '0' as int == d
  {
    (d + '0' as int) as char
  }

  /** The decimal digits of a natural number, most significant first, no leading zeros. */
  function NatDigits(n: nat): (s: string)
    ensures |s| >= 1 && AllDigits(s)
    ensures n >= 10 ==> s[0] != '0'
    decreases n
  {
    if n < 10 then [DigitChar(n)] else NatDigits(n / 10) + [DigitChar(n % 10)]
  }

  /** The value of a string of decimal digits. */
  function DigitsValue(s: string): nat
    requires AllDigits(s)
  {
    if s == [] then 0
    else DigitsValue(s[..|s| - 1]) * 10 + (s[|s| - 1] as int - '0' as int)
  }

  /** strconv.Itoa: a '-' for negative numbers, then the digits of |n| without leading zeros. */
  function Itoa(n: int): (r: string)
    ensures n >= 0 ==> AllDigits(r) && r != "" && (r[0] == '0' ==> n == 0)
    ensures n < 0 ==> |r| >= 2 && r[0] == '-' && AllDigits(r[1..]) && r[1] != '0'
  {
    if n < 0 then "-" + NatDigits(-n) else NatDigits(n)
  }

  predicate IsSign(c: char)
  {
    c == '+' || c == '-'
  }

  /** An optional sign followed by one or more decimal digits, of any magnitude. */
  function ParseDecimal(s: string): (r: Option<int>)
    ensures r.Some? <==>
      (s != "" && AllDigits(s)) || (|s| >= 2 && IsSign(s[0]) && AllDigits(s[1..]))
    ensures s != "" && AllDigits(s) ==> r == Some(DigitsValue(s))
    ensures |s| >= 2 && s[0] == '+' && AllDigits(s[1..]) ==> r == Some(DigitsValue(s[1..]))
    ensures |s| >= 2 && s[0] == '-' && AllDigits(s[1..]) ==> r == Some(-(DigitsValue(s[1..]) as int))
  {
    if s == "" then None
    else if IsSign(s[0]) then
      var digits := s[1..];
      if digits != [] && AllDigits(digits) then
        var v: int := DigitsValue(digits);
        Some(if s[0] == '-' then -v else v)
      else None
    else if AllDigits(s) then Some(DigitsValue(s))
    else None
  }

  /** The range of Go's `int` and `int64` on the 64-bit platforms the service runs on. */
  const MinInt64: int := -0x8000_0000_0000_0000
  const MaxInt64: int := 0x7FFF_FFFF_FFFF_FFFF

  predicate InInt64(v: int)
  {
    MinInt64 <= v <= MaxInt64
  }

  /**
    strconv.Atoi, and strconv.ParseInt(s, 10, 64): a decimal number that
    fits in 64 bits. A longer one is refused with ErrRange.
   */
  function Atoi(s: string): (r: Option<int>)
    ensures r.Some? <==> ParseDecimal(s).Some? && InInt64(ParseDecimal(s).value)
    ensures r.Some? ==> r == ParseDecimal(s)
  {
    match ParseDecimal(s)
    case Some(v) => if InInt64(v) then Some(v) else None
    case None => None
  }

  /**
    Go's conversion `int(f)` of a float64 claim. Out of range it is
    implementation-defined; amd64 gives the minimum int64.
   */
  function FloatToInt(n: int): (r: int)
    ensures InInt64(r)
    ensures InInt64(n) ==> r == n
  {
    if InInt64(n) then n else MinInt64
  }

  lemma {:induction false} DigitsValueOfNatDigits(n: nat)
    ensures DigitsValue(NatDigits(n)) == n
    decreases n
  {
    if n >= 10 {
      var s := NatDigits(n);
      assert s[..|s| - 1] == NatDigits(n / 10);
      DigitsValueOfNatDigits(n / 10);
    }
  }

  /** The digits Itoa writes parse back to the number, whatever its magnitude. */
  lemma ParseDecimalItoa(n: int)
    ensures ParseDecimal(Itoa(n)) == Some(n)
  {
    var s := Itoa(n);
    if n < 0 {
      DigitsValueOfNatDigits(-n);
      assert s[1..] == NatDigits(-n);
    } else {
      DigitsValueOfNatDigits(n);
    }
  }

  /** strconv.Atoi undoes strconv.Itoa exactly on the 64-bit integers, and refuses every other. */
  lemma AtoiItoa(n: int)
    ensures Atoi(Itoa(n)) == (if InInt64(n) then Some(n) else None)
  {
    ParseDecimalItoa(n);
  }
}
