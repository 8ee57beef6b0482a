/** A model of the two pieces of Go's standard library the filter leans on:
    strconv.ParseInt(s, 10, 32), used to read the min-hosts annotation, and the
    %d verb of fmt, used to write the required host count into a rejection. */
module StrConv {

  /** Go's int32. */
  newtype int32 = x: int | -0x8000_0000 <= x < 0x8000_0000

  const MinInt32: int := -0x8000_0000
  const MaxInt32: int := 0x7fff_ffff
  /** The largest magnitude strconv.ParseUint accepts with bitSize 32. */
  const MaxUint32: int := 0xffff_ffff

  /** strconv.ErrSyntax and strconv.ErrRange. */
  datatype NumError = ErrSyntax | ErrRange

  /** The (value, err) pair of strconv.ParseInt. */
  datatype Parsed = Ok(value: int) | Err(error: NumError)

  predicate IsDigit(c: char) { '0' <= c <= '9' }

  predicate IsSign(c: char) { c == '+' || c == '-' }

  function DigitValue(c: char): nat
    requires IsDigit(c)
  {
    c as int - '0' as int
  }

  function DigitChar(d: nat): char
    requires d < 10
  {
    ('0' as int + d) as char
  }

  predicate AllDigits(s: string) {
    forall i | 0 <= i < |s| :: IsDigit(s[i])
  }

  /** The number a string of decimal digits denotes, most significant digit first. */
  function DecimalValue(s: string): nat
    requires AllDigits(s)
  {
    if s == [] then 0 else DecimalValue(s[..|s| - 1]) * 10 + DigitValue(s[|s| - 1])
  }

  /** An optional sign followed by at least one decimal digit: the only form
      ParseInt accepts in base 10 (no underscores, no spaces, no prefix). */
  predicate IsDecimalInt(s: string) {
    if |s| > 0 && IsSign(s[0]) then |s| > 1 && AllDigits(s[1..]) else |s| > 0 && AllDigits(s)
  }

  /** The integer a well-formed decimal string denotes. */
  function SignedValue(s: string): int
    requires IsDecimalInt(s)
  {
    if s[0] == '-' then -(DecimalValue(s[1..]) as int)
    else if s[0] == '+' then DecimalValue(s[1..])
    else DecimalValue(s)
  }

  /** A prefix of a digit string never denotes more than the whole string. */
  lemma {:induction false} PrefixValueBound(s: string, k: nat)
    requires AllDigits(s) && k <= |s|
    ensures AllDigits(s[..k]) && DecimalValue(s[..k]) <= DecimalValue(s)
    decreases |s|
  {
    if k == |s| {
      assert s[..k] == s;
    } else {
      var t := s[..|s| - 1];
      assert t[..k] == s[..k];
      PrefixValueBound(t, k);
    }
  }

  /** The digit loop of strconv.ParseUint in base 10 with bitSize 32: n is the value
      of s[..i]; a non-digit is a syntax error and a step past MaxUint32 is a range
      error, whichever comes first. (ParseUint's separate check that n * 10 cannot
      wrap a uint64 never fires here, since n stays at most MaxUint32.) Started on a
      digit prefix, the loop accepts exactly the digit strings whose value fits in
      32 unsigned bits, and yields that value. */
  function AccumulateDigits(s: string, i: nat, n: nat): (r: Parsed)
    requires i <= |s| && n <= MaxUint32
    ensures AllDigits(s[..i]) && n == DecimalValue(s[..i]) ==>
      (r.Ok? <==> AllDigits(s) && DecimalValue(s) <= MaxUint32) &&
      (r.Ok? ==> AllDigits(s) && r.value == DecimalValue(s))
    decreases |s| - i
  {
    if i == |s| then
      assert s[..i] == s;
      Ok(n)
    else if !IsDigit(s[i]) then Err(ErrSyntax)
    else
      var m := n * 10 + DigitValue(s[i]);
      if m > MaxUint32 then
        if AllDigits(s[..i]) && n == DecimalValue(s[..i]) && AllDigits(s) then
          assert s[..i + 1][..i] == s[..i];
          PrefixValueBound(s, i + 1);
          Err(ErrRange)
        else Err(ErrRange)
      else
        assert s[..i + 1][..i] == s[..i];
        AccumulateDigits(s, i + 1, m)
  }

  /** strconv.ParseUint(s, 10, 32): it accepts exactly a non-empty digit string of
      value at most MaxUint32, and yields that value. */
  function ParseUint32(s: string): (r: Parsed)
    ensures r.Ok? <==> |s| > 0 && AllDigits(s) && DecimalValue(s) <= MaxUint32
    ensures r.Ok? ==> AllDigits(s) && r.value == DecimalValue(s)
  {
    if s == "" then Err(ErrSyntax)
    else
      assert s[..0] == [];
      AccumulateDigits(s, 0, 0)
  }

  /** strconv.ParseInt(s, 10, 32): pick off one leading sign, parse the magnitude with
      ParseUint, and fail with a range error unless the signed value fits in int32.
      A range error from ParseUint stays a range error, since ParseInt then compares
      the saturated magnitude MaxUint32 against the int32 cutoff. */
  function ParseInt32(s: string): (r: Parsed)
    ensures r.Ok? <==> IsDecimalInt(s) && MinInt32 <= SignedValue(s) <= MaxInt32
    ensures r.Ok? ==> IsDecimalInt(s) && r.value == SignedValue(s)
  {
    if s == "" then Err(ErrSyntax)
    else
      var neg := s[0] == '-';
      var digits := if IsSign(s[0]) then s[1..] else s;
      var un := ParseUint32(digits);
      if un.Err? then Err(un.error)
      else if !neg && un.value >= 0x8000_0000 then Err(ErrRange)
      else if neg && un.value > 0x8000_0000 then Err(ErrRange)
      else Ok(if neg then -un.value else un.value)
  }

  /** The decimal digits of n, without leading zeros (fmt's %d of a non-negative value). */
  function FormatNat(n: nat): (s: string)
    ensures |s| > 0 && AllDigits(s) && DecimalValue(s) == n
    ensures s[0] == '0' ==> s == "0"
    ensures s == "0" <==> n == 0
  {
    if n < 10 then
      [DigitChar(n)]
    else
      var t := FormatNat(n / 10);
      assert (t + [DigitChar(n % 10)])[..|t|] == t;
      t + [DigitChar(n % 10)]
  }

  /** fmt's %d: a minus sign for negative values, never a plus sign. */
  function FormatInt(n: int): (s: string)
    ensures IsDecimalInt(s) && SignedValue(s) == n
    ensures s[0] != '+'
    ensures s[0] == '-' <==> n < 0
    ensures var digits := if n < 0 then s[1..] else s; digits[0] == '0' ==> digits == "0"
  {
    if n < 0 then
      var t := FormatNat(-n);
      assert ("-" + t)[1..] == t;
      "-" + t
    else FormatNat(n)
  }

  /** Every int32 written with %d reads back through ParseInt(_, 10, 32) unchanged. */
  lemma FormatParseRoundTrip(n: int32)
    ensures ParseInt32(FormatInt(n as int)) == Ok(n as int)
  {
  }
}
