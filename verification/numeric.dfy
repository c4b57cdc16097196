/** Decimal integers as Go reads and writes them: strconv.Atoi (the whole
    text must be an optionally signed decimal), fmt.Sscanf with "%d" (a
    leading optionally signed decimal after blanks, the rest ignored) and
    decimal formatting. Both readers reject values outside the 64-bit
    signed range, as Go's `int` on a 64-bit platform does. */
module Numeric {
  import opened Wrappers
  import Text

  const MinInt64: int := -0x8000_0000_0000_0000
  const MaxInt64: int := 0x7FFF_FFFF_FFFF_FFFF

  predicate InInt64(n: int) {
    MinInt64 <= n <= MaxInt64
  }

  predicate IsDigit(c: char) {
    '0' <= c <= '9'
  }

  predicate AllDigits(s: string) {
    forall c <- s :: IsDigit(c)
  }

  /** The value of a string of decimal digits, most significant first. */
  function DigitsValue(ds: string): nat
    requires AllDigits(ds)
  {
    if |ds| == 0 then 0
    else
      var last := ds[|ds| - 1];
      assert last in ds;
      10 * DigitsValue(ds[..|ds| - 1]) + (last as int - '0' as int)
  }

  function DigitChar(d: nat): (c: char)
    requires d < 10
    ensures IsDigit(c) && c as int - '0' as int == d
  {
    ('0' as int + d) as char
  }

  /** The decimal digits of `n`, without leading zeros ("0" for zero). */
  function Digits(n: nat): (ds: string)
    ensures |ds| >= 1 && AllDigits(ds)
  {
    if n < 10 then [DigitChar(n)] else Digits(n / 10) + [DigitChar(n % 10)]
  }

  /** strconv.Itoa / fmt's "%d": an optional minus sign, then the digits. */
  function FormatInt(n: int): string {
    if n < 0 then "-" + Digits(-n) else Digits(n)
  }

  /** Splits off one leading '+' or '-'; the flag says whether it was '-'. */
  function SplitSign(s: string): (r: (bool, string))
    ensures |r.1| <= |s|
  {
    if |s| > 0 && (s[0] == '+' || s[0] == '-') then (s[0] == '-', s[1..]) else (false, s)
  }

  function Signed(negative: bool, magnitude: nat): int {
    if negative then -(magnitude as int) else magnitude
  }

  /** strconv.Atoi: the whole text is an optional sign and at least one
      decimal digit, and the value fits in 64 bits; no blanks allowed. */
  function Atoi(s: string): Option<int> {
    var (negative, body) := SplitSign(s);
    if |body| == 0 || !AllDigits(body) then None
    else
      var v := Signed(negative, DigitsValue(body));
      if InInt64(v) then Some(v) else None
  }

  /** Blanks that fmt's scanner skips before a number; a newline is not one
      of them (Sscanf fails on it). */
  function SkipBlanks(s: string): (r: string)
    ensures |r| <= |s|
  {
    if |s| > 0 && Text.IsSpace(s[0]) && s[0] != '\n' then SkipBlanks(s[1..]) else s
  }

  /** The longest run of decimal digits that `s` starts with. */
  function LeadingDigits(s: string): (ds: string)
    ensures |ds| <= |s| && ds == s[..|ds|] && AllDigits(ds)
    ensures |ds| == |s| || !IsDigit(s[|ds|])
  {
    if |s| == 0 || !IsDigit(s[0]) then [] else [s[0]] + LeadingDigits(s[1..])
  }

  /** fmt.Sscanf(s, "%d", &v): skips blanks, reads an optional sign and a
      maximal run of digits (at least one), ignores whatever follows, and
      fails when there are no digits or the value does not fit 64 bits. */
  function ScanInt(s: string): Option<int> {
    var (negative, body) := SplitSign(SkipBlanks(s));
    var ds := LeadingDigits(body);
    if |ds| == 0 then None
    else
      var v := Signed(negative, DigitsValue(ds));
      if InInt64(v) then Some(v) else None
  }

  // ---------------------------------------------------------------------
  // Properties

  lemma {:induction false} DigitsValueOfDigits(n: nat)
    ensures DigitsValue(Digits(n)) == n
  {
    if n >= 10 {
      DigitsValueOfDigits(n / 10);
      var ds := Digits(n);
      assert ds[..|ds| - 1] == Digits(n / 10);
    }
  }

  /** Atoi reads back what FormatInt writes, for every 64-bit value. */
  lemma AtoiFormatInt(n: int)
    requires InInt64(n)
    ensures Atoi(FormatInt(n)) == Some(n)
  {
    var m := if n < 0 then -n else n;
    DigitsValueOfDigits(m);
    assert Digits(m)[0] in Digits(m);
    if n < 0 {
      assert SplitSign(FormatInt(n)) == (true, Digits(m));
    } else {
      assert SplitSign(FormatInt(n)) == (false, Digits(m));
    }
  }

  lemma {:induction false} LeadingDigitsOfDigits(ds: string, rest: string)
    requires AllDigits(ds)
    requires rest == [] || !IsDigit(rest[0])
    ensures LeadingDigits(ds + rest) == ds
  {
    if |ds| > 0 {
      assert (ds + rest)[1..] == ds[1..] + rest;
      LeadingDigitsOfDigits(ds[1..], rest);
      assert [ds[0]] + ds[1..] == ds;
    } else {
      assert ds + rest == rest;
    }
  }

  /** Sscanf "%d" reads a formatted integer back even when text that does
      not start with a digit follows it. */
  lemma ScanIntFormatInt(n: int, rest: string)
    requires InInt64(n)
    requires rest == [] || !IsDigit(rest[0])
    ensures ScanInt(FormatInt(n) + rest) == Some(n)
  {
    if n < 0 {
      ScanIntFormatNegative(n, rest);
    } else {
      ScanIntFormatNonNegative(n, rest);
    }
  }

  lemma ScanIntFormatNegative(n: int, rest: string)
    requires MinInt64 <= n < 0
    requires rest == [] || !IsDigit(rest[0])
    ensures ScanInt(FormatInt(n) + rest) == Some(n)
  {
    var ds := Digits(-n);
    DigitsValueOfDigits(-n);
    var s := FormatInt(n) + rest;
    assert s == ['-'] + (ds + rest);
    NumberStartIsNotBlank(s[0]);
    assert SkipBlanks(s) == s;
    assert SplitSign(s) == (true, ds + rest);
    ScanIntOfDigits(s, true, ds, rest);
  }

  lemma ScanIntFormatNonNegative(n: int, rest: string)
    requires 0 <= n <= MaxInt64
    requires rest == [] || !IsDigit(rest[0])
    ensures ScanInt(FormatInt(n) + rest) == Some(n)
  {
    var ds := Digits(n);
    DigitsValueOfDigits(n);
    var s := FormatInt(n) + rest;
    assert s == ds + rest;
    assert ds[0] in ds;
    NumberStartIsNotBlank(s[0]);
    assert SkipBlanks(s) == s;
    assert SplitSign(s) == (false, ds + rest);
    ScanIntOfDigits(s, false, ds, rest);
  }

  /** ScanInt once the blanks and the sign are split off and the digits
      end where `rest` begins. */
  lemma ScanIntOfDigits(s: string, negative: bool, ds: string, rest: string)
    requires SplitSign(SkipBlanks(s)) == (negative, ds + rest)
    requires |ds| > 0 && AllDigits(ds) && (rest == [] || !IsDigit(rest[0]))
    requires InInt64(Signed(negative, DigitsValue(ds)))
    ensures ScanInt(s) == Some(Signed(negative, DigitsValue(ds)))
  {
    LeadingDigitsOfDigits(ds, rest);
  }

  lemma NumberStartIsNotBlank(c: char)
    requires c == '+' || c == '-' || IsDigit(c)
    ensures !Text.IsSpace(c)
  {
  }

  /** Whatever Atoi accepts, Sscanf "%d" reads to the same value. */
  lemma AtoiThenScanInt(s: string)
    requires Atoi(s).Some?
    ensures ScanInt(s) == Atoi(s)
  {
    var (negative, body) := SplitSign(s);
    assert body[0] in body;
    NumberStartIsNotBlank(s[0]);
    assert SkipBlanks(s) == s;
    LeadingDigitsOfDigits(body, []);
    assert body + [] == body;
  }
}
