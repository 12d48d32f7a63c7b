/**
  Decimal text of 64-bit integers, as strconv prints and parses it.
 */
module Decimal {
  import opened Types

  const MIN_INT64 := -0x8000_0000_0000_0000
  const MAX_INT64 := 0x7fff_ffff_ffff_ffff

  predicate IsInt64(n: int): (r: bool)
    ensures r <==> -9_223_372_036_854_775_808 <= n <= 9_223_372_036_854_775_807
  {
    MIN_INT64 <= n <= MAX_INT64
  }

  predicate IsDigit(c: char) {
    '0' <= c <= '9'
  }

  function DigitChar(d: int): char
    requires 0 <= d < 10
  {
    ('0' as int + d) as char
  }

  predicate AllDigits(s: string) {
    forall i :: 0 <= i < |s| ==> IsDigit(s[i])
  }

  function FormatNat(n: nat): (s: string)
    ensures s != "" && AllDigits(s)
  {
    if n < 10 then [DigitChar(n)] else FormatNat(n / 10) + [DigitChar(n % 10)]
  }

  function FormatInt(n: int): string {
    if n < 0 then "-" + FormatNat(-n) else FormatNat(n)
  }

  function ValueOf(s: string): nat
    requires AllDigits(s)
  {
    if s == "" then 0 else ValueOf(s[..|s| - 1]) * 10 + (s[|s| - 1] as int - '0' as int)
  }

  /** An optional sign, at least one digit, nothing else, and a value that fits. */
  function ParseInt(s: string): (r: Option<int>)
    ensures r.Some? ==> IsInt64(r.value)
  {
    var signed := s != "" && (s[0] == '+' || s[0] == '-');
    var digits := if signed then s[1..] else s;
    if digits == "" || !AllDigits(digits) then None
    else
      var magnitude: int := ValueOf(digits);
      var n := if signed && s[0] == '-' then 0 - magnitude else magnitude;
      if IsInt64(n) then Some(n) else None
  }

  lemma {:induction false} ValueFormat(n: nat)
    ensures ValueOf(FormatNat(n)) == n
  {
    if n < 10 {
      assert FormatNat(n)[..0] == "";
    } else {
      ValueFormat(n / 10);
      assert FormatNat(n)[..|FormatNat(n)| - 1] == FormatNat(n / 10);
    }
  }

  lemma DigitsOnly(s: string)
    requires AllDigits(s) && s != ""
    ensures s[0] != '+' && s[0] != '-'
    ensures '.' !in s
  {
    assert IsDigit(s[0]);
  }

  lemma ParseDigits(s: string)
    requires AllDigits(s) && s != ""
    ensures var n: int := ValueOf(s);
            && ParseInt(s) == (if IsInt64(n) then Some(n) else None)
            && ParseInt("-" + s) == (if IsInt64(-n) then Some(-n) else None)
  {
    DigitsOnly(s);
    assert ("-" + s)[1..] == s;
  }

  /** Parsing undoes printing on every 64-bit integer; and an integer that does not fit does not parse. */
  lemma ParseFormat(n: int)
    ensures ParseInt(FormatInt(n)) == if IsInt64(n) then Some(n) else None
    ensures FormatInt(n) != "" && '.' !in FormatInt(n)
  {
    var m := if n < 0 then -n else n;
    ValueFormat(m);
    DigitsOnly(FormatNat(m));
    ParseDigits(FormatNat(m));
  }

  // ---- What the text says ------------------------------------------------------------

  /** The ten characters, by value. */
  const DIGITS := "0123456789"

  lemma DigitIs(d: nat)
    requires d < 10
    ensures IsDigit(DIGITS[d]) && DIGITS[d] as int - '0' as int == d && DigitChar(d) == DIGITS[d]
  {
  }

  /** Texts of digits have the value of their decimal digits, the most significant first. */
  lemma ValueSpells(s: string, d: nat)
    requires AllDigits(s) && d < 10
    ensures ValueOf("") == 0
    ensures AllDigits(s + [DIGITS[d]]) && ValueOf(s + [DIGITS[d]]) == 10 * ValueOf(s) + d
  {
    DigitIs(d);
    assert (s + [DIGITS[d]])[..|s|] == s;
  }

  lemma DigitsExactly(c: char)
    ensures IsDigit(c) <==> c in DIGITS
  {
    if IsDigit(c) {
      DigitIs(c as int - '0' as int);
      assert c == DIGITS[c as int - '0' as int];
    }
  }

  /** The text printed for a natural number: digits, of its value, with no leading zero but that of
      zero itself. */
  lemma {:induction false} FormatSpells(n: nat)
    ensures var s := FormatNat(n);
            && s != "" && (forall i :: 0 <= i < |s| ==> s[i] in DIGITS)
            && AllDigits(s) && ValueOf(s) == n
            && (n > 0 ==> s[0] != '0') && (n == 0 ==> s == "0")
  {
    ValueFormat(n);
    forall i | 0 <= i < |FormatNat(n)| ensures FormatNat(n)[i] in DIGITS {
      DigitsExactly(FormatNat(n)[i]);
    }
    if n >= 10 {
      FormatSpells(n / 10);
    }
  }

  /** The text printed for an integer: a minus sign for a negative one, then its magnitude. */
  lemma FormatIntSpells(n: int)
    ensures FormatInt(n) == (if n < 0 then "-" else "") + FormatNat(if n < 0 then -n else n)
  {
  }

  /** `s` is a sign or none, then digits, of value `n`. */
  ghost predicate Denotes(s: string, sign: string, digits: string, n: int) {
    && s == sign + digits && (sign == "" || sign == "+" || sign == "-")
    && digits != "" && AllDigits(digits)
    && n == if sign == "-" then -(ValueOf(digits) as int) else ValueOf(digits)
  }

  /** Exactly which texts parse, and to what. */
  lemma ParsesExactly(s: string, n: int)
    ensures ParseInt(s) == Some(n) <==>
              -9_223_372_036_854_775_808 <= n <= 9_223_372_036_854_775_807
              && exists sign, digits :: Denotes(s, sign, digits, n)
  {
    if ParseInt(s) == Some(n) {
      var signed := s != "" && (s[0] == '+' || s[0] == '-');
      var sign, digits := if signed then s[..1] else "", if signed then s[1..] else s;
      assert s == sign + digits;
      assert Denotes(s, sign, digits, n);
    }
    if sign, digits :| Denotes(s, sign, digits, n) {
      DenotedParses(s, sign, digits, n);
    }
  }

  lemma DenotedParses(s: string, sign: string, digits: string, n: int)
    requires Denotes(s, sign, digits, n)
    ensures ParseInt(s) == if IsInt64(n) then Some(n) else None
  {
    DigitsOnly(digits);
    if sign == "" {
      assert s == digits;
    } else {
      assert s[0] == sign[0] && s[1..] == digits;
    }
  }
}
