/**
  What the text and the bytes of base64 are to each other, without reference to how either is
  computed: the text spells, in the URL-safe alphabet of section 5 of RFC 4648, the base-64 digits of
  the bytes read as one big-endian number.
 */
module Base64Numbers {
  import opened Types
  import opened Base64Url

  const UPPER := "ABCDEFGHIJKLMNOPQRSTUVWXYZ"
  const LOWER := "abcdefghijklmnopqrstuvwxyz"
  const DIGITS := "0123456789"

  /** The 64 characters, by value. */
  const URL_SAFE := UPPER + LOWER + DIGITS + "-_"

  lemma UpperAt(s: nat)
    requires s < 26
    ensures UPPER[s] as int == 65 + s
  {
  }

  lemma LowerAt(s: nat)
    requires s < 26
    ensures LOWER[s] as int == 97 + s
  {
  }

  lemma DigitCharAt(s: nat)
    requires s < 10
    ensures DIGITS[s] as int == 48 + s
  {
  }

  lemma CharIs(s: Sextet)
    ensures |URL_SAFE| == 64 && CharOf(s) == URL_SAFE[s]
  {
    if s < 26 {
      UpperAt(s);
    } else if s < 52 {
      LowerAt(s - 26);
    } else if s < 62 {
      DigitCharAt(s - 52);
    }
  }

  // ---- Numbers ---------------------------------------------------------------------

  function Pow(base: nat, n: nat): nat {
    if n == 0 then 1 else base * Pow(base, n - 1)
  }

  /** The digits read as one number, the most significant first. */
  function FromBase(digits: seq<int>, base: nat): int {
    if digits == [] then 0 else FromBase(digits[..|digits| - 1], base) * base + digits[|digits| - 1]
  }

  /** Digit `i` of a number written with `length` digits in base 64. */
  function DigitAt(number: int, length: nat, i: nat): int
    requires i < length && Pow(64, length - 1 - i) > 0
  {
    number / Pow(64, length - 1 - i) % 64
  }

  lemma {:induction false} PowPositive(base: nat, n: nat)
    requires base > 0
    ensures Pow(base, n) > 0
  {
    if n > 0 {
      PowPositive(base, n - 1);
    }
  }

  lemma Distribute(a: int, b: int, base: int, x: int)
    ensures (a * b) * base + x == a * (base * b) + x
  {
  }

  lemma {:induction false} FromBaseAppend(u: seq<int>, v: seq<int>, base: nat)
    ensures FromBase(u + v, base) == FromBase(u, base) * Pow(base, |v|) + FromBase(v, base)
  {
    if v == [] {
      assert u + v == u;
    } else {
      var init, last := v[..|v| - 1], v[|v| - 1];
      FromBaseAppend(u, init, base);
      assert (u + v)[..|u + v| - 1] == u + init;
      calc {
        FromBase(u + v, base);
        FromBase(u + init, base) * base + last;
        (FromBase(u, base) * Pow(base, |init|) + FromBase(init, base)) * base + last;
        { Expand(FromBase(u, base) * Pow(base, |init|), FromBase(init, base), base); }
        (FromBase(u, base) * Pow(base, |init|)) * base + (FromBase(init, base) * base + last);
        { Distribute(FromBase(u, base), Pow(base, |init|), base, FromBase(v, base)); }
        FromBase(u, base) * Pow(base, |v|) + FromBase(v, base);
      }
    }
  }

  lemma Expand(a: int, b: int, base: int)
    ensures (a + b) * base == a * base + b * base
  {
  }

  lemma DivThrough(a: int, r: int, p: nat)
    requires p > 0 && 0 <= r < 64
    ensures (a * 64 + r) / (64 * p) == a / p
  {
    var q, m := a / p, a % p;
    assert a == p * q + m;
    Regroup(p, q, m, r);
    DivUnique(a * 64 + r, 64 * p, q, m * 64 + r);
  }

  lemma Regroup(p: nat, q: int, m: int, r: int)
    ensures (p * q + m) * 64 + r == (64 * p) * q + (m * 64 + r)
  {
  }

  lemma DivUnique(n: int, d: nat, q: int, r: int)
    requires d > 0 && n == d * q + r && 0 <= r < d
    ensures n / d == q
  {
    var q', r' := n / d, n % d;
    assert d * q + r == d * q' + r';
    assert d * q' - d * q == d * (q' - q);
    SmallMultiple(d, q' - q);
  }

  lemma SmallMultiple(d: nat, k: int)
    requires 0 - d < d * k < d
    ensures k == 0
  {
    if k >= 1 {
      AtLeast(d, k);
    } else if k <= -1 {
      AtLeast(d, -k);
    }
  }

  lemma AtLeast(d: nat, k: int)
    requires k >= 1
    ensures d * k >= d
  {
  }

  lemma {:induction false} DigitsBack(digits: seq<int>, i: nat)
    requires i < |digits| && forall j :: 0 <= j < |digits| ==> 0 <= digits[j] < 64
    ensures Pow(64, |digits| - 1 - i) > 0
    ensures DigitAt(FromBase(digits, 64), |digits|, i) == digits[i]
    decreases |digits|
  {
    var n := |digits|;
    var init := digits[..n - 1];
    if i < n - 1 {
      DigitsBack(init, i);
      DigitUnder(FromBase(init, 64), digits[n - 1], n - 1, i);
    } else {
      DigitLast(FromBase(init, 64), digits[n - 1], n - 1);
    }
  }

  lemma DigitLast(number: int, last: int, length: nat)
    requires 0 <= last < 64
    ensures Pow(64, 0) == 1 && DigitAt(number * 64 + last, length + 1, length) == last
  {
  }

  /** A digit appended at the end leaves those before it. */
  lemma DigitUnder(number: int, last: int, length: nat, i: nat)
    requires i < length && Pow(64, length - 1 - i) > 0 && 0 <= last < 64
    ensures Pow(64, length - i) > 0
    ensures DigitAt(number * 64 + last, length + 1, i) == DigitAt(number, length, i)
  {
    DivThrough(number, last, Pow(64, length - 1 - i));
  }

  // ---- Encoding ------------------------------------------------------------------------

  /** The number `x` with as many zero bits appended as fill the last of the digits of `n` bytes. */
  function Filled(x: int, n: nat): int {
    if n % 3 == 0 then x else if n % 3 == 1 then 16 * x else 4 * x
  }

  lemma {:induction false} PowFilled(n: nat)
    ensures Pow(64, (n * 4 + 2) / 3) == Filled(Pow(256, n), n)
  {
    if n >= 3 {
      PowFilled(n - 3);
      PowFilledStep(n - 3);
    } else {
      SmallPowers();
    }
  }

  lemma PowFilledStep(n: nat)
    requires Pow(64, (n * 4 + 2) / 3) == Filled(Pow(256, n), n)
    ensures Pow(64, ((n + 3) * 4 + 2) / 3) == Filled(Pow(256, n + 3), n + 3)
  {
    assert ((n + 3) * 4 + 2) / 3 == (n * 4 + 2) / 3 + 4;
    PowFour((n * 4 + 2) / 3);
    PowThree(n);
  }

  lemma SmallPowers()
    ensures Pow(64, 0) == 1 && Pow(64, 2) == 4096 && Pow(64, 3) == 262_144
    ensures Pow(256, 0) == 1 && Pow(256, 1) == 256 && Pow(256, 2) == 65_536
  {
    assert Pow(64, 1) == 64 && Pow(256, 1) == 256;
    assert Pow(64, 2) == 4096;
  }

  lemma PowFour(m: nat)
    ensures Pow(64, m + 4) == 16_777_216 * Pow(64, m)
  {
    assert Pow(64, m + 1) == 64 * Pow(64, m);
    assert Pow(64, m + 2) == 64 * Pow(64, m + 1);
    assert Pow(64, m + 3) == 64 * Pow(64, m + 2);
  }

  lemma PowThree(n: nat)
    ensures Pow(256, n + 3) == 16_777_216 * Pow(256, n)
  {
    assert Pow(256, n + 1) == 256 * Pow(256, n);
    assert Pow(256, n + 2) == 256 * Pow(256, n + 1);
  }

  lemma One(p: int, base: nat)
    ensures FromBase([p], base) == p
  {
    assert [p][..0] == [];
  }

  lemma Two(p: int, q: int, base: nat)
    ensures FromBase([p, q], base) == p * base + q
  {
    One(p, base);
    assert [p, q][..1] == [p];
  }

  lemma Three(p: int, q: int, r: int, base: nat)
    ensures FromBase([p, q, r], base) == (p * base + q) * base + r
  {
    Two(p, q, base);
    assert [p, q, r][..2] == [p, q];
  }

  lemma Four(p: int, q: int, r: int, s: int, base: nat)
    ensures FromBase([p, q, r, s], base) == ((p * base + q) * base + r) * base + s
  {
    Three(p, q, r, base);
    assert [p, q, r, s][..3] == [p, q, r];
  }

  /** Three bytes and the four sextets made of them are the same number. */
  lemma GroupNumber(a: Byte, b: Byte, c: Byte)
    ensures FromBase([Sextet0(a), Sextet1(a, b), Sextet2(b, c), Sextet3(c)], 64) == FromBase([a, b, c], 256)
  {
    Four(Sextet0(a), Sextet1(a, b), Sextet2(b, c), Sextet3(c), 64);
    Three(a, b, c, 256);
  }

  lemma Factor(g: int, p: int, n: nat)
    ensures g * Filled(p, n) == Filled(g * p, n)
  {
    assert g * (16 * p) == 16 * (g * p);
    assert g * (4 * p) == 4 * (g * p);
  }

  /** The digits `v` are the bytes `b` filled up, but for `left`. */
  ghost predicate Stands(v: seq<int>, b: seq<int>, left: int) {
    FromBase(v, 64) == Filled(FromBase(b, 256), |b|) + left
  }

  /** So many digits hold so many bytes, filled up. */
  ghost predicate Fills(v: seq<int>, b: seq<int>) {
    Pow(64, |v|) == Filled(Pow(256, |b|), |b|)
  }

  /** A whole group of digits put before others, and its three bytes before theirs. */
  lemma Combine(u: seq<int>, v: seq<int>, a: seq<int>, b: seq<int>, left: int)
    requires |a| == 3 && FromBase(u, 64) == FromBase(a, 256) && Stands(v, b, left) && Fills(v, b)
    ensures Stands(u + v, a + b, left)
  {
    FromBaseAppend(u, v, 64);
    FromBaseAppend(a, b, 256);
    Factor(FromBase(a, 256), Pow(256, |b|), |b|);
    assert |a + b| % 3 == |b| % 3;
  }

  lemma TailNumber(b: seq<Byte>)
    requires |b| < 3
    ensures Stands(Pack(b), b, 0)
  {
    if |b| == 1 {
      TailOne(b);
    } else if |b| == 2 {
      TailTwo(b);
    }
  }

  lemma TailOne(b: seq<Byte>)
    requires |b| == 1
    ensures Stands(Pack(b), b, 0)
  {
    var a := b[0];
    assert b == [a];
    OneNumber(a);
  }

  lemma TailTwo(b: seq<Byte>)
    requires |b| == 2
    ensures Stands(Pack(b), b, 0)
  {
    var a, c := b[0], b[1];
    assert b == [a, c];
    TwoNumber(a, c);
  }

  lemma OneNumber(a: Byte)
    ensures Stands(Pack([a]), [a], 0)
  {
    assert Pack([a]) == [Sextet0(a), Sextet1(a, 0)];
    Two(Sextet0(a), Sextet1(a, 0), 64);
    One(a, 256);
  }

  lemma TwoNumber(a: Byte, b: Byte)
    ensures Stands(Pack([a, b]), [a, b], 0)
  {
    assert Pack([a, b]) == [Sextet0(a), Sextet1(a, b), Sextet2(b, 0)];
    Three(Sextet0(a), Sextet1(a, b), Sextet2(b, 0), 64);
    Two(a, b, 256);
  }

  /** Packing makes of the bytes, read as one number, the same number filled up with zero bits. */
  lemma {:induction false} PackNumber(b: seq<Byte>)
    ensures Stands(Pack(b), b, 0)
  {
    if |b| < 3 {
      TailNumber(b);
    } else {
      PackNumber(b[3..]);
      PackNumberCons(b[0], b[1], b[2], b[3..]);
      assert b == [b[0], b[1], b[2]] + b[3..];
    }
  }

  lemma PackNumberCons(a: Byte, b: Byte, c: Byte, rest: seq<Byte>)
    requires Stands(Pack(rest), rest, 0)
    ensures Stands(Pack([a, b, c] + rest), [a, b, c] + rest, 0)
  {
    var group := [Sextet0(a), Sextet1(a, b), Sextet2(b, c), Sextet3(c)];
    GroupNumber(a, b, c);
    PackPower(rest);
    Combine(group, Pack(rest), [a, b, c], rest, 0);
    PackSplits(a, b, c, rest);
  }

  lemma PackSplits(a: Byte, b: Byte, c: Byte, rest: seq<Byte>)
    ensures Pack([a, b, c] + rest) == [Sextet0(a), Sextet1(a, b), Sextet2(b, c), Sextet3(c)] + Pack(rest)
  {
    assert ([a, b, c] + rest)[3..] == rest;
  }

  lemma PackPower(b: seq<Byte>)
    ensures Fills(Pack(b), b)
  {
    PowFilled(|b|);
  }

  lemma {:induction false} SpellAt(s: seq<Sextet>, i: nat)
    requires i < |s|
    ensures Spell(s)[i] == URL_SAFE[s[i]]
  {
    CharIs(s[0]);
    if i > 0 {
      SpellAt(s[1..], i - 1);
    }
  }

  /** What is encoded: the i-th character is that of the i-th six-bit digit of the bytes, read as one
      big-endian number and filled up with zero bits; as many as are needed for all the bits. */
  lemma EncodeSpells(b: seq<Byte>, i: nat)
    requires i < |Encode(b)|
    ensures |Encode(b)| == (|b| * 8 + 5) / 6 && Pow(64, |Encode(b)| - 1 - i) > 0
    ensures var digit := DigitAt(Filled(FromBase(b, 256), |b|), |Encode(b)|, i);
            0 <= digit < 64 == |URL_SAFE| && Encode(b)[i] == URL_SAFE[digit]
  {
    CharIs(0);
    PackNumber(b);
    DigitsBack(Pack(b), i);
    SpellAt(Pack(b), i);
  }

  lemma EncodeLength(b: seq<Byte>)
    ensures |Encode(b)| == (|b| * 8 + 5) / 6
  {
  }

  // ---- Decoding ------------------------------------------------------------------------

  predicate IsBreak(c: char) {
    c == '\n' || c == '\r'
  }

  /** The text without its line breaks. */
  function Letters(t: string): string {
    if t == "" then ""
    else Letters(t[..|t| - 1]) + if IsBreak(t[|t| - 1]) then "" else [t[|t| - 1]]
  }

  lemma {:induction false} SkipAppend(u: string, c: char)
    ensures Skip(u + [c]) == Skip(u) + if IsBreak(c) then "" else [c]
  {
    if u == "" {
      assert u + [c] == [c] && [c][1..] == "";
    } else {
      SkipAppend(u[1..], c);
      assert (u + [c])[1..] == u[1..] + [c];
    }
  }

  lemma {:induction false} SkipIsLetters(t: string)
    ensures Skip(t) == Letters(t)
  {
    if t != "" {
      SkipIsLetters(t[..|t| - 1]);
      SkipAppend(t[..|t| - 1], t[|t| - 1]);
      assert t == t[..|t| - 1] + [t[|t| - 1]];
    }
  }

  lemma InAlphabet(c: char)
    ensures SextetOf(c).Some? <==> c in URL_SAFE
    ensures SextetOf(c).Some? ==> |URL_SAFE| == 64 && URL_SAFE[SextetOf(c).value] == c
  {
    if SextetOf(c).Some? {
      AlphabetOnto(c);
      CharIs(SextetOf(c).value);
    }
    if c in URL_SAFE {
      CharIs(0);
      var j :| 0 <= j < |URL_SAFE| && URL_SAFE[j] == c;
      CharIs(j);
      AlphabetInverse(j);
    }
  }

  /** The places of the characters of `t` in the alphabet. */
  ghost predicate Places(t: string, digits: seq<int>) {
    |digits| == |t| && forall i :: 0 <= i < |t| ==> 0 <= digits[i] < |URL_SAFE| && URL_SAFE[digits[i]] == t[i]
  }

  lemma {:induction false} ReadPlaces(t: string)
    ensures Read(t).Some? <==> forall i :: 0 <= i < |t| ==> t[i] in URL_SAFE
    ensures Read(t).Some? ==> forall i :: 0 <= i < |t| ==> SextetOf(t[i]) == Some(Read(t).value[i])
  {
    if t != "" {
      ReadPlaces(t[1..]);
      InAlphabet(t[0]);
      assert forall i | 0 < i < |t| :: t[i] == t[1..][i - 1];
      assert forall i | 0 <= i < |t| - 1 :: t[1..][i] == t[i + 1];
    }
  }

  lemma PlaceIsSextet(c: char, d: int)
    requires 0 <= d < |URL_SAFE| && URL_SAFE[d] == c
    ensures SextetOf(c) == Some(d)
  {
    CharIs(0);
    CharIs(d);
    AlphabetInverse(d);
  }

  lemma {:induction false} UnpackSome(s: seq<Sextet>)
    ensures Unpack(s).Some? <==> |s| % 4 != 1
    ensures Unpack(s).Some? ==> |Unpack(s).value| == |s| * 3 / 4
  {
    if |s| >= 4 {
      UnpackSome(s[4..]);
      LengthStep(|s| - 4);
    }
  }

  lemma LengthStep(m: nat)
    ensures (m + 4) * 3 / 4 == m * 3 / 4 + 3 && (m + 4) % 4 == m % 4
  {
  }

  /** Exactly which texts decode: line breaks aside, characters of the alphabet, in a number which
      whole bytes can fill. */
  lemma DecodesExactly(t: string)
    ensures Decode(t).Some? <==>
              (forall i :: 0 <= i < |Letters(t)| ==> Letters(t)[i] in URL_SAFE) && |Letters(t)| % 4 != 1
  {
    SkipIsLetters(t);
    ReadPlaces(Letters(t));
    if Read(Letters(t)).Some? {
      UnpackSome(Read(Letters(t)).value);
    }
  }

  /** Bytes `b` are the digits `s` but for bits left over at the end. */
  ghost predicate CutFrom(s: seq<int>, b: seq<int>) {
    Stands(s, b, Left(s, b)) && 0 <= Left(s, b) < Filled(1, |b|)
  }

  function Left(s: seq<int>, b: seq<int>): int {
    FromBase(s, 64) - Filled(FromBase(b, 256), |b|)
  }

  lemma BackGroup(p: Sextet, q: Sextet, r: Sextet, s: Sextet)
    ensures FromBase([Byte0(p, q), Byte1(q, r), Byte2(r, s)], 256) == FromBase([p, q, r, s], 64)
  {
    Four(p, q, r, s, 64);
    Three(Byte0(p, q), Byte1(q, r), Byte2(r, s), 256);
  }

  lemma CutPair(p: Sextet, q: Sextet)
    ensures CutFrom([p, q], [Byte0(p, q)])
  {
    PairArithmetic(p, q);
    PairNumbers(p, q, Byte0(p, q));
  }

  lemma PairNumbers(p: int, q: int, a: int)
    requires 0 <= p * 64 + q - 16 * a < 16
    ensures CutFrom([p, q], [a])
  {
    Two(p, q, 64);
    One(a, 256);
  }

  lemma PairArithmetic(p: int, q: int)
    requires 0 <= p < 64 && 0 <= q < 64
    ensures var a: int := Byte0(p, q); 0 <= p * 64 + q - 16 * a < 16
  {
  }

  lemma CutTriple(p: Sextet, q: Sextet, r: Sextet)
    ensures CutFrom([p, q, r], [Byte0(p, q), Byte1(q, r)])
  {
    TripleArithmetic(p, q, r);
    TripleNumbers(p, q, r, Byte0(p, q), Byte1(q, r));
  }

  lemma TripleNumbers(p: int, q: int, r: int, a: int, b: int)
    requires 0 <= (p * 64 + q) * 64 + r - 4 * (a * 256 + b) < 4
    ensures CutFrom([p, q, r], [a, b])
  {
    Three(p, q, r, 64);
    Two(a, b, 256);
  }

  lemma TripleArithmetic(p: int, q: int, r: int)
    requires 0 <= p < 64 && 0 <= q < 64 && 0 <= r < 64
    ensures var a: int, b: int := Byte0(p, q), Byte1(q, r);
            0 <= (p * 64 + q) * 64 + r - 4 * (a * 256 + b) < 4
  {
  }

  lemma {:induction false} UnpackNumber(s: seq<Sextet>)
    requires Unpack(s).Some?
    ensures CutFrom(s, Unpack(s).value)
  {
    if |s| == 2 {
      CutPair(s[0], s[1]);
      assert s == [s[0], s[1]];
    } else if |s| == 3 {
      CutTriple(s[0], s[1], s[2]);
      assert s == [s[0], s[1], s[2]];
    } else if |s| >= 4 {
      UnpackNumber(s[4..]);
      UnpackNumberCons(s[0], s[1], s[2], s[3], s[4..]);
      assert s == [s[0], s[1], s[2], s[3]] + s[4..];
    }
  }

  lemma UnpackNumberCons(p: Sextet, q: Sextet, r: Sextet, t: Sextet, rest: seq<Sextet>)
    requires Unpack(rest).Some? && CutFrom(rest, Unpack(rest).value)
    ensures Unpack([p, q, r, t] + rest).Some?
    ensures CutFrom([p, q, r, t] + rest, Unpack([p, q, r, t] + rest).value)
  {
    var b := Unpack(rest).value;
    UnpackQuad(p, q, r, t, rest);
    BackGroup(p, q, r, t);
    UnpackPower(rest);
    CutCombine([p, q, r, t], rest, [Byte0(p, q), Byte1(q, r), Byte2(r, t)], b);
  }

  lemma CutCombine(u: seq<int>, v: seq<int>, a: seq<int>, b: seq<int>)
    requires |a| == 3 && FromBase(u, 64) == FromBase(a, 256) && CutFrom(v, b) && Fills(v, b)
    ensures CutFrom(u + v, a + b)
  {
    Combine(u, v, a, b, Left(v, b));
    assert |a + b| % 3 == |b| % 3;
  }

  lemma UnpackPower(s: seq<Sextet>)
    requires Unpack(s).Some?
    ensures Fills(s, Unpack(s).value)
  {
    UnpackSome(s);
    LengthBack(|s|);
    PowFilled(|Unpack(s).value|);
  }

  lemma LengthBack(m: nat)
    requires m % 4 != 1
    ensures (m * 3 / 4 * 4 + 2) / 3 == m
  {
    var k, r := m / 4, m % 4;
    assert m * 3 / 4 == 3 * k + r * 3 / 4;
  }

  lemma CutDivides(s: seq<int>, b: seq<int>)
    requires CutFrom(s, b)
    ensures FromBase(b, 256) == FromBase(s, 64) / Filled(1, |b|)
  {
  }

  /** What is decoded: the places in the alphabet, read as one big-endian number, without the bits that
      are left over at its end; so many bytes of it. */
  lemma DecodeReads(t: string, digits: seq<int>)
    requires Decode(t).Some? && Places(Letters(t), digits)
    ensures |Decode(t).value| == |digits| * 3 / 4
    ensures FromBase(Decode(t).value, 256) == FromBase(digits, 64) / Filled(1, |Decode(t).value|)
  {
    SkipIsLetters(t);
    ReadPlaces(Letters(t));
    var s := Read(Letters(t)).value;
    forall i | 0 <= i < |digits| ensures digits[i] == s[i] {
      PlaceIsSextet(Letters(t)[i], digits[i]);
    }
    assert digits == s;
    UnpackSome(s);
    UnpackNumber(s);
    CutDivides(s, Decode(t).value);
  }
}
