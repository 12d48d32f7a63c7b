/**
  Unpadded base64 in the URL-safe alphabet: sections 3.2 and 5 of RFC 4648.
 */
module Base64Url {
  import opened Types

  type Byte = n: int | 0 <= n < 256
  type Sextet = n: int | 0 <= n < 64

  // ---- The alphabet -----------------------------------------------------------

  function CharOf(s: Sextet): char {
    if s < 26 then ('A' as int + s) as char
    else if s < 52 then ('a' as int + (s - 26)) as char
    else if s < 62 then ('0' as int + (s - 52)) as char
    else if s == 62 then '-'
    else '_'
  }

  function SextetOf(c: char): Option<Sextet> {
    if 'A' <= c <= 'Z' then Some(c as int - 'A' as int)
    else if 'a' <= c <= 'z' then Some(c as int - 'a' as int + 26)
    else if '0' <= c <= '9' then Some(c as int - '0' as int + 52)
    else if c == '-' then Some(62)
    else if c == '_' then Some(63)
    else None
  }

  lemma AlphabetInverse(s: Sextet)
    ensures SextetOf(CharOf(s)) == Some(s)
    ensures CharOf(s) != '\n' && CharOf(s) != '\r' && CharOf(s) != '.'
  {
  }

  lemma AlphabetOnto(c: char)
    ensures SextetOf(c).Some? ==> CharOf(SextetOf(c).value) == c
  {
  }

  // ---- Sextets and bytes --------------------------------------------------------

  function Sextet0(a: Byte): Sextet {
    a as int / 4
  }

  function Sextet1(a: Byte, b: Byte): Sextet {
    a as int % 4 * 16 + b as int / 16
  }

  function Sextet2(b: Byte, c: Byte): Sextet {
    b as int % 16 * 4 + c as int / 64
  }

  function Sextet3(c: Byte): Sextet {
    c as int % 64
  }

  function Byte0(p: Sextet, q: Sextet): Byte {
    p as int * 4 + q as int / 16
  }

  function Byte1(q: Sextet, r: Sextet): Byte {
    q as int % 16 * 16 + r as int / 4
  }

  function Byte2(r: Sextet, s: Sextet): Byte {
    r as int % 4 * 64 + s as int
  }

  lemma BytesBack(a: Byte, b: Byte, c: Byte)
    ensures Byte0(Sextet0(a), Sextet1(a, b)) == a
    ensures Byte1(Sextet1(a, b), Sextet2(b, c)) == b
    ensures Byte2(Sextet2(b, c), Sextet3(c)) == c
  {
  }

  lemma SextetsBack(p: Sextet, q: Sextet, r: Sextet, s: Sextet)
    ensures Sextet0(Byte0(p, q)) == p
    ensures Sextet1(Byte0(p, q), Byte1(q, r)) == q
    ensures Sextet2(Byte1(q, r), Byte2(r, s)) == r
    ensures Sextet3(Byte2(r, s)) == s
    ensures Sextet1(Byte0(p, q), 0) == q <==> q % 16 == 0
    ensures Sextet2(Byte1(q, r), 0) == r <==> r % 4 == 0
  {
  }

  function Pack(b: seq<Byte>): (s: seq<Sextet>)
    ensures |s| == (|b| * 4 + 2) / 3
  {
    if |b| == 0 then []
    else if |b| == 1 then [Sextet0(b[0]), Sextet1(b[0], 0)]
    else if |b| == 2 then [Sextet0(b[0]), Sextet1(b[0], b[1]), Sextet2(b[1], 0)]
    else [Sextet0(b[0]), Sextet1(b[0], b[1]), Sextet2(b[1], b[2]), Sextet3(b[2])] + Pack(b[3..])
  }

  /** Bits left over at the end are ignored, whatever they are. */
  function Unpack(s: seq<Sextet>): Option<seq<Byte>> {
    if |s| == 0 then Some([])
    else if |s| == 1 then None
    else if |s| == 2 then Some([Byte0(s[0], s[1])])
    else if |s| == 3 then Some([Byte0(s[0], s[1]), Byte1(s[1], s[2])])
    else
      var rest := Unpack(s[4..]);
      if rest.None? then None
      else Some([Byte0(s[0], s[1]), Byte1(s[1], s[2]), Byte2(s[2], s[3])] + rest.value)
  }

  /** No bits left over. */
  predicate Tight(s: seq<Sextet>) {
    && (|s| % 4 == 2 ==> s[|s| - 1] % 16 == 0)
    && (|s| % 4 == 3 ==> s[|s| - 1] % 4 == 0)
  }

  lemma UnpackQuad(p: Sextet, q: Sextet, r: Sextet, s: Sextet, rest: seq<Sextet>)
    requires Unpack(rest).Some?
    ensures Unpack([p, q, r, s] + rest) == Some([Byte0(p, q), Byte1(q, r), Byte2(r, s)] + Unpack(rest).value)
  {
    assert ([p, q, r, s] + rest)[4..] == rest;
  }

  lemma UnpackCons(a: Byte, b: Byte, c: Byte, rest: seq<Sextet>)
    requires Unpack(rest).Some?
    ensures Unpack([Sextet0(a), Sextet1(a, b), Sextet2(b, c), Sextet3(c)] + rest) == Some([a, b, c] + Unpack(rest).value)
  {
    BytesBack(a, b, c);
    UnpackQuad(Sextet0(a), Sextet1(a, b), Sextet2(b, c), Sextet3(c), rest);
  }

  lemma UnpackPackOne(a: Byte)
    ensures Unpack(Pack([a])) == Some([a])
  {
    BytesBack(a, 0, 0);
    UnpackPair(Sextet0(a), Sextet1(a, 0));
  }

  lemma UnpackPair(p: Sextet, q: Sextet)
    ensures Unpack([p, q]) == Some([Byte0(p, q)])
  {
  }

  lemma UnpackPackTwo(a: Byte, b: Byte)
    ensures Unpack(Pack([a, b])) == Some([a, b])
  {
    BytesBack(a, b, 0);
    assert Pack([a, b]) == [Sextet0(a), Sextet1(a, b), Sextet2(b, 0)];
  }

  lemma {:induction false} UnpackPack(b: seq<Byte>)
    ensures Unpack(Pack(b)) == Some(b)
  {
    if |b| >= 3 {
      UnpackPack(b[3..]);
      UnpackCons(b[0], b[1], b[2], Pack(b[3..]));
      assert b == [b[0], b[1], b[2]] + b[3..];
    } else if |b| == 2 {
      UnpackPackTwo(b[0], b[1]);
      assert b == [b[0], b[1]];
    } else if |b| == 1 {
      UnpackPackOne(b[0]);
      assert b == [b[0]];
    }
  }

  lemma PackUnpackTail(s: seq<Sextet>)
    requires |s| == 2 || |s| == 3
    ensures Pack(Unpack(s).value) == s <==> Tight(s)
  {
    if |s| == 2 {
      SextetsBack(s[0], s[1], 0, 0);
      assert Pack(Unpack(s).value) == [s[0], Sextet1(Byte0(s[0], s[1]), 0)];
    } else {
      SextetsBack(s[0], s[1], s[2], 0);
      assert Pack(Unpack(s).value) == [s[0], s[1], Sextet2(Byte1(s[1], s[2]), 0)];
    }
  }

  lemma TightTail(s: seq<Sextet>)
    requires |s| >= 4
    ensures Tight(s) <==> Tight(s[4..])
  {
    assert |s[4..]| % 4 == |s| % 4;
    assert |s| > 4 ==> s[4..][|s| - 5] == s[|s| - 1];
  }

  lemma {:induction false} PackUnpack(s: seq<Sextet>)
    requires Unpack(s).Some?
    ensures Pack(Unpack(s).value) == s <==> Tight(s)
  {
    if |s| >= 4 {
      var rest := Unpack(s[4..]).value;
      PackUnpack(s[4..]);
      TightTail(s);
      PackCons(s[0], s[1], s[2], s[3], rest);
      Reassemble(s, Pack(rest));
    } else if |s| > 0 {
      PackUnpackTail(s);
    }
  }

  lemma Reassemble(s: seq<Sextet>, t: seq<Sextet>)
    requires |s| >= 4
    ensures [s[0], s[1], s[2], s[3]] + t == s <==> t == s[4..]
  {
    assert s == [s[0], s[1], s[2], s[3]] + s[4..];
    assert ([s[0], s[1], s[2], s[3]] + t)[4..] == t;
  }

  lemma PackCons(p: Sextet, q: Sextet, r: Sextet, s: Sextet, rest: seq<Byte>)
    ensures Pack([Byte0(p, q), Byte1(q, r), Byte2(r, s)] + rest) == [p, q, r, s] + Pack(rest)
  {
    SextetsBack(p, q, r, s);
    assert ([Byte0(p, q), Byte1(q, r), Byte2(r, s)] + rest)[3..] == rest;
  }

  // ---- Text ---------------------------------------------------------------------------

  function Spell(s: seq<Sextet>): (t: string)
    ensures |t| == |s|
  {
    if s == [] then "" else [CharOf(s[0])] + Spell(s[1..])
  }

  function Read(t: string): (r: Option<seq<Sextet>>)
    ensures r.Some? ==> |r.value| == |t|
  {
    if t == "" then Some([])
    else if SextetOf(t[0]).None? || Read(t[1..]).None? then None
    else Some([SextetOf(t[0]).value] + Read(t[1..]).value)
  }

  /** The decoder skips carriage returns and line feeds wherever they stand. */
  function Skip(t: string): string {
    if t == "" then ""
    else if t[0] == '\n' || t[0] == '\r' then Skip(t[1..])
    else [t[0]] + Skip(t[1..])
  }

  function Encode(b: seq<Byte>): string {
    Spell(Pack(b))
  }

  function Decode(t: string): Option<seq<Byte>> {
    var s := Read(Skip(t));
    if s.None? then None else Unpack(s.value)
  }

  lemma ReadCons(c: char, v: Sextet, t: string, rest: seq<Sextet>)
    requires SextetOf(c) == Some(v) && Read(t) == Some(rest)
    ensures Read([c] + t) == Some([v] + rest)
  {
    assert ([c] + t)[1..] == t;
  }

  lemma SkipCons(c: char, t: string)
    requires c != '\n' && c != '\r' && Skip(t) == t
    ensures Skip([c] + t) == [c] + t
  {
    assert ([c] + t)[1..] == t;
  }

  lemma {:induction false} SpellReads(s: seq<Sextet>)
    ensures Skip(Spell(s)) == Spell(s)
    ensures Read(Spell(s)) == Some(s)
    ensures '.' !in Spell(s)
  {
    if s != [] {
      SpellReads(s[1..]);
      SpellConsReads(s[0], s[1..]);
      assert [s[0]] + s[1..] == s;
    }
  }

  lemma SpellConsReads(v: Sextet, rest: seq<Sextet>)
    requires Skip(Spell(rest)) == Spell(rest) && Read(Spell(rest)) == Some(rest) && '.' !in Spell(rest)
    ensures Skip([CharOf(v)] + Spell(rest)) == [CharOf(v)] + Spell(rest)
    ensures Read([CharOf(v)] + Spell(rest)) == Some([v] + rest)
    ensures '.' !in [CharOf(v)] + Spell(rest)
  {
    AlphabetInverse(v);
    ReadCons(CharOf(v), v, Spell(rest), rest);
    SkipCons(CharOf(v), Spell(rest));
  }

  lemma {:induction false} ReadSpells(t: string)
    requires Read(t).Some?
    ensures Spell(Read(t).value) == t
  {
    if t != "" {
      AlphabetOnto(t[0]);
      ReadSpells(t[1..]);
    }
  }

  lemma {:induction false} SkipShorter(t: string)
    ensures |Skip(t)| <= |t|
    ensures Skip(t) == t <==> '\n' !in t && '\r' !in t
  {
    if t != "" {
      SkipShorter(t[1..]);
    }
  }

  /** Decoding undoes encoding, on all byte strings of every length. */
  lemma DecodeEncode(b: seq<Byte>)
    ensures Decode(Encode(b)) == Some(b)
    ensures '.' !in Encode(b)
  {
    SpellReads(Pack(b));
    UnpackPack(b);
  }

  /** Encoding undoes decoding exactly on text without line breaks whose left-over bits are zero. */
  lemma EncodeDecode(t: string)
    requires Decode(t).Some?
    ensures Encode(Decode(t).value) == t <==> '\n' !in t && '\r' !in t && Tight(Read(Skip(t)).value)
  {
    var s := Read(Skip(t)).value;
    SkipShorter(t);
    ReadSpells(Skip(t));
    PackUnpack(s);
    if Encode(Decode(t).value) == t {
      SpellReads(Pack(Unpack(s).value));
    }
  }
}
