/** Block ids: how the index of a chunk is read from the identifier its client made up. */
module BlockId {
  import opened Decimals
  import opened ObjectNames
  import opened Types

  // ---------- base64 with padding (section 4 of RFC 4648) ----------

  function Symbol(v: nat): char
    requires v < 64
  {
    if v < 26 then 'A' + (v as char)
    else if v < 52 then 'a' + ((v - 26) as char)
    else if v < 62 then '0' + ((v - 52) as char)
    else if v == 62 then '+' else '/'
  }

  /** The six bits a character stands for. */
  function Bits(c: char): (v: Option<nat>)
    ensures v.Some? ==> v.value < 64
  {
    if 'A' <= c <= 'Z' then Some((c - 'A') as nat)
    else if 'a' <= c <= 'z' then Some((c - 'a') as nat + 26)
    else if '0' <= c <= '9' then Some((c - '0') as nat + 52)
    else if c == '+' then Some(62)
    else if c == '/' then Some(63)
    else None
  }

  lemma BitsOfSymbol(v: nat)
    requires v < 64
    ensures Bits(Symbol(v)) == Some(v) && Symbol(v) != '=' && Symbol(v) != '\r' && Symbol(v) != '\n'
  {
  }

  function Encode(b: Bytes): string {
    if |b| == 0 then ""
    else if |b| == 1 then [Symbol(b[0] / 4), Symbol(b[0] % 4 * 16), '=', '=']
    else if |b| == 2 then [Symbol(b[0] / 4), Symbol(b[0] % 4 * 16 + b[1] / 16), Symbol(b[1] % 16 * 4), '=']
    else Quantum(b[0], b[1], b[2]) + Encode(b[3..])
  }

  function Quantum(x: byte, y: byte, z: byte): (s: string)
    ensures |s| == 4
  {
    [Symbol(x / 4), Symbol(x % 4 * 16 + y / 16), Symbol(y % 16 * 4 + z / 64), Symbol(z % 64)]
  }

  /** Line breaks are skipped wherever they stand. */
  function Stripped(s: string): string {
    if s == "" then "" else (if s[0] == '\r' || s[0] == '\n' then "" else [s[0]]) + Stripped(s[1..])
  }

  function Decode(s: string): Option<Bytes> {
    DecodeQuanta(Stripped(s))
  }

  function DecodeQuanta(t: string): Option<Bytes> {
    if t == "" then Some([])
    else if |t| < 4 then None
    else
      var v, w, x, y := Bits(t[0]), Bits(t[1]), Bits(t[2]), Bits(t[3]);
      if v.None? || w.None? then None
      else if x.None? then
        if t[2..] == "==" then Some([First(v.value, w.value)]) else None
      else if y.None? then
        if t[3..] == "=" then Some([First(v.value, w.value), Second(w.value, x.value)]) else None
      else
        match DecodeQuanta(t[4..])
        case None => None
        case Some(rest) => Some([First(v.value, w.value), Second(w.value, x.value), Third(x.value, y.value)] + rest)
  }

  function First(v: nat, w: nat): byte
    requires v < 64 && w < 64
  {
    v * 4 + w / 16
  }

  function Second(w: nat, x: nat): byte
    requires w < 64 && x < 64
  {
    w % 16 * 16 + x / 4
  }

  function Third(x: nat, y: nat): byte
    requires x < 64 && y < 64
  {
    x % 4 * 64 + y
  }

  lemma SixBits(x: byte, y: byte, z: byte)
    ensures First(x / 4, x % 4 * 16 + y / 16) == x
    ensures Second(x % 4 * 16 + y / 16, y % 16 * 4 + z / 64) == y
    ensures Third(y % 16 * 4 + z / 64, z % 64) == z
  {
  }

  lemma QuantumDecodes(x: byte, y: byte, z: byte, t: string)
    ensures DecodeQuanta(Quantum(x, y, z) + t)
         == match DecodeQuanta(t) case None => None case Some(rest) => Some([x, y, z] + rest)
  {
    SixBits(x, y, z);
    BitsOfSymbol(x / 4);
    BitsOfSymbol(x % 4 * 16 + y / 16);
    BitsOfSymbol(y % 16 * 4 + z / 64);
    BitsOfSymbol(z % 64);
    var s := Quantum(x, y, z) + t;
    assert s[4..] == t;
    assert s[0] == Symbol(x / 4) && s[1] == Symbol(x % 4 * 16 + y / 16);
    assert s[2] == Symbol(y % 16 * 4 + z / 64) && s[3] == Symbol(z % 64);
  }

  lemma OneByteDecodes(x: byte)
    ensures DecodeQuanta([Symbol(x / 4), Symbol(x % 4 * 16), '=', '=']) == Some([x])
  {
    SixBits(x, 0, 0);
    BitsOfSymbol(x / 4);
    BitsOfSymbol(x % 4 * 16);
    assert [Symbol(x / 4), Symbol(x % 4 * 16), '=', '='][2..] == "==";
  }

  lemma TwoBytesDecode(x: byte, y: byte)
    ensures DecodeQuanta([Symbol(x / 4), Symbol(x % 4 * 16 + y / 16), Symbol(y % 16 * 4), '=']) == Some([x, y])
  {
    SixBits(x, y, 0);
    BitsOfSymbol(x / 4);
    BitsOfSymbol(x % 4 * 16 + y / 16);
    BitsOfSymbol(y % 16 * 4);
    assert [Symbol(x / 4), Symbol(x % 4 * 16 + y / 16), Symbol(y % 16 * 4), '='][3..] == "=";
  }

  lemma {:induction false} QuantaOfEncoded(b: Bytes)
    ensures DecodeQuanta(Encode(b)) == Some(b)
  {
    hide Symbol, DecodeQuanta, Quantum;
    if |b| == 0 {
      NothingDecodes();
    } else if |b| == 1 {
      OneByteDecodes(b[0]);
      assert b == [b[0]];
    } else if |b| == 2 {
      TwoBytesDecode(b[0], b[1]);
      assert b == [b[0], b[1]];
    } else {
      QuantaOfEncoded(b[3..]);
      QuantumDecodes(b[0], b[1], b[2], Encode(b[3..]));
      assert b == [b[0], b[1], b[2]] + b[3..];
    }
  }

  lemma NothingDecodes()
    ensures DecodeQuanta("") == Some([])
  {
  }

  predicate NoBreaks(s: string) {
    forall i :: 0 <= i < |s| ==> s[i] != '\r' && s[i] != '\n'
  }

  lemma {:induction false} StripNothing(s: string)
    requires NoBreaks(s)
    ensures Stripped(s) == s
  {
    if s != "" {
      StripNothing(s[1..]);
    }
  }

  lemma {:induction false} EncodedHasNoBreaks(b: Bytes)
    ensures NoBreaks(Encode(b))
  {
    if |b| > 2 {
      EncodedHasNoBreaks(b[3..]);
    }
  }

  lemma DecodeEncode(b: Bytes)
    ensures Decode(Encode(b)) == Some(b)
  {
    EncodedHasNoBreaks(b);
    StripNothing(Encode(b));
    QuantaOfEncoded(b);
  }

  // ---------- what else is decoded ----------

  lemma SymbolOfBits(c: char)
    requires Bits(c).Some?
    ensures Symbol(Bits(c).value) == c
  {
  }

  /** t spells b: it is the encoding of b, but for the spare bits of the last symbol, which are not looked at. */
  predicate Spells(t: string, b: Bytes) {
    if |b| == 0 then t == ""
    else if |b| == 1 then
      && |t| == 4 && t[0] == Symbol(b[0] / 4) && t[2..] == "=="
      && Bits(t[1]).Some? && Bits(t[1]).value / 16 == b[0] % 4
    else if |b| == 2 then
      && |t| == 4 && t[0] == Symbol(b[0] / 4) && t[1] == Symbol(b[0] % 4 * 16 + b[1] / 16) && t[3..] == "="
      && Bits(t[2]).Some? && Bits(t[2]).value / 4 == b[1] % 16
    else |t| >= 4 && t[..4] == Quantum(b[0], b[1], b[2]) && Spells(t[4..], b[3..])
  }

  lemma SymbolIs(c: char, v: nat)
    requires v < 64 && Bits(c).Some?
    ensures c == Symbol(v) <==> Bits(c).value == v
  {
    SymbolOfBits(c);
    BitsOfSymbol(v);
  }

  /** Three bytes determine four symbols and the other way round. */
  lemma FourOfThree(v: nat, w: nat, x: nat, y: nat, a: byte, b: byte, c: byte)
    requires v < 64 && w < 64 && x < 64 && y < 64
    ensures v == a / 4 && w == a % 4 * 16 + b / 16 && x == b % 16 * 4 + c / 64 && y == c % 64
       <==> a == First(v, w) && b == Second(w, x) && c == Third(x, y)
  {
  }

  lemma ThreeOfTwo(v: nat, w: nat, x: nat, a: byte, b: byte)
    requires v < 64 && w < 64 && x < 64
    ensures v == a / 4 && w == a % 4 * 16 + b / 16 && x / 4 == b % 16
       <==> a == First(v, w) && b == Second(w, x)
  {
  }

  lemma QuantumOfBits(t: string, x: byte, y: byte, z: byte)
    requires |t| == 4 && forall i :: 0 <= i < 4 ==> Bits(t[i]).Some?
    ensures t == Quantum(x, y, z)
       <==> && x == First(Bits(t[0]).value, Bits(t[1]).value)
            && y == Second(Bits(t[1]).value, Bits(t[2]).value)
            && z == Third(Bits(t[2]).value, Bits(t[3]).value)
  {
    hide Bits, Symbol, First, Second, Third;
    FourOfThree(Bits(t[0]).value, Bits(t[1]).value, Bits(t[2]).value, Bits(t[3]).value, x, y, z);
    SymbolIs(t[0], x / 4);
    SymbolIs(t[1], x % 4 * 16 + y / 16);
    SymbolIs(t[2], y % 16 * 4 + z / 64);
    SymbolIs(t[3], z % 64);
  }

  lemma QuantumHasBits(x: byte, y: byte, z: byte)
    ensures forall i :: 0 <= i < 4 ==> Bits(Quantum(x, y, z)[i]).Some?
  {
    BitsOfSymbol(x / 4);
    BitsOfSymbol(x % 4 * 16 + y / 16);
    BitsOfSymbol(y % 16 * 4 + z / 64);
    BitsOfSymbol(z % 64);
  }

  /** Line breaks and spare bits apart, exactly the encodings are decoded. */
  lemma {:induction false} DecodesExactly(t: string, b: Bytes)
    ensures DecodeQuanta(t) == Some(b) <==> Spells(t, b)
    decreases |t|
  {
    if |t| >= 4 && forall i :: 0 <= i < 4 ==> Bits(t[i]).Some? {
      DecodesFullQuantum(t, b);
    } else if |b| > 2 {
      ShortDecodes(t, b);
    } else {
      LastQuantum(t, b);
    }
  }

  lemma DecodesFullQuantum(t: string, b: Bytes)
    requires |t| >= 4 && forall i :: 0 <= i < 4 ==> Bits(t[i]).Some?
    ensures DecodeQuanta(t) == Some(b) <==> Spells(t, b)
    decreases |t|, 0
  {
    var v, w, x, y := Bits(t[0]).value, Bits(t[1]).value, Bits(t[2]).value, Bits(t[3]).value;
    assert t[..4][0] == t[0] && t[..4][1] == t[1] && t[..4][2] == t[2] && t[..4][3] == t[3];
    assert t[2..][0] == t[2] && t[3..][0] == t[3] && Bits('=').None?;
    hide Bits, Symbol, First, Second, Third, Quantum;
    if |b| > 2 {
      DecodesExactly(t[4..], b[3..]);
      QuantumOfBits(t[..4], b[0], b[1], b[2]);
      assert b == [b[0], b[1], b[2]] + b[3..];
    } else if DecodeQuanta(t[4..]).Some? {
      assert |DecodeQuanta(t).value| >= 3;
    }
  }

  lemma ShortDecodes(t: string, b: Bytes)
    requires |b| > 2 && (|t| < 4 || exists i :: 0 <= i < 4 && Bits(t[i]).None?)
    ensures DecodeQuanta(t) != Some(b) && !Spells(t, b)
  {
    hide Bits, Symbol, First, Second, Third, Quantum;
    QuantumHasBits(b[0], b[1], b[2]);
    assert |t| >= 4 ==> forall i :: 0 <= i < 4 ==> t[..4][i] == t[i];
  }

  lemma LastQuantum(t: string, b: Bytes)
    requires |b| <= 2 && (|t| < 4 || exists i :: 0 <= i < 4 && Bits(t[i]).None?)
    ensures DecodeQuanta(t) == Some(b) <==> Spells(t, b)
  {
    if |b| == 1 && |t| == 4 {
      LastOne(t, b[0]);
      assert b == [b[0]];
    } else if |b| == 2 && |t| == 4 {
      LastTwo(t, b[0], b[1]);
      assert b == [b[0], b[1]];
    } else if |t| > 4 {
      assert |t[2..]| > 2 && |t[3..]| > 1;
    }
  }

  lemma LastOne(t: string, x: byte)
    requires |t| == 4 && exists i :: 0 <= i < 4 && Bits(t[i]).None?
    ensures DecodeQuanta(t) == Some([x]) <==> Spells(t, [x])
  {
    hide Symbol, Bits;
    PaddingHasNoBits();
    BitsOfSymbol(x / 4);
    if Bits(t[0]).Some? { SymbolIs(t[0], x / 4); }
    assert t[2..] == "==" ==> t[2] == '=';
  }

  lemma PaddingHasNoBits()
    ensures Bits('=').None?
  {
  }

  lemma LastTwo(t: string, x: byte, y: byte)
    requires |t| == 4 && exists i :: 0 <= i < 4 && Bits(t[i]).None?
    ensures DecodeQuanta(t) == Some([x, y]) <==> Spells(t, [x, y])
  {
    hide Symbol, Bits, First, Second, Third;
    PaddingHasNoBits();
    BitsOfSymbol(x / 4);
    BitsOfSymbol(x % 4 * 16 + y / 16);
    assert t[3..] == "=" <==> t[3] == '=';
    if Bits(t[0]).Some? && Bits(t[1]).Some? && Bits(t[2]).Some? {
      SymbolIs(t[0], x / 4);
      SymbolIs(t[1], x % 4 * 16 + y / 16);
      ThreeOfTwo(Bits(t[0]).value, Bits(t[1]).value, Bits(t[2]).value, x, y);
    }
  }

  // ---------- the two layouts ----------

  /** binary.BigEndian.Uint32 of four bytes. */
  function Uint32(b: Bytes): nat
    requires |b| == 4
  {
    b[0] as int * 0x100_0000 + b[1] as int * 0x1_0000 + b[2] as int * 256 + b[3] as int
  }

  function BigEndian(n: nat): (b: Bytes)
    requires n < 0x1_0000_0000
    ensures |b| == 4
  {
    [n / 256 / 256 / 256, n / 256 / 256 % 256, n / 256 % 256, n % 256]
  }

  lemma Uint32BigEndian(n: nat)
    requires n < 0x1_0000_0000
    ensures Uint32(BigEndian(n)) == n
  {
    var k := n / 256;
    var j := k / 256;
    assert n == 256 * k + n % 256 && k == 256 * j + k % 256 && j == 256 * (j / 256) + j % 256 && j / 256 < 256;
  }

  lemma BigEndianUint32(b: Bytes)
    requires |b| == 4
    ensures Uint32(b) < 0x1_0000_0000 && BigEndian(Uint32(b)) == b
  {
    var n := Uint32(b);
    assert n / 256 == b[0] as int * 0x1_0000 + b[1] as int * 256 + b[2] as int;
    assert n / 256 / 256 == b[0] as int * 256 + b[1] as int;
    assert n / 256 / 256 / 256 == b[0] as int;
  }

  /** Each byte as a character of its own. */
  function Text(b: Bytes): (s: string)
    ensures |s| == |b| && forall i :: 0 <= i < |b| ==> s[i] as int == b[i]
  {
    if b == [] then "" else [b[0] as char] + Text(b[1..])
  }

  function Raw(s: string): (b: Bytes)
    requires forall i :: 0 <= i < |s| ==> s[i] as int < 256
    ensures |b| == |s| && forall i :: 0 <= i < |s| ==> b[i] == s[i] as int
  {
    if s == "" then [] else [s[0] as int] + Raw(s[1..])
  }

  function ChunkIndexFromBlockID(s: string): Option<int> {
    match Decode(s)
    case None => None
    case Some(b) =>
      if |b| == 64 then Some(Uint32(b[16..20]))
      else if |b| == 48 then Atoi(Text(b)[36..])
      else None
  }

  /** In the 64-byte layout the index is exactly bytes 16 to 19, so it round-trips, and two ids have the same
      index if and only if they agree in these bytes. */
  lemma BinaryRoundTrip(head: Bytes, n: nat, tail: Bytes)
    requires |head| == 16 && |tail| == 44 && n < 0x1_0000_0000
    ensures ChunkIndexFromBlockID(Encode(head + BigEndian(n) + tail)) == Some(n)
  {
    DecodeEncode(head + BigEndian(n) + tail);
    assert (head + BigEndian(n) + tail)[16..20] == BigEndian(n);
    Uint32BigEndian(n);
  }

  lemma BinaryIndexInjective(b: Bytes, c: Bytes)
    requires |b| == 64 && |c| == 64
    ensures ChunkIndexFromBlockID(Encode(b)) == ChunkIndexFromBlockID(Encode(c)) <==> b[16..20] == c[16..20]
  {
    DecodeEncode(b);
    DecodeEncode(c);
    BigEndianUint32(b[16..20]);
    BigEndianUint32(c[16..20]);
  }

  lemma PowerOfTwelve()
    ensures Power10(11) == 100_000_000_000 && Power10(12) == 1_000_000_000_000
  {
    assert Power10(2) == 100;
    assert Power10(4) == 10_000;
    assert Power10(8) == 100_000_000;
  }

  lemma TextTail(head: Bytes, s: string)
    requires |head| == 36 && forall i :: 0 <= i < |s| ==> s[i] as int < 256
    ensures Text(head + Raw(s))[36..] == s
  {
  }

  lemma SuffixIndex(head: Bytes, s: string)
    requires |head| == 36 && |s| == 12 && forall i :: 0 <= i < |s| ==> s[i] as int < 256
    ensures ChunkIndexFromBlockID(Encode(head + Raw(s))) == Atoi(s)
  {
    DecodeEncode(head + Raw(s));
    TextTail(head, s);
  }

  /** In the 48-byte layout the index is the 12-digit number after any 36 bytes. */
  lemma DecimalRoundTrip(head: Bytes, n: nat)
    requires |head| == 36 && n < 1_000_000_000_000
    ensures ChunkIndexFromBlockID(Encode(head + Raw(Padded(n, 12)))) == Some(n)
  {
    PowerOfTwelve();
    ValueOfPadded(n, 12);
    AtoiNumeral(Padded(n, 12));
    SuffixIndex(head, Padded(n, 12));
  }

  /** The last 12 bytes of the 48-byte layout as characters. */
  function Suffix(b: Bytes): (s: string)
    requires |b| == 48
    ensures |s| == 12
  {
    Text(b)[36..]
  }

  /** What Atoi accepts, and how large the numbers are. */
  lemma AtoiAccepts(s: string)
    requires |s| > 0
    ensures Atoi(s).Some? <==> IsNumeral(s) || (s[0] in "+-" && IsNumeral(s[1..]))
    ensures Atoi(s).Some? ==> -(Power10(|s| - 1) as int) < Atoi(s).value < Power10(|s|)
  {
    if IsNumeral(s) {
      PaddedValue(s);
      assert IsDigit(s[0]);
    } else if s[0] in "+-" && IsNumeral(s[1..]) {
      PaddedValue(s[1..]);
    }
  }

  /** The bytes of an accepted id: 64 of any kind, or 48 that end in a number of 12 characters. */
  predicate NamesChunk(b: Bytes) {
    || |b| == 64
    || (|b| == 48 && (IsNumeral(Suffix(b)) || (Suffix(b)[0] in "+-" && IsNumeral(Suffix(b)[1..]))))
  }

  /** Exactly the strings that spell such bytes are accepted, and the indices are within these bounds. */
  lemma AcceptedExactly(s: string)
    ensures ChunkIndexFromBlockID(s).Some? <==> exists b :: Spells(Stripped(s), b) && NamesChunk(b)
    ensures ChunkIndexFromBlockID(s).Some? ==>
      -100_000_000_000 < ChunkIndexFromBlockID(s).value < 1_000_000_000_000
  {
    forall b ensures Spells(Stripped(s), b) <==> Decode(s) == Some(b) {
      DecodesExactly(Stripped(s), b);
    }
    hide Spells;
    if Decode(s).Some? {
      var b := Decode(s).value;
      assert Spells(Stripped(s), b);
      DecodedIndex(s, b);
    }
  }

  lemma DecodedIndex(s: string, b: Bytes)
    requires Decode(s) == Some(b)
    ensures ChunkIndexFromBlockID(s).Some? <==> NamesChunk(b)
    ensures ChunkIndexFromBlockID(s).Some? ==>
      -100_000_000_000 < ChunkIndexFromBlockID(s).value < 1_000_000_000_000
  {
    if |b| == 64 {
      BigEndianUint32(b[16..20]);
    } else if |b| == 48 {
      AtoiAccepts(Suffix(b));
      PowerOfTwelve();
    }
  }

  /** Two 64-byte ids write the same part object exactly if they agree in bytes 16 to 19. */
  lemma SameObjectExactly(folder: nat, b: Bytes, c: Bytes)
    requires |b| == 64 && |c| == 64
    ensures ChunkIndexFromBlockID(Encode(b)).Some? && ChunkIndexFromBlockID(Encode(c)).Some?
    ensures Name(Part(folder, ChunkIndexFromBlockID(Encode(b)).value))
            == Name(Part(folder, ChunkIndexFromBlockID(Encode(c)).value))
       <==> b[16..20] == c[16..20]
  {
    DecodeEncode(b);
    DecodeEncode(c);
    DecodedIndex(Encode(b), b);
    DecodedIndex(Encode(c), c);
    BinaryIndexInjective(b, c);
    hide ChunkIndexFromBlockID, Encode, Name;
    var i, j := ChunkIndexFromBlockID(Encode(b)).value, ChunkIndexFromBlockID(Encode(c)).value;
    NameInjective(Part(folder, i), Part(folder, j));
  }

  /** The suffix with its sign, if any, written as a zero. */
  function Plain(s: string): string
    requires |s| > 0
  {
    if s[0] in "+-" then "0" + s[1..] else s
  }

  predicate Accepted(b: Bytes) {
    |b| == 48 && NamesChunk(b)
  }

  lemma SignedIndex(s: string)
    requires |s| > 0 && (IsNumeral(s) || (s[0] in "+-" && IsNumeral(s[1..])))
    ensures IsNumeral(Plain(s)) && |Plain(s)| == |s|
    ensures Atoi(s) == Some(if s[0] == '-' then -(Value(Plain(s)) as int) else Value(Plain(s)) as int)
  {
    if s[0] in "+-" {
      assert !IsDigit(s[0]);
      LeadingZero(s[1..]);
    } else {
      AtoiNumeral(s);
    }
  }

  lemma {:induction false} ZeroValue(s: string)
    requires forall i :: 0 <= i < |s| ==> IsDigit(s[i])
    ensures Value(s) == 0 <==> forall i :: 0 <= i < |s| ==> s[i] == '0'
  {
    if s != "" {
      ZeroValue(s[..|s| - 1]);
      assert forall i :: 0 <= i < |s| - 1 ==> s[..|s| - 1][i] == s[i];
    }
  }

  /** When two accepted 48-byte ids name one chunk: their suffixes have the same digits, a sign counting as a zero,
      and the same sign, unless both are zero. */
  lemma SameChunkExactly(b: Bytes, c: Bytes)
    requires Accepted(b) && Accepted(c)
    ensures ChunkIndexFromBlockID(Encode(b)) == ChunkIndexFromBlockID(Encode(c))
       <==> && Plain(Suffix(b)) == Plain(Suffix(c))
            && (|| (Suffix(b)[0] == '-') == (Suffix(c)[0] == '-')
                || forall i :: 0 <= i < 12 ==> Plain(Suffix(b))[i] == '0')
  {
    hide Encode, ChunkIndexFromBlockID, Suffix, Plain, Value, IsNumeral, NamesChunk;
    SignedChunk(b);
    SignedChunk(c);
    SameSigned(Plain(Suffix(b)), Plain(Suffix(c)), Suffix(b)[0] == '-', Suffix(c)[0] == '-');
  }

  lemma SignedChunk(b: Bytes)
    requires Accepted(b)
    ensures |b| == 48 && IsNumeral(Plain(Suffix(b))) && |Plain(Suffix(b))| == 12
    ensures ChunkIndexFromBlockID(Encode(b)) == Some(Signed(Suffix(b)[0] == '-', Plain(Suffix(b))))
  {
    DecodeEncode(b);
    SignedIndex(Suffix(b));
  }

  function Signed(negative: bool, s: string): int
    requires IsNumeral(s)
  {
    if negative then -(Value(s) as int) else Value(s)
  }

  lemma SameSigned(s: string, t: string, m: bool, n: bool)
    requires IsNumeral(s) && IsNumeral(t) && |s| == |t|
    ensures Signed(m, s) == Signed(n, t) <==> s == t && (m == n || forall i :: 0 <= i < |s| ==> s[i] == '0')
  {
    hide Value, Padded, Power10;
    PaddedValue(s);
    PaddedValue(t);
    ZeroValue(s);
    ZeroValue(t);
  }

  /** A negative index, which no complete archive contains, is named exactly by the suffixes that start with a
      minus sign and are not zero. */
  lemma NegativeExactly(b: Bytes)
    requires |b| == 48
    ensures ChunkIndexFromBlockID(Encode(b)).Some? && ChunkIndexFromBlockID(Encode(b)).value < 0
       <==> Suffix(b)[0] == '-' && IsNumeral(Suffix(b)[1..]) && Value(Suffix(b)[1..]) > 0
  {
    DecodeEncode(b);
  }

  /** Signs make the suffix redundant: s, "+s" and, as the negative index, "-s" are all accepted. */
  lemma SignIsRedundant(head: Bytes, s: string)
    requires |head| == 36 && |s| == 11 && IsNumeral(s)
    ensures ChunkIndexFromBlockID(Encode(head + Raw("+" + s))) == ChunkIndexFromBlockID(Encode(head + Raw("0" + s)))
    ensures ChunkIndexFromBlockID(Encode(head + Raw("-" + s))) == Some(-(Value(s) as int))
    ensures head + Raw("+" + s) != head + Raw("0" + s)
  {
    AtoiNumeral(s);
    AtoiNumeral("0" + s);
    LeadingZero(s);
    SuffixIndex(head, "+" + s);
    SuffixIndex(head, "0" + s);
    SuffixIndex(head, "-" + s);
    assert Text(Raw("+" + s))[0] == '+' && Text(Raw("0" + s))[0] == '0';
    assert (head + Raw("+" + s))[36] != (head + Raw("0" + s))[36];
  }

  lemma {:induction false} LeadingZero(s: string)
    requires forall i :: 0 <= i < |s| ==> IsDigit(s[i])
    ensures Value("0" + s) == Value(s)
  {
    var z := "0" + s;
    if s == "" {
      assert z == "0" && Value(z) == 10 * Value(z[..0]) + DigitValue(z[0]);
    } else {
      assert z[..|z| - 1] == "0" + s[..|s| - 1] && z[|z| - 1] == s[|s| - 1];
      LeadingZero(s[..|s| - 1]);
    }
  }
}
