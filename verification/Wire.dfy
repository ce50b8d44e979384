/** The primitives of the Protocol Buffers wire format: base 128 varints, little-endian fixed-width
    numbers, length-delimited runs, and the skipping of fields a message does not know. */
module Wire {
  import opened Prelude

  const U16: nat := 0x1_0000
  const U31: nat := 0x8000_0000
  const U32: nat := 0x1_0000_0000
  const U63: nat := 0x8000_0000_0000_0000
  const U64: nat := 0x1_0000_0000_0000_0000

  /** A value read and the input after it, or a read that failed. */
  datatype Read<+T> = Read(value: T, rest: seq<Byte>) | Bad

  function Varint(n: nat): (r: seq<Byte>)
    ensures r != []
  {
    if n < 128 then [n] else [128 + n % 128] + Varint(n / 128)
  }

  /** Reads a varint of at most `limit` bytes. */
  function ReadVarint(s: seq<Byte>, limit: nat): (r: Read<nat>)
    ensures r.Read? ==> |r.rest| < |s|
  {
    if limit == 0 || s == [] then Bad
    else if s[0] < 128 then Read(s[0], s[1..])
    else
      match ReadVarint(s[1..], limit - 1)
      case Read(v, rest) => Read(s[0] - 128 + 128 * v, rest)
      case Bad => Bad
  }

  /** Reading fails exactly where no byte within the limit ends the number. */
  lemma {:induction false} VarintBadIff(s: seq<Byte>, limit: nat)
    ensures ReadVarint(s, limit).Bad? <==> forall k | 0 <= k < limit && k < |s| :: s[k] >= 128
  {
    if limit > 0 && s != [] && s[0] >= 128 {
      VarintBadIff(s[1..], limit - 1);
      if forall k | 0 <= k < limit - 1 && k < |s[1..]| :: s[1..][k] >= 128 {
        forall k | 0 <= k < limit && k < |s| ensures s[k] >= 128 {
          if k > 0 { assert s[1..][k - 1] >= 128; }
        }
      } else {
        var k :| 0 <= k < limit - 1 && k < |s[1..]| && s[1..][k] < 128;
        assert s[k + 1] < 128;
      }
    }
  }

  function Power128(k: nat): nat {
    if k == 0 then 1 else 128 * Power128(k - 1)
  }

  lemma {:induction false} VarintRoundTrip(n: nat, limit: nat, rest: seq<Byte>)
    requires 0 < limit && n < Power128(limit)
    ensures ReadVarint(Varint(n) + rest, limit) == Read(n, rest)
  {
    if n < 128 {
      assert ([n] + rest)[1..] == rest;
    } else {
      VarintRoundTrip(n / 128, limit - 1, rest);
      var head := [128 + n % 128];
      assert Varint(n) + rest == head + (Varint(n / 128) + rest);
      assert (head + (Varint(n / 128) + rest))[1..] == Varint(n / 128) + rest;
    }
  }

  /** Ten bytes hold every 64-bit number. */
  lemma TenBytes()
    ensures U64 <= Power128(10)
  {
    assert Power128(5) == 128 * 128 * 128 * 128 * 128;
    assert Power128(10) == 128 * 128 * 128 * 128 * 128 * Power128(5);
  }

  lemma Varint64RoundTrip(n: nat, rest: seq<Byte>)
    requires n < U64
    ensures ReadVarint(Varint(n) + rest, 10) == Read(n, rest)
  {
    TenBytes();
    VarintRoundTrip(n, 10, rest);
  }

  /** Seven bits a byte, the low ones first; every byte but the last has its high bit set. */
  lemma {:induction false} VarintLayout(n: nat)
    ensures n < 128 ==> Varint(n) == [n]
    ensures 128 <= n < 16384 ==> Varint(n) == [128 + n % 128, n / 128]
    ensures forall k | 0 <= k < |Varint(n)| :: Varint(n)[k] >= 128 <==> k < |Varint(n)| - 1
  {
    if n >= 128 { VarintLayout(n / 128); }
  }

  /** The encoded size, found by comparing against powers of 128. */
  function VarintSize(n: nat): nat {
    if n < 0x80 then 1
    else if n < 0x4000 then 2
    else if n < 0x20_0000 then 3
    else if n < 0x1000_0000 then 4
    else if n < 0x8_0000_0000 then 5
    else if n < 0x400_0000_0000 then 6
    else if n < 0x2_0000_0000_0000 then 7
    else if n < 0x100_0000_0000_0000 then 8
    else if n < 0x8000_0000_0000_0000 then 9
    else 10
  }

  lemma {:induction false} VarintSizeCorrect(n: nat)
    requires n < U64
    ensures |Varint(n)| == VarintSize(n) <= 10
  {
    if n >= 128 { VarintSizeCorrect(n / 128); }
  }

  /** Little-endian, `width` bytes. */
  function Fixed(n: nat, width: nat): (r: seq<Byte>)
    ensures |r| == width
  {
    if width == 0 then [] else [n % 256] + Fixed(n / 256, width - 1)
  }

  /** n without its k low bytes. */
  function Shifted(n: nat, k: nat): nat {
    if k == 0 then n else Shifted(n / 256, k - 1)
  }

  /** The low byte first. */
  lemma {:induction false} FixedLayout(n: nat, width: nat, k: nat)
    ensures k < width ==> Fixed(n, width)[k] == Shifted(n, k) % 256
  {
    if 0 < k < width { FixedLayout(n / 256, width - 1, k - 1); }
  }

  function FixedValue(s: seq<Byte>): nat {
    if s == [] then 0 else s[0] + 256 * FixedValue(s[1..])
  }

  function ReadFixed(s: seq<Byte>, width: nat): (r: Read<nat>)
    ensures r.Read? ==> |r.rest| <= |s|
  {
    if |s| < width then Bad else Read(FixedValue(s[..width]), s[width..])
  }

  function Power256(k: nat): nat {
    if k == 0 then 1 else 256 * Power256(k - 1)
  }

  lemma {:induction false} FixedRoundTrip(n: nat, width: nat)
    requires n < Power256(width)
    ensures FixedValue(Fixed(n, width)) == n
  {
    if width > 0 {
      FixedRoundTrip(n / 256, width - 1);
      assert Fixed(n, width)[1..] == Fixed(n / 256, width - 1);
    }
  }

  lemma {:induction false} FixedValueBound(s: seq<Byte>)
    ensures FixedValue(s) < Power256(|s|)
  {
    if s != [] { FixedValueBound(s[1..]); }
  }

  lemma ReadFixedRoundTrip(n: nat, width: nat, rest: seq<Byte>)
    requires n < Power256(width)
    ensures ReadFixed(Fixed(n, width) + rest, width) == Read(n, rest)
  {
    FixedRoundTrip(n, width);
    assert (Fixed(n, width) + rest)[..width] == Fixed(n, width);
    assert (Fixed(n, width) + rest)[width..] == rest;
  }

  /** A length of at most 31 bits and that many bytes. */
  function ReadRun(s: seq<Byte>): (r: Read<seq<Byte>>)
    ensures r.Read? ==> |r.rest| < |s|
  {
    match ReadVarint(s, 10)
    case Bad => Bad
    case Read(n, rest) =>
      if n >= U31 || n > |rest| then Bad else Read(rest[..n], rest[n..])
  }

  function Run(b: seq<Byte>): seq<Byte> {
    Varint(|b|) + b
  }

  lemma RunRoundTrip(b: seq<Byte>, rest: seq<Byte>)
    requires |b| < U31
    ensures ReadRun(Run(b) + rest) == Read(b, rest)
  {
    Varint64RoundTrip(|b|, b + rest);
    assert Run(b) + rest == Varint(|b|) + (b + rest);
    assert (b + rest)[..|b|] == b && (b + rest)[|b|..] == rest;
  }

  /** Skips the value of an unknown field by its wire type. */
  function Skip(tag: nat, s: seq<Byte>): (r: Read<()>)
    ensures r.Read? ==> |r.rest| <= |s|
  {
    match tag % 8
    case 0 => (match ReadVarint(s, 10) case Read(_, rest) => Read((), rest) case Bad => Bad)
    case 1 => if |s| < 8 then Bad else Read((), s[8..])
    case 2 => (match ReadRun(s) case Read(_, rest) => Read((), rest) case Bad => Bad)
    case 5 => if |s| < 4 then Bad else Read((), s[4..])
    case _ => Bad
  }

  /** A length beyond 31 bits, or beyond the input, is refused. */
  lemma LongRunRefused(n: nat, rest: seq<Byte>)
    ensures n < U64 ==> (ReadRun(Varint(n) + rest).Bad? <==> n >= 0x8000_0000 || n > |rest|)
  {
    if n < U64 { Varint64RoundTrip(n, rest); }
  }

  /** A number or bytes as a field of the tag's wire type may hold them, and how it is written. */
  predicate Holds(tag: nat, n: nat, b: seq<Byte>) {
    match tag % 8
    case 0 => n < U64
    case 1 => |b| == 8
    case 2 => |b| < U31
    case 5 => |b| == 4
    case _ => false
  }

  function Written(tag: nat, n: nat, b: seq<Byte>): seq<Byte> {
    match tag % 8
    case 0 => Varint(n)
    case 2 => Run(b)
    case _ => b
  }

  /** Skipping leaves exactly what follows the value. */
  lemma SkipPasses(tag: nat, n: nat, b: seq<Byte>, rest: seq<Byte>)
    requires Holds(tag, n, b)
    ensures Skip(tag, Written(tag, n, b) + rest) == Read((), rest)
  {
    hide Varint, ReadVarint, Run, ReadRun;
    match tag % 8
    case 0 => Varint64RoundTrip(n, rest);
    case 1 => assert (b + rest)[8..] == rest;
    case 2 => RunRoundTrip(b, rest);
    case 5 => assert (b + rest)[4..] == rest;
  }

  // UTF-8, as RFC 3629 section 4 defines it.

  predicate Tail(b: Byte) { 0x80 <= b < 0xC0 }

  /** Length of the well-formed character at the head of the text, or 0. */
  function CharLength(s: seq<Byte>): (n: nat)
    ensures n <= |s|
  {
    if s == [] then 0
    else if s[0] < 0x80 then 1
    else if 0xC2 <= s[0] < 0xE0 && |s| >= 2 && Tail(s[1]) then 2
    else if 0xE0 <= s[0] < 0xF0 && |s| >= 3 && Tail(s[1]) && Tail(s[2])
            && (s[0] == 0xE0 ==> s[1] >= 0xA0) && (s[0] == 0xED ==> s[1] < 0xA0) then 3
    else if 0xF0 <= s[0] < 0xF5 && |s| >= 4 && Tail(s[1]) && Tail(s[2]) && Tail(s[3])
            && (s[0] == 0xF0 ==> s[1] >= 0x90) && (s[0] == 0xF4 ==> s[1] < 0x90) then 4
    else 0
  }

  predicate ValidUtf8(s: seq<Byte>)
    decreases |s|
  {
    s == [] || (CharLength(s) > 0 && ValidUtf8(s[CharLength(s)..]))
  }

  /** Unicode scalar values: the code points that are not surrogates. */
  predicate Scalar(c: nat) {
    c < 0xD800 || 0xE000 <= c < 0x110000
  }

  /** Section 3 of RFC 3629. */
  function Utf8(c: nat): seq<Byte>
    requires Scalar(c)
  {
    if c < 0x80 then [c]
    else if c < 0x800 then [0xC0 + c / 64, 0x80 + c % 64]
    else if c < 0x10000 then [0xE0 + c / 64 / 64, 0x80 + c / 64 % 64, 0x80 + c % 64]
    else [0xF0 + c / 64 / 64 / 64, 0x80 + c / 64 / 64 % 64, 0x80 + c / 64 % 64, 0x80 + c % 64]
  }

  predicate Scalars(cs: seq<nat>) {
    forall c | c in cs :: Scalar(c)
  }

  function Utf8All(cs: seq<nat>): seq<Byte>
    requires Scalars(cs)
  {
    if cs == [] then [] else Utf8(cs[0]) + Utf8All(cs[1..])
  }

  /** Six more bits, from a tail byte. */
  function Six(high: int, b: Byte): int {
    64 * high + b - 0x80
  }

  /** The character at the head of the text. */
  function Head(s: seq<Byte>): int {
    match CharLength(s)
    case 1 => s[0]
    case 2 => Six(s[0] as int - 0xC0, s[1])
    case 3 => Six(Six(s[0] as int - 0xE0, s[1]), s[2])
    case 4 => Six(Six(Six(s[0] as int - 0xF0, s[1]), s[2]), s[3])
    case _ => 0
  }

  lemma SixBack(high: nat, b: Byte)
    requires Tail(b)
    ensures Six(high, b) / 64 == high && 0x80 + Six(high, b) % 64 == b
    ensures 64 * high <= Six(high, b) < 64 * high + 64
  {
  }

  lemma HeadIsScalar(s: seq<Byte>)
    requires CharLength(s) > 0
    ensures Head(s) >= 0 && Scalar(Head(s)) && Utf8(Head(s)) == s[..CharLength(s)]
  {
    hide Six;
    var n := CharLength(s);
    if n == 2 {
      SixBack(s[0] - 0xC0, s[1]);
    } else if n == 3 {
      var a := Six(s[0] - 0xE0, s[1]);
      SixBack(s[0] - 0xE0, s[1]);
      SixBack(a, s[2]);
    } else if n == 4 {
      var a := Six(s[0] - 0xF0, s[1]);
      var b := Six(a, s[2]);
      SixBack(s[0] - 0xF0, s[1]);
      SixBack(a, s[2]);
      SixBack(b, s[3]);
    }
  }

  lemma Utf8Length(c: nat, rest: seq<Byte>)
    requires Scalar(c)
    ensures CharLength(Utf8(c) + rest) == |Utf8(c)|
  {
  }

  lemma {:induction false} Utf8IsValid(cs: seq<nat>)
    requires Scalars(cs)
    ensures ValidUtf8(Utf8All(cs))
    decreases |cs|
  {
    if cs != [] {
      Utf8Length(cs[0], Utf8All(cs[1..]));
      assert Utf8All(cs)[|Utf8(cs[0])|..] == Utf8All(cs[1..]);
      Utf8IsValid(cs[1..]);
    }
  }

  lemma Utf8First(c: nat, cs: seq<nat>)
    requires Scalar(c) && Scalars(cs)
    ensures Scalars([c] + cs) && Utf8All([c] + cs) == Utf8(c) + Utf8All(cs)
  {
    assert ([c] + cs)[1..] == cs;
  }

  lemma ValidFirst(s: seq<Byte>)
    requires s != [] && ValidUtf8(s)
    ensures CharLength(s) > 0 && ValidUtf8(s[CharLength(s)..])
  {
  }

  lemma {:induction false} ValidIsUtf8(s: seq<Byte>) returns (cs: seq<nat>)
    requires ValidUtf8(s)
    ensures Scalars(cs) && Utf8All(cs) == s
    decreases |s|
  {
    assert Scalars([]) && Utf8All([]) == [];
    hide CharLength, Head, Utf8, Scalar, Scalars, Utf8All, ValidUtf8;
    if s == [] {
      cs := [];
    } else {
      var n := CharLength(s);
      ValidFirst(s);
      HeadIsScalar(s);
      var c: nat := Head(s);
      var first, rest := s[..n], s[n..];
      assert s == first + rest;
      var more := ValidIsUtf8(rest);
      Utf8First(c, more);
      cs := [c] + more;
    }
  }

  ghost predicate Encodable(s: seq<Byte>) {
    exists cs :: Scalars(cs) && Utf8All(cs) == s
  }

  /** Valid are exactly the encodings of Unicode text. */
  lemma ValidIff(s: seq<Byte>)
    ensures ValidUtf8(s) <==> Encodable(s)
  {
    hide ValidUtf8, Utf8All;
    if ValidUtf8(s) { var cs := ValidIsUtf8(s); }
    if Encodable(s) {
      var cs :| Scalars(cs) && Utf8All(cs) == s;
      Utf8IsValid(cs);
    }
  }
}
