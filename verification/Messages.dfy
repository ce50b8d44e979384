/** The generated telemetry messages. A message is a table of field kinds: the generated serializer,
    parser, sizer and merge of Position, Attitude, Speed, Barometer and AmdUavFlightUpdate differ only
    in that table, field number k + 1 being entry k. Doubles and floats are their bit patterns. */
module Messages {
  import opened Prelude
  import opened Wire

  datatype Kind = UInt64 | Double | Float | Str

  datatype Value = Num(bits: nat) | Text(bytes: seq<Byte>)

  const POSITION := [UInt64, Double, Double, Float, Float, Float]
  const ATTITUDE := [UInt64, Float, Float, Float]
  const SPEED := [UInt64, Float, Float, Float]
  const BAROMETER := [UInt64, Float]
  const FLIGHT_UPDATE := [UInt64, Str, Double, Double, Float, Float, Float]

  function WireType(kind: Kind): nat {
    match kind
    case UInt64 => 0
    case Double => 1
    case Float => 5
    case Str => 2
  }

  /** The one-byte tag of entry k. */
  function Tag(kind: Kind, k: nat): nat {
    8 * (k + 1) + WireType(kind)
  }

  /** Schemas whose tags fit one byte below 128, as those of all five messages do. */
  predicate Small(schema: seq<Kind>) { |schema| <= 14 }

  predicate Fits(kind: Kind, v: Value) {
    match kind
    case UInt64 => v.Num? && v.bits < U64
    case Double => v.Num? && v.bits < U64
    case Float => v.Num? && v.bits < U32
    case Str => v.Text? && |v.bytes| < U31
  }

  predicate Typed(schema: seq<Kind>, m: seq<Value>) {
    |m| == |schema| && forall k | 0 <= k < |schema| :: Fits(schema[k], m[k])
  }

  /** The generated test `field() != 0`: both zeros of a floating-point field count as absent. */
  predicate Present(kind: Kind, v: Value)
    requires Fits(kind, v)
  {
    match kind
    case UInt64 => v.bits != 0
    case Double => v.bits != 0 && v.bits != U63
    case Float => v.bits != 0 && v.bits != U31
    case Str => v.bytes != []
  }

  function Absent(kind: Kind): (v: Value)
    ensures Fits(kind, v) && !Present(kind, v)
  {
    if kind.Str? then Text([]) else Num(0)
  }

  function Empty(schema: seq<Kind>): (m: seq<Value>)
    ensures Typed(schema, m)
  {
    seq(|schema|, k requires 0 <= k < |schema| => Absent(schema[k]))
  }

  // Serializing and parsing one field.

  function Payload(kind: Kind, v: Value): seq<Byte>
    requires Fits(kind, v)
  {
    match kind
    case UInt64 => Varint(v.bits)
    case Double => Fixed(v.bits, 8)
    case Float => Fixed(v.bits, 4)
    case Str => Run(v.bytes)
  }

  function FieldBytes(kind: Kind, k: nat, v: Value): seq<Byte>
    requires Fits(kind, v) && k < 14
  {
    if Present(kind, v) then [Tag(kind, k)] + Payload(kind, v) else []
  }

  /** A string that is not UTF-8 fails the parse. */
  function ReadPayload(kind: Kind, s: seq<Byte>): (r: Read<Value>)
    ensures r.Read? ==> |r.rest| <= |s|
  {
    match kind
    case UInt64 => (match ReadVarint(s, 10) case Read(n, rest) => Read(Num(n % U64), rest) case Bad => Bad)
    case Double => (match ReadFixed(s, 8) case Read(n, rest) => Read(Num(n), rest) case Bad => Bad)
    case Float => (match ReadFixed(s, 4) case Read(n, rest) => Read(Num(n), rest) case Bad => Bad)
    case Str => (match ReadRun(s)
                 case Read(b, rest) => if ValidUtf8(b) then Read(Text(b), rest) else Bad
                 case Bad => Bad)
  }

  /** What a field reads always fits it. */
  lemma PayloadFits(kind: Kind, s: seq<Byte>)
    ensures match ReadPayload(kind, s) case Read(v, _) => Fits(kind, v) case Bad => true
  {
    assert Power256(4) == U32 && Power256(8) == U64;
    if kind.Double? && |s| >= 8 { FixedValueBound(s[..8]); }
    if kind.Float? && |s| >= 4 { FixedValueBound(s[..4]); }
  }

  predicate Readable(v: Value) { v.Text? ==> ValidUtf8(v.bytes) }

  lemma PayloadRoundTrip(kind: Kind, v: Value, rest: seq<Byte>)
    requires Fits(kind, v)
    ensures ReadPayload(kind, Payload(kind, v) + rest) == if Readable(v) then Read(v, rest) else Bad
  {
    hide Varint, ReadVarint, Fixed, ReadFixed, Run, ReadRun, ValidUtf8;
    match kind
    case UInt64 => Varint64RoundTrip(v.bits, rest);
    case Double =>
      assert Power256(8) == U64;
      ReadFixedRoundTrip(v.bits, 8, rest);
    case Float =>
      assert Power256(4) == U32;
      ReadFixedRoundTrip(v.bits, 4, rest);
    case Str => RunRoundTrip(v.bytes, rest);
  }

  // Whole messages.

  /** The bytes of entries k and up, in field order. */
  function SerializeFrom(schema: seq<Kind>, m: seq<Value>, k: nat): seq<Byte>
    requires Small(schema) && Typed(schema, m) && k <= |schema|
    decreases |schema| - k
  {
    if k == |schema| then [] else FieldBytes(schema[k], k, m[k]) + SerializeFrom(schema, m, k + 1)
  }

  function Serialize(schema: seq<Kind>, m: seq<Value>): seq<Byte>
    requires Small(schema) && Typed(schema, m)
  {
    SerializeFrom(schema, m, 0)
  }

  /** The outcome of a parse: the fields, the input left, and whether it stopped where a message may
      end; or a failure. */
  datatype Parsed = Parsed(fields: seq<Value>, rest: seq<Byte>, clean: bool) | Failed

  /** The tag that entry `k` of the schema answers to, if `tag` is it. */
  predicate Expected(schema: seq<Kind>, tag: nat) {
    8 <= tag <= 127 && tag / 8 - 1 < |schema| && tag == Tag(schema[tag / 8 - 1], tag / 8 - 1)
  }

  /** One round of the generated loop per field: a zero or unreadable tag ends the message, an expected
      tag assigns its field, any other is skipped. */
  function Parse(schema: seq<Kind>, m: seq<Value>, s: seq<Byte>): Parsed
    requires |m| == |schema|
    decreases |s|
  {
    if s == [] then Parsed(m, [], true)
    else
      match ReadVarint(s, 10)
      case Bad => Parsed(m, s, false)
      case Read(n, rest) =>
        var tag := n % U32;
        if tag == 0 then Parsed(m, rest, false)
        else if Expected(schema, tag) then
          var k := tag / 8 - 1;
          match ReadPayload(schema[k], rest)
          case Bad => Failed
          case Read(v, rest) => Parse(schema, m[k := v], rest)
        else
          match Skip(tag, rest)
          case Bad => Failed
          case Read(_, rest) => Parse(schema, m, rest)
  }

  /** Parsing a complete string into a fresh message. */
  function ParseString(schema: seq<Kind>, s: seq<Byte>): Option<seq<Value>> {
    match Parse(schema, Empty(schema), s)
    case Parsed(m, _, clean) => if clean then Some(m) else None
    case Failed => None
  }

  /** Present fields overwrite. */
  function Merge(schema: seq<Kind>, to: seq<Value>, from: seq<Value>): (r: seq<Value>)
    requires |to| == |schema| && Typed(schema, from)
    ensures |r| == |schema|
  {
    seq(|schema|, k requires 0 <= k < |schema| => if Present(schema[k], from[k]) then from[k] else to[k])
  }

  /** What survives the wire: negative zero becomes zero. */
  function Normal(schema: seq<Kind>, m: seq<Value>): seq<Value>
    requires Typed(schema, m)
  {
    Merge(schema, Empty(schema), m)
  }

  predicate ReadableFrom(m: seq<Value>, k: nat) {
    forall i | k <= i < |m| :: Readable(m[i])
  }

  lemma TagIsExpected(schema: seq<Kind>, k: nat)
    requires Small(schema) && k < |schema|
    ensures var tag := Tag(schema[k], k); Expected(schema, tag) && tag / 8 - 1 == k && tag < 128
  {
    assert WireType(schema[k]) < 8;
  }

  lemma ExpectedRange(schema: seq<Kind>, tag: nat)
    requires Expected(schema, tag)
    ensures 8 <= tag < 128
  {
  }

  lemma ReadOneByte(b: Byte, after: seq<Byte>)
    requires b < 128
    ensures ReadVarint([b] + after, 10) == Read(b, after)
  {
    assert ([b] + after)[1..] == after;
  }

  /** One round of the loop on an expected tag. */
  lemma ParseExpected(schema: seq<Kind>, to: seq<Value>, tag: Byte, k: nat, after: seq<Byte>)
    requires |to| == |schema| && Expected(schema, tag) && k == tag / 8 - 1
    ensures Parse(schema, to, [tag] + after)
         == match ReadPayload(schema[k], after)
            case Bad => Failed
            case Read(v, rest) => Parse(schema, to[k := v], rest)
  {
    hide ReadPayload, Expected, Skip, ReadVarint;
    ExpectedRange(schema, tag);
    ReadOneByte(tag, after);
  }

  lemma ParseSkipped(schema: seq<Kind>, to: seq<Value>, tag: Byte, after: seq<Byte>, rest: seq<Byte>)
    requires |to| == |schema| && 0 < tag < 128 && !Expected(schema, tag) && Skip(tag, after) == Read((), rest)
    ensures Parse(schema, to, [tag] + after) == Parse(schema, to, rest)
  {
    hide ReadPayload, Expected, Skip, ReadVarint;
    ReadOneByte(tag, after);
  }

  /** A field the message does not know is passed over. */
  lemma ForeignIgnored(schema: seq<Kind>, to: seq<Value>, tag: Byte, n: nat, b: seq<Byte>, rest: seq<Byte>)
    requires |to| == |schema| && 0 < tag < 128 && !Expected(schema, tag) && Holds(tag, n, b)
    ensures Parse(schema, to, [tag] + Written(tag, n, b) + rest) == Parse(schema, to, rest)
  {
    hide Expected, Skip, Parse, Written;
    var after := Written(tag, n, b) + rest;
    assert [tag] + Written(tag, n, b) + rest == [tag] + after;
    SkipPasses(tag, n, b, rest);
    ParseSkipped(schema, to, tag, after, rest);
  }

  lemma ParseField(schema: seq<Kind>, to: seq<Value>, k: nat, v: Value, rest: seq<Byte>)
    requires Small(schema) && |to| == |schema| && k < |schema| && Fits(schema[k], v) && Present(schema[k], v)
    ensures Parse(schema, to, FieldBytes(schema[k], k, v) + rest)
         == if Readable(v) then Parse(schema, to[k := v], rest) else Failed
  {
    hide Payload, ReadPayload, ReadVarint, Parse, Expected;
    TagIsExpected(schema, k);
    var after := Payload(schema[k], v) + rest;
    assert FieldBytes(schema[k], k, v) + rest == [Tag(schema[k], k)] + after;
    ParseExpected(schema, to, Tag(schema[k], k), k, after);
    PayloadRoundTrip(schema[k], v, rest);
  }

  /** Present fields from entry k on overwrite. */
  function MergeFrom(schema: seq<Kind>, to: seq<Value>, from: seq<Value>, k: nat): (r: seq<Value>)
    requires |to| == |schema| && Typed(schema, from)
    ensures |r| == |schema|
  {
    seq(|schema|, i requires 0 <= i < |schema| => if k <= i && Present(schema[i], from[i]) then from[i] else to[i])
  }

  lemma AbsentIsEmpty(kind: Kind, k: nat, v: Value)
    requires Fits(kind, v) && k < 14 && !Present(kind, v)
    ensures FieldBytes(kind, k, v) == [] && Readable(v)
  {
  }

  lemma {:induction false} ParseSerialized(schema: seq<Kind>, to: seq<Value>, m: seq<Value>, k: nat, rest: seq<Byte>)
    requires Small(schema) && |to| == |schema| && Typed(schema, m) && k <= |schema|
    ensures Parse(schema, to, SerializeFrom(schema, m, k) + rest)
         == if ReadableFrom(m, k) then Parse(schema, MergeFrom(schema, to, m, k), rest) else Failed
    decreases |schema| - k
  {
    hide Parse, FieldBytes;
    if k == |schema| {
      assert MergeFrom(schema, to, m, k) == to;
      assert [] + rest == rest;
    } else {
      var tail := SerializeFrom(schema, m, k + 1) + rest;
      var field := FieldBytes(schema[k], k, m[k]);
      assert SerializeFrom(schema, m, k) + rest == field + tail;
      if Present(schema[k], m[k]) {
        var next := to[k := m[k]];
        ParseField(schema, to, k, m[k], tail);
        ParseSerialized(schema, next, m, k + 1, rest);
        assert MergeFrom(schema, next, m, k + 1) == MergeFrom(schema, to, m, k);
      } else {
        assert field == [] && [] + tail == tail by { AbsentIsEmpty(schema[k], k, m[k]); }
        ParseSerialized(schema, to, m, k + 1, rest);
        assert MergeFrom(schema, to, m, k + 1) == MergeFrom(schema, to, m, k);
      }
    }
  }

  // Main results: merge, round trip, size.

  /** Parsing a serialized message into another one, whatever follows it, merges it in, or fails if
      one of its strings is not UTF-8. */
  lemma ParseMerges(schema: seq<Kind>, to: seq<Value>, m: seq<Value>, rest: seq<Byte>)
    requires Small(schema) && |to| == |schema| && Typed(schema, m)
    ensures Parse(schema, to, Serialize(schema, m) + rest)
         == if ReadableFrom(m, 0) then Parse(schema, Merge(schema, to, m), rest) else Failed
  {
    ParseSerialized(schema, to, m, 0, rest);
    assert MergeFrom(schema, to, m, 0) == Merge(schema, to, m);
  }

  /** A serialization parses back to its message, up to the sign of zeros, exactly when its strings
      are UTF-8. */
  lemma RoundTrip(schema: seq<Kind>, m: seq<Value>)
    requires Small(schema) && Typed(schema, m)
    ensures ParseString(schema, Serialize(schema, m))
         == if ReadableFrom(m, 0) then Some(Normal(schema, m)) else None
  {
    ParseMerges(schema, Empty(schema), m, []);
    assert Serialize(schema, m) + [] == Serialize(schema, m);
  }

  /** Two serializations one after the other parse to the merge of their messages. */
  lemma ConcatenationMerges(schema: seq<Kind>, a: seq<Value>, b: seq<Value>)
    requires Small(schema) && Typed(schema, a) && Typed(schema, b) && ReadableFrom(a, 0) && ReadableFrom(b, 0)
    ensures ParseString(schema, Serialize(schema, a) + Serialize(schema, b))
         == Some(Merge(schema, Normal(schema, a), b))
  {
    ParseMerges(schema, Empty(schema), a, Serialize(schema, b));
    ParseMerges(schema, Normal(schema, a), b, []);
    assert Serialize(schema, b) + [] == Serialize(schema, b);
  }

  /** A zero byte where a tag should be fails the parse, whatever comes after it. */
  lemma StrayZeroFails(schema: seq<Kind>, m: seq<Value>, rest: seq<Byte>)
    requires Small(schema) && Typed(schema, m)
    ensures ParseString(schema, Serialize(schema, m) + ([0] + rest)) == None
  {
    hide Expected, Skip, ReadPayload, Serialize, Merge, Empty, ReadVarint;
    ParseMerges(schema, Empty(schema), m, [0] + rest);
    ReadOneByte(0, rest);
  }

  predicate NegativeZero(kind: Kind, v: Value) {
    v.Num? && ((kind.Double? && v.bits == U63) || (kind.Float? && v.bits == U31))
  }

  /** The round trip is exact precisely for messages without a negative zero. */
  lemma NormalIff(schema: seq<Kind>, m: seq<Value>)
    requires Typed(schema, m)
    ensures Normal(schema, m) == m <==> forall k | 0 <= k < |m| :: !NegativeZero(schema[k], m[k])
  {
    forall k | 0 <= k < |m| ensures Normal(schema, m)[k] == m[k] <==> !NegativeZero(schema[k], m[k]) {
    }
  }

  function FieldSize(kind: Kind, v: Value): nat
    requires Fits(kind, v)
  {
    if !Present(kind, v) then 0
    else
      match kind
      case UInt64 => 1 + VarintSize(v.bits)
      case Double => 1 + 8
      case Float => 1 + 4
      case Str => 1 + VarintSize(|v.bytes|) + |v.bytes|
  }

  /** The sum over entries k and up. */
  function ByteSizeFrom(schema: seq<Kind>, m: seq<Value>, k: nat): nat
    requires Typed(schema, m) && k <= |schema|
    decreases |schema| - k
  {
    if k == |schema| then 0 else FieldSize(schema[k], m[k]) + ByteSizeFrom(schema, m, k + 1)
  }

  lemma FieldSizeCorrect(kind: Kind, k: nat, v: Value)
    requires Fits(kind, v) && k < 14
    ensures |FieldBytes(kind, k, v)| == FieldSize(kind, v)
  {
    if kind.UInt64? { VarintSizeCorrect(v.bits); }
    if kind.Str? { VarintSizeCorrect(|v.bytes|); }
  }

  lemma {:induction false} SizeFromCorrect(schema: seq<Kind>, m: seq<Value>, k: nat)
    requires Small(schema) && Typed(schema, m) && k <= |schema|
    ensures |SerializeFrom(schema, m, k)| == ByteSizeFrom(schema, m, k)
    decreases |schema| - k
  {
    hide FieldBytes, FieldSize;
    if k < |schema| {
      FieldSizeCorrect(schema[k], k, m[k]);
      SizeFromCorrect(schema, m, k + 1);
    }
  }

  /** The most bytes a schema without strings can take. */
  function Largest(schema: seq<Kind>, k: nat): nat
    requires k <= |schema|
    decreases |schema| - k
  {
    if k == |schema| then 0
    else Largest(schema, k + 1) + match schema[k] case UInt64 => 11 case Double => 9 case Float => 5 case Str => 0
  }

  lemma {:induction false} SizeAtMost(schema: seq<Kind>, m: seq<Value>, k: nat)
    requires Typed(schema, m) && k <= |schema| && Str !in schema
    ensures ByteSizeFrom(schema, m, k) <= Largest(schema, k)
    decreases |schema| - k
  {
    if k < |schema| {
      if schema[k].UInt64? { VarintSizeCorrect(m[k].bits); }
      SizeAtMost(schema, m, k + 1);
    }
  }

  lemma LargestBounds()
    ensures Largest(POSITION, 0) == 44 && Largest(ATTITUDE, 0) == Largest(SPEED, 0) == 26 && Largest(BAROMETER, 0) == 16
  {
    assert Largest(POSITION, 3) == 15;
    assert Largest(ATTITUDE, 2) == 10;
    assert Largest(SPEED, 2) == 10;
  }

  /** The computed size is the serialized length, at most 44 bytes for a position, 26 for an attitude
      or a speed, 16 for a barometer reading. */
  lemma ByteSizeCorrect(schema: seq<Kind>, m: seq<Value>)
    requires Small(schema) && Typed(schema, m)
    ensures |Serialize(schema, m)| == ByteSizeFrom(schema, m, 0)
    ensures schema == POSITION ==> |Serialize(schema, m)| <= 44
    ensures schema == ATTITUDE || schema == SPEED ==> |Serialize(schema, m)| <= 26
    ensures schema == BAROMETER ==> |Serialize(schema, m)| <= 16
  {
    SizeFromCorrect(schema, m, 0);
    if Str !in schema {
      SizeAtMost(schema, m, 0);
      LargestBounds();
    }
  }

  /** The tag bytes the generated code compares against. */
  lemma GeneratedTags()
    ensures seq(6, k requires 0 <= k < 6 => Tag(POSITION[k], k)) == [8, 17, 25, 37, 45, 53]
    ensures seq(4, k requires 0 <= k < 4 => Tag(ATTITUDE[k], k)) == [8, 21, 29, 37]
    ensures seq(4, k requires 0 <= k < 4 => Tag(SPEED[k], k)) == [8, 21, 29, 37]
    ensures seq(2, k requires 0 <= k < 2 => Tag(BAROMETER[k], k)) == [8, 21]
    ensures seq(7, k requires 0 <= k < 7 => Tag(FLIGHT_UPDATE[k], k)) == [8, 18, 25, 33, 45, 53, 61]
  {
  }
}
