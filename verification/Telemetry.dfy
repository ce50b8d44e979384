/** The telemetry sender: updates framed as type, length and message, encrypted, and put behind a
    packet header. Sizes and numbers of the frame and header are big-endian. */
module Telemetry {
  import opened Prelude
  import opened Wire
  import opened Messages
  import opened Codec
  import Cipher

  type FloatBits = n: nat | n < U32

  /** Conversion of a double's bits to the bits of the nearest float; which one, is not our concern. */
  type Narrowing = nat -> FloatBits

  /** An update as the caller gives it, floating-point numbers as bit patterns. */
  datatype Update =
    | PositionUpdate(timestamp: nat, latitude: nat, longitude: nat, altitudeMsl: nat, altitudeGl: nat, accuracy: nat)
    | SpeedUpdate(timestamp: nat, x: nat, y: nat, z: nat)
    | AttitudeUpdate(timestamp: nat, yaw: nat, pitch: nat, roll: nat)
    | BarometerUpdate(timestamp: nat, pressure: nat)

  predicate InRange(u: Update) {
    && u.timestamp < U64
    && match u
       case PositionUpdate(_, lat, lon, _, _, _) => lat < U64 && lon < U64
       case SpeedUpdate(_, x, y, z) => x < U32 && y < U32 && z < U32
       case AttitudeUpdate(_, yaw, pitch, roll) => yaw < U32 && pitch < U32 && roll < U32
       case BarometerUpdate(_, pressure) => pressure < U32
  }

  function Code(u: Update): nat {
    match u
    case PositionUpdate(_, _, _, _, _, _) => 1
    case SpeedUpdate(_, _, _, _) => 2
    case AttitudeUpdate(_, _, _, _) => 3
    case BarometerUpdate(_, _) => 4
  }

  function SchemaOf(code: nat): Option<seq<Kind>> {
    match code
    case 1 => Some(POSITION)
    case 2 => Some(SPEED)
    case 3 => Some(ATTITUDE)
    case 4 => Some(BAROMETER)
    case _ => None
  }

  function Fields(u: Update, narrow: Narrowing): seq<Value> {
    match u
    case PositionUpdate(t, lat, lon, msl, gl, acc) =>
      [Num(t), Num(lat), Num(lon), Num(narrow(gl)), Num(narrow(msl)), Num(narrow(acc))]
    case SpeedUpdate(t, x, y, z) => [Num(t), Num(x), Num(y), Num(z)]
    case AttitudeUpdate(t, yaw, pitch, roll) => [Num(t), Num(yaw), Num(pitch), Num(roll)]
    case BarometerUpdate(t, pressure) => [Num(t), Num(pressure)]
  }

  lemma FieldsTyped(u: Update, narrow: Narrowing)
    requires InRange(u)
    ensures SchemaOf(Code(u)).Some? && Small(SchemaOf(Code(u)).value)
    ensures Typed(SchemaOf(Code(u)).value, Fields(u, narrow)) && ReadableFrom(Fields(u, narrow), 0)
  {
  }

  /** The protobuf message of an update. */
  function MessageBytes(u: Update, narrow: Narrowing): seq<Byte>
    requires InRange(u)
  {
    FieldsTyped(u, narrow);
    Serialize(SchemaOf(Code(u)).value, Fields(u, narrow))
  }

  /** Big-endian, `width` bytes, the high bits beyond them dropped. */
  function Big(n: nat, width: nat): (r: seq<Byte>)
    ensures |r| == width
  {
    if width == 0 then [] else Big(n / 256, width - 1) + [n % 256]
  }

  function BigValue(s: seq<Byte>): nat
    decreases |s|
  {
    if s == [] then 0 else 256 * BigValue(s[..|s| - 1]) + s[|s| - 1]
  }

  lemma {:induction false} BigRoundTrip(n: nat, width: nat)
    requires n < Power256(width)
    ensures BigValue(Big(n, width)) == n
  {
    if width > 0 {
      BigRoundTrip(n / 256, width - 1);
      assert Big(n, width)[..width - 1] == Big(n / 256, width - 1);
    }
  }

  /** The high byte first. */
  lemma {:induction false} BigLayout(n: nat, width: nat, k: nat)
    ensures k < width ==> Big(n, width)[width - 1 - k] == Shifted(n, k) % 256
  {
    if 0 < k < width { BigLayout(n / 256, width - 1, k - 1); }
  }

  function Frame(u: Update, narrow: Narrowing): seq<Byte>
    requires InRange(u)
  {
    var m := MessageBytes(u, narrow);
    Big(Code(u), 2) + Big(|m| % U16, 2) + m
  }

  predicate AllInRange(us: seq<Update>) {
    forall u | u in us :: InRange(u)
  }

  function Framed(us: seq<Update>, narrow: Narrowing): seq<Byte>
    requires AllInRange(us)
    decreases |us|
  {
    if us == [] then [] else Framed(us[..|us| - 1], narrow) + Frame(us[|us| - 1], narrow)
  }

  // The receiving side, as the framing promises it: code and fields of each update.

  datatype Received = Received(code: nat, fields: seq<Value>)

  function Unframe(s: seq<Byte>): Option<seq<Received>>
    decreases |s|
  {
    if s == [] then Some([])
    else if |s| < 4 then None
    else
      var code := BigValue(s[..2]);
      var size := BigValue(s[2..4]);
      if |s| < 4 + size || SchemaOf(code).None? then None
      else
        match (ParseString(SchemaOf(code).value, s[4..4 + size]), Unframe(s[4 + size..]))
        case (Some(m), Some(more)) => Some([Received(code, m)] + more)
        case _ => None
  }

  /** A double's bits as they arrive: negative zero has become zero. */
  function Double64(bits: nat): Value {
    Num(if bits == 0x8000_0000_0000_0000 then 0 else bits)
  }

  function Float32(bits: nat): Value {
    Num(if bits == 0x8000_0000 then 0 else bits)
  }

  /** What an update should arrive as: its number on the wire and its values in the order of the
      message's fields, the altitude above ground before the one above sea level. */
  function Reading(u: Update, narrow: Narrowing): Received {
    match u
    case PositionUpdate(_, _, _, _, _, _) =>
      Received(1, [Num(u.timestamp), Double64(u.latitude), Double64(u.longitude), Float32(narrow(u.altitudeGl)),
                   Float32(narrow(u.altitudeMsl)), Float32(narrow(u.accuracy))])
    case SpeedUpdate(_, _, _, _) => Received(2, [Num(u.timestamp), Float32(u.x), Float32(u.y), Float32(u.z)])
    case AttitudeUpdate(_, _, _, _) =>
      Received(3, [Num(u.timestamp), Float32(u.yaw), Float32(u.pitch), Float32(u.roll)])
    case BarometerUpdate(_, _) => Received(4, [Num(u.timestamp), Float32(u.pressure)])
  }

  function Readings(us: seq<Update>, narrow: Narrowing): (r: seq<Received>) {
    seq(|us|, k requires 0 <= k < |us| => Reading(us[k], narrow))
  }

  lemma NormalAt(schema: seq<Kind>, m: seq<Value>, k: nat)
    requires Typed(schema, m) && k < |schema|
    ensures |Normal(schema, m)| == |schema|
    ensures Normal(schema, m)[k] == match schema[k]
                                    case UInt64 => Num(m[k].bits)
                                    case Double => Double64(m[k].bits)
                                    case Float => Float32(m[k].bits)
                                    case Str => m[k]
  {
  }

  /** The fields handed to the serializer read as they should. */
  lemma FieldsRead(u: Update, narrow: Narrowing)
    requires InRange(u)
    ensures SchemaOf(Code(u)).Some? && Typed(SchemaOf(Code(u)).value, Fields(u, narrow))
    ensures Reading(u, narrow) == Received(Code(u), Normal(SchemaOf(Code(u)).value, Fields(u, narrow)))
  {
    FieldsTyped(u, narrow);
    var schema, fields := SchemaOf(Code(u)).value, Fields(u, narrow);
    hide Normal, Double64, Float32;
    forall k | 0 <= k < |schema|
      ensures |Normal(schema, fields)| == |schema| && Normal(schema, fields)[k] == Reading(u, narrow).fields[k]
    {
      NormalAt(schema, fields, k);
    }
  }

  /** No message is long enough for its 16-bit length to lose anything. */
  lemma SizeFits(u: Update, narrow: Narrowing)
    requires InRange(u)
    ensures |MessageBytes(u, narrow)| <= 44
    ensures SchemaOf(Code(u)).Some? && Code(u) == Reading(u, narrow).code
    ensures ParseString(SchemaOf(Code(u)).value, MessageBytes(u, narrow)) == Some(Reading(u, narrow).fields)
  {
    FieldsTyped(u, narrow);
    FieldsRead(u, narrow);
    ByteSizeCorrect(SchemaOf(Code(u)).value, Fields(u, narrow));
    RoundTrip(SchemaOf(Code(u)).value, Fields(u, narrow));
  }

  lemma SmallBig(n: nat)
    ensures n < 256 ==> Big(n, 2) == [0, n]
  {
    BigLayout(n, 2, 0);
    BigLayout(n, 2, 1);
  }

  /** Four bytes in front of each message: its number and its length. */
  lemma FrameLayout(u: Update, narrow: Narrowing)
    requires InRange(u)
    ensures var m := MessageBytes(u, narrow);
            |m| <= 44 && Frame(u, narrow) == [0, Reading(u, narrow).code, 0, |m|] + m
  {
    hide Big, MessageBytes, Reading;
    SizeFits(u, narrow);
    SmallBig(Code(u));
    SmallBig(|MessageBytes(u, narrow)|);
  }

  lemma UnframeOne(u: Update, narrow: Narrowing, rest: seq<Byte>)
    requires InRange(u)
    ensures Unframe(Frame(u, narrow) + rest)
         == match Unframe(rest)
            case None => None
            case Some(more) => Some([Reading(u, narrow)] + more)
  {
    hide MessageBytes, ParseString, Big, BigValue, SchemaOf, Reading;
    var m := MessageBytes(u, narrow);
    var s := Frame(u, narrow) + rest;
    SizeFits(u, narrow);
    assert Power256(2) == U16;
    BigRoundTrip(Code(u), 2);
    BigRoundTrip(|m|, 2);
    assert s[..2] == Big(Code(u), 2) && s[2..4] == Big(|m|, 2);
    assert s[4..4 + |m|] == m && s[4 + |m|..] == rest;
  }

  lemma {:induction false} UnframeFramed(us: seq<Update>, narrow: Narrowing, rest: seq<Byte>)
    requires AllInRange(us)
    ensures Unframe(Framed(us, narrow) + rest)
         == match Unframe(rest)
            case None => None
            case Some(more) => Some(Readings(us, narrow) + more)
    decreases |us|
  {
    hide Unframe, Frame, Reading;
    if us == [] {
      assert [] + rest == rest;
      if Unframe(rest).Some? { assert [] + Unframe(rest).value == Unframe(rest).value; }
    } else {
      var n := |us| - 1;
      assert Framed(us, narrow) + rest == Framed(us[..n], narrow) + (Frame(us[n], narrow) + rest);
      UnframeOne(us[n], narrow, rest);
      UnframeFramed(us[..n], narrow, Frame(us[n], narrow) + rest);
      if Unframe(rest).Some? {
        var more := Unframe(rest).value;
        assert Readings(us, narrow) + more == Readings(us[..n], narrow) + ([Reading(us[n], narrow)] + more);
      }
    }
  }

  /** A framed payload is read back as exactly the updates that went in. */
  lemma FramedRoundTrip(us: seq<Update>, narrow: Narrowing)
    requires AllInRange(us)
    ensures Unframe(Framed(us, narrow)) == Some(Readings(us, narrow))
  {
    UnframeFramed(us, narrow, []);
    assert Framed(us, narrow) + [] == Framed(us, narrow);
    assert Readings(us, narrow) + [] == Readings(us, narrow);
  }

  // The packet around the encrypted payload.

  const ENCRYPTION_TYPE: Byte := 1
  const IV_SIZE := 16

  datatype Packet = Packet(counter: nat, flightId: seq<Byte>, encryption: Byte, iv: seq<Byte>, message: seq<Byte>)

  /** The length of the flight id goes into one byte, whatever it is. */
  function PacketBytes(p: Packet): seq<Byte> {
    Big(p.counter, 4) + Big(|p.flightId|, 1) + p.flightId + [p.encryption] + p.iv + p.message
  }

  /** The header, byte by byte; the length of the flight id is cut to eight bits. */
  lemma PacketLayout(p: Packet)
    ensures var s := PacketBytes(p);
            && s[..4] == Big(p.counter, 4) && s[4] == |p.flightId| % 256
            && s[5..] == p.flightId + [p.encryption] + p.iv + p.message
  {
    BigLayout(|p.flightId|, 1, 0);
  }

  function ReadPacket(s: seq<Byte>): Option<Packet> {
    if |s| < 5 then None
    else
      var size := s[4];
      if |s| < 5 + size + 1 + IV_SIZE then None
      else
        Some(Packet(BigValue(s[..4]), s[5..5 + size], s[5 + size],
                    s[6 + size..6 + size + IV_SIZE], s[6 + size + IV_SIZE..]))
  }

  /** A packet is read back exactly when the flight id fits its one-byte length. */
  lemma PacketRoundTripIff(p: Packet)
    requires p.counter < U32 && |p.iv| == IV_SIZE
    ensures ReadPacket(PacketBytes(p)) == Some(p) <==> |p.flightId| <= 255
  {
    var s := PacketBytes(p);
    var n := |p.flightId|;
    assert Power256(4) == U32;
    BigRoundTrip(p.counter, 4);
    assert Big(n, 1) == [n % 256] by { assert Big(n / 256, 0) == []; }
    assert s[..4] == Big(p.counter, 4) && s[4] == n % 256;
    if n <= 255 {
      assert s[5..5 + n] == p.flightId && s[5 + n] == p.encryption;
      assert s[6 + n..6 + n + IV_SIZE] == p.iv && s[6 + n + IV_SIZE..] == p.message;
    }
  }

  /** Whoever can undo single cipher blocks reads exactly the updates, their order and the flight they belong to. */
  lemma SentIsReceived(flightId: seq<Byte>, iv: Cipher.Block, counter: nat, us: seq<Update>, narrow: Narrowing,
                       chain: Cipher.Chaining, unchain: Cipher.Chaining)
    requires AllInRange(us) && counter < U32 && |flightId| <= 255 && Cipher.Inverts(chain, unchain)
    ensures var message := Cipher.Encrypted(chain, iv, Framed(us, narrow));
            var r := ReadPacket(PacketBytes(Packet(counter, flightId, ENCRYPTION_TYPE, iv, message)));
            && r.Some? && r.value.counter == counter && r.value.flightId == flightId
            && r.value.encryption == 1 && |r.value.iv| == 16
            && Unframe(Cipher.Decrypted(unchain, r.value.iv, r.value.message)) == Some(Readings(us, narrow))
  {
    hide Cipher.Encrypted, Cipher.Decrypted, Unframe, Framed, PacketBytes, ReadPacket;
    PacketRoundTripIff(Packet(counter, flightId, ENCRYPTION_TYPE, iv, Cipher.Encrypted(chain, iv, Framed(us, narrow))));
    Cipher.DecryptionUndoes(chain, unchain, iv, Framed(us, narrow));
    FramedRoundTrip(us, narrow);
  }

  /** The sender with its packet counter, which starts at one and wraps at 32 bits. */
  class Sender {
    var counter: nat

    predicate Valid()
      reads this
    {
      counter < U32
    }

    constructor ()
      ensures Valid() && counter == 1
    {
      counter := 1;
    }

    method BuildPosition(u: Update, narrow: Narrowing) returns (message: Message)
      requires InRange(u) && u.PositionUpdate?
      ensures message.schema == POSITION && message.fields == Fields(u, narrow)
      ensures fresh(message) && message.Valid()
    {
      message := new Message(POSITION);
      message.Set(0, Num(u.timestamp));
      message.Set(1, Num(u.latitude));
      message.Set(2, Num(u.longitude));
      message.Set(3, Num(narrow(u.altitudeGl)));
      message.Set(4, Num(narrow(u.altitudeMsl)));
      message.Set(5, Num(narrow(u.accuracy)));
    }

    /** The protobuf message of one update, field by field. */
    method Build(u: Update, narrow: Narrowing) returns (message: Message)
      requires InRange(u)
      ensures SchemaOf(Code(u)) == Some(message.schema) && message.fields == Fields(u, narrow)
      ensures fresh(message) && message.Valid()
    {
      match u
      case PositionUpdate(_, _, _, _, _, _) =>
        message := BuildPosition(u, narrow);
      case SpeedUpdate(t, x, y, z) =>
        message := new Message(SPEED);
        message.Set(0, Num(t));
        message.Set(1, Num(x));
        message.Set(2, Num(y));
        message.Set(3, Num(z));
      case AttitudeUpdate(t, yaw, pitch, roll) =>
        message := new Message(ATTITUDE);
        message.Set(0, Num(t));
        message.Set(1, Num(yaw));
        message.Set(2, Num(pitch));
        message.Set(3, Num(roll));
      case BarometerUpdate(t, pressure) =>
        message := new Message(BAROMETER);
        message.Set(0, Num(t));
        message.Set(1, Num(pressure));
    }

    /** Appends the frame of one update. */
    method AddUpdate(u: Update, narrow: Narrowing, payload: Buffer)
      requires InRange(u)
      modifies payload
      ensures payload.bytes == old(payload.bytes) + Frame(u, narrow)
    {
      hide Serialize, Frame, Big;
      FieldsTyped(u, narrow);
      var message := Build(u, narrow);
      var body := new Buffer();
      message.SerializeWithCachedSizes(body);
      AddFrame(u, narrow, body.bytes, payload);
    }

    method AddFrame(u: Update, narrow: Narrowing, m: seq<Byte>, payload: Buffer)
      requires InRange(u) && m == MessageBytes(u, narrow)
      modifies payload
      ensures payload.bytes == old(payload.bytes) + Frame(u, narrow)
    {
      hide MessageBytes, Big;
      payload.Add(Big(Code(u), 2));
      payload.Add(Big(|m| % U16, 2));
      payload.Add(m);
      assert payload.bytes == old(payload.bytes) + (Big(Code(u), 2) + Big(|m| % U16, 2) + m);
    }

    /** `cipher` is the chaining a key stands for. */
    method SubmitUpdates(flightId: seq<Byte>, key: seq<Byte>, updates: seq<Update>, narrow: Narrowing,
                         iv: Cipher.Block, cipher: seq<Byte> -> Cipher.Chaining)
      returns (packet: seq<Byte>)
      requires Valid() && AllInRange(updates)
      modifies this
      ensures Valid() && counter == (old(counter) + 1) % U32
      ensures packet == PacketBytes(Packet(old(counter), flightId, ENCRYPTION_TYPE, iv,
                                           Cipher.Encrypted(cipher(key), iv, Framed(updates, narrow))))
    {
      hide Frame, Big, Cipher.Encrypted;
      var payload := new Buffer();
      for i := 0 to |updates|
        invariant payload.bytes == Framed(updates[..i], narrow)
        invariant fresh(payload) && counter == old(counter)
      {
        AddUpdate(updates[i], narrow, payload);
        assert updates[..i + 1][..i] == updates[..i];
      }
      assert updates[..|updates|] == updates;
      var message := Cipher.Encrypt(payload.bytes, iv, cipher(key));
      var p := new Buffer();
      p.Add(Big(counter, 4));
      counter := (counter + 1) % U32;
      p.Add(Big(|flightId|, 1));
      p.Add(flightId);
      p.Add([ENCRYPTION_TYPE]);
      p.Add(iv);
      p.Add(message);
      packet := p.bytes;
    }
  }
}
