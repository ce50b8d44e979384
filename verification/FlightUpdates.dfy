/** AmdUavFlightUpdates: a repeated field of nested messages, each written as a length-delimited run. */
module FlightUpdates {
  import opened Prelude
  import opened Wire
  import opened Messages
  import opened Codec

  const LIST_TAG: Byte := 10

  predicate TypedList(us: seq<seq<Value>>) {
    forall u | u in us :: Typed(FLIGHT_UPDATE, u)
  }

  /** No nested message outgrows the 31 bits of its length. */
  predicate Bounded(us: seq<seq<Value>>)
    requires TypedList(us)
  {
    forall u | u in us :: |Serialize(FLIGHT_UPDATE, u)| < U31
  }

  function SerializeList(us: seq<seq<Value>>): seq<Byte>
    requires TypedList(us)
  {
    if us == [] then [] else [LIST_TAG] + Run(Serialize(FLIGHT_UPDATE, us[0])) + SerializeList(us[1..])
  }

  /** The updates are field 1, each written whole. */
  lemma {:induction false} ListLayout(us: seq<seq<Value>>, u: seq<Value>)
    requires TypedList(us) && Typed(FLIGHT_UPDATE, u)
    ensures TypedList(us + [u])
    ensures SerializeList(us + [u]) == SerializeList(us) + ([10] + Run(Serialize(FLIGHT_UPDATE, u)))
  {
    hide Run, Serialize, Typed;
    if us == [] {
      assert us + [u] == [u] && [u][1..] == [];
    } else {
      ListLayout(us[1..], u);
      assert (us + [u])[1..] == us[1..] + [u];
      var first := [LIST_TAG] + Run(Serialize(FLIGHT_UPDATE, us[0]));
      var rest, last := SerializeList(us[1..]), [10] + Run(Serialize(FLIGHT_UPDATE, u));
      assert first + (rest + last) == first + rest + last;
    }
  }

  datatype ListParsed = ListParsed(updates: seq<seq<Value>>, rest: seq<Byte>, clean: bool) | ListFailed

  /** The generated loop: each run is parsed into a fresh message appended to the list. */
  function ParseList(us: seq<seq<Value>>, s: seq<Byte>): ListParsed
    decreases |s|
  {
    if s == [] then ListParsed(us, [], true)
    else
      match ReadVarint(s, 10)
      case Bad => ListParsed(us, s, false)
      case Read(n, rest) =>
        var tag := n % U32;
        if tag == 0 then ListParsed(us, rest, false)
        else if tag == LIST_TAG then
          match ReadRun(rest)
          case Bad => ListFailed
          case Read(b, rest) =>
            match ParseString(FLIGHT_UPDATE, b)
            case None => ListFailed
            case Some(u) => ParseList(us + [u], rest)
        else
          match Skip(tag, rest)
          case Bad => ListFailed
          case Read(_, rest) => ParseList(us, rest)
  }

  function ParseListString(s: seq<Byte>): Option<seq<seq<Value>>> {
    match ParseList([], s)
    case ListParsed(us, _, clean) => if clean then Some(us) else None
    case ListFailed => None
  }

  function NormalList(us: seq<seq<Value>>): (r: seq<seq<Value>>)
    requires TypedList(us)
    ensures |r| == |us| && forall i | 0 <= i < |us| :: r[i] == Normal(FLIGHT_UPDATE, us[i])
  {
    if us == [] then [] else [Normal(FLIGHT_UPDATE, us[0])] + NormalList(us[1..])
  }

  predicate ReadableList(us: seq<seq<Value>>) {
    forall u | u in us :: ReadableFrom(u, 0)
  }

  lemma ParseOneRun(us: seq<seq<Value>>, u: seq<Value>, rest: seq<Byte>)
    requires Typed(FLIGHT_UPDATE, u) && |Serialize(FLIGHT_UPDATE, u)| < U31
    ensures ParseList(us, [LIST_TAG] + Run(Serialize(FLIGHT_UPDATE, u)) + rest)
         == if ReadableFrom(u, 0) then ParseList(us + [Normal(FLIGHT_UPDATE, u)], rest) else ListFailed
  {
    hide Run, ReadRun, ReadVarint, Skip, Serialize, ParseString, Normal, ReadableFrom;
    var b := Serialize(FLIGHT_UPDATE, u);
    assert [LIST_TAG] + Run(b) + rest == [LIST_TAG] + (Run(b) + rest);
    ReadOneByte(LIST_TAG, Run(b) + rest);
    RunRoundTrip(b, rest);
    RoundTrip(FLIGHT_UPDATE, u);
  }

  /** Parsing a serialized list into another one appends it, up to the sign of zeros, or fails if a
      flight id in it is not UTF-8. */
  lemma {:induction false} ParseListMerges(to: seq<seq<Value>>, us: seq<seq<Value>>, rest: seq<Byte>)
    requires TypedList(us) && Bounded(us)
    ensures ParseList(to, SerializeList(us) + rest)
         == if ReadableList(us) then ParseList(to + NormalList(us), rest) else ListFailed
    decreases |us|
  {
    hide ParseList, Serialize, Normal, Run, ReadableFrom, Typed;
    if us == [] {
      assert [] + rest == rest && to + [] == to;
    } else {
      var u := us[0];
      var tail := SerializeList(us[1..]) + rest;
      assert SerializeList(us) + rest == [LIST_TAG] + Run(Serialize(FLIGHT_UPDATE, u)) + tail;
      ParseOneRun(to, u, tail);
      var next := to + [Normal(FLIGHT_UPDATE, u)];
      ParseListMerges(next, us[1..], rest);
      assert next + NormalList(us[1..]) == to + NormalList(us);
      assert ReadableList(us) <==> ReadableFrom(u, 0) && ReadableList(us[1..]);
    }
  }

  /** Two serialized lists one after the other parse to their merge, exactly when all ids are UTF-8. */
  lemma ListsConcatenate(a: seq<seq<Value>>, b: seq<seq<Value>>)
    requires TypedList(a) && TypedList(b) && Bounded(a) && Bounded(b)
    ensures ParseListString(SerializeList(a) + SerializeList(b))
         == if ReadableList(a) && ReadableList(b) then Some(NormalList(a) + NormalList(b)) else None
  {
    hide SerializeList, NormalList, ReadableList;
    ParseListMerges([], a, SerializeList(b));
    ParseListMerges([] + NormalList(a), b, []);
    assert SerializeList(b) + [] == SerializeList(b);
    assert [] + NormalList(a) == NormalList(a);
  }

  /** Every nested list comes back whole. */
  lemma ListRoundTrip(us: seq<seq<Value>>)
    requires TypedList(us) && Bounded(us)
    ensures ParseListString(SerializeList(us)) == if ReadableList(us) then Some(NormalList(us)) else None
  {
    ListsConcatenate(us, []);
    assert SerializeList(us) + [] == SerializeList(us) && NormalList(us) + [] == NormalList(us);
  }

  class UpdateList {
    var updates: seq<seq<Value>>

    predicate Valid()
      reads this
    {
      TypedList(updates)
    }

    constructor ()
      ensures Valid() && updates == []
    {
      updates := [];
    }

    method MergeFrom(from: UpdateList)
      requires Valid() && from.Valid() && from != this
      modifies this
      ensures Valid() && updates == old(updates) + from.updates
    {
      updates := updates + from.updates;
    }

    method SerializeWithCachedSizes(output: Buffer)
      requires Valid()
      modifies output
      ensures output.bytes == old(output.bytes) + SerializeList(updates)
    {
      hide Serialize, Run;
      ghost var before := output.bytes;
      ghost var us := updates;
      for i := 0 to |updates|
        invariant updates == us && TypedList(us)
        invariant output.bytes + SerializeList(us[i..]) == before + SerializeList(us)
      {
        assert us[i..][0] == us[i] && us[i..][1..] == us[i + 1..];
        ghost var sofar := output.bytes;
        ghost var tail := SerializeList(us[i + 1..]);
        var b := Serialize(FLIGHT_UPDATE, updates[i]);
        output.Add([LIST_TAG]);
        output.Add(Run(b));
        assert sofar + ([LIST_TAG] + Run(b) + tail) == output.bytes + tail;
      }
      assert output.bytes + [] == output.bytes;
    }

    method ByteSizeLong() returns (total: nat)
      requires Valid() && Bounded(updates)
      ensures total == |SerializeList(updates)|
    {
      hide Serialize, Typed;
      ghost var us := updates;
      total := |updates|;
      for i := 0 to |updates|
        invariant updates == us && TypedList(us) && Bounded(us)
        invariant total + |SerializeList(us[i..])| == |SerializeList(us)| + |us| - i
      {
        assert us[i..][0] == us[i] && us[i..][1..] == us[i + 1..];
        var size := |Serialize(FLIGHT_UPDATE, updates[i])|;
        VarintSizeCorrect(size);
        total := total + VarintSize(size) + size;
      }
    }

    method MergePartialFromCodedStream(input: seq<Byte>) returns (ok: bool, rest: seq<Byte>, clean: bool)
      modifies this
      ensures match ParseList(old(updates), input)
              case ListParsed(us, r, c) => ok && updates == us && rest == r && clean == c
              case ListFailed => !ok
    {
      ok, rest, clean := true, input, true;
      while rest != []
        invariant ok && clean
        invariant ParseList(updates, rest) == ParseList(old(updates), input)
        decreases |rest|
      {
        match ReadVarint(rest, 10)
        case Bad =>
          clean := false;
          return;
        case Read(n, after) =>
          var tag := n % U32;
          if tag == 0 {
            rest, clean := after, false;
            return;
          }
          if tag == LIST_TAG {
            match ReadRun(after)
            case Bad =>
              ok := false;
              return;
            case Read(b, next) =>
              var u := new Message(FLIGHT_UPDATE);
              var parsed, _, whole := u.MergePartialFromCodedStream(b);
              if !parsed || !whole {
                ok := false;
                return;
              }
              updates, rest := updates + [u.fields], next;
          } else {
            match Skip(tag, after)
            case Bad =>
              ok := false;
              return;
            case Read(_, next) =>
              rest := next;
          }
      }
    }
  }
}
