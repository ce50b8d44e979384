/** The generated message code in place: parse loops that assign fields as tags come in, serializers
    that append to an output, sizers that accumulate, merges that overwrite. */
module Codec {
  import opened Prelude
  import opened Wire
  import opened Messages

  /** A growing string of bytes. */
  class Buffer {
    var bytes: seq<Byte>

    constructor ()
      ensures bytes == []
    {
      bytes := [];
    }

    method Add(more: seq<Byte>)
      modifies this
      ensures bytes == old(bytes) + more
    {
      bytes := bytes + more;
    }
  }

  /** One generated message: its table and its fields. */
  class Message {
    const schema: seq<Kind>
    var fields: seq<Value>

    predicate Valid()
      reads this
    {
      Small(schema) && Typed(schema, fields)
    }

    constructor (schema: seq<Kind>)
      requires Small(schema)
      ensures Valid() && this.schema == schema && fields == Empty(schema)
    {
      this.schema := schema;
      fields := Empty(schema);
    }

    method Set(k: nat, v: Value)
      requires Valid() && k < |schema| && Fits(schema[k], v)
      modifies this
      ensures Valid() && fields == old(fields)[k := v]
    {
      fields := fields[k := v];
    }

    method MergeFrom(from: Message)
      requires Valid() && from.Valid() && from.schema == schema && from != this
      modifies this
      ensures Valid() && fields == Merge(schema, old(fields), from.fields)
    {
      ghost var merged := Merge(schema, fields, from.fields);
      for k := 0 to |schema|
        invariant Valid()
        invariant forall i | 0 <= i < |schema| :: fields[i] == if i < k then merged[i] else old(fields)[i]
      {
        if Present(schema[k], from.fields[k]) {
          fields := fields[k := from.fields[k]];
        }
      }
    }

    method ByteSizeLong() returns (total: nat)
      requires Valid()
      ensures total == |Serialize(schema, fields)|
    {
      total := 0;
      for k := 0 to |schema|
        invariant total + ByteSizeFrom(schema, fields, k) == ByteSizeFrom(schema, fields, 0)
      {
        var v := fields[k];
        if Present(schema[k], v) {
          match schema[k]
          case UInt64 => total := total + 1 + VarintSize(v.bits);
          case Double => total := total + 1 + 8;
          case Float => total := total + 1 + 4;
          case Str => total := total + 1 + VarintSize(|v.bytes|) + |v.bytes|;
        }
      }
      SizeFromCorrect(schema, fields, 0);
    }

    /** Zero fields are left out. */
    method WriteField(k: nat, output: Buffer)
      requires Valid() && k < |schema|
      modifies output
      ensures output.bytes == old(output.bytes) + FieldBytes(schema[k], k, fields[k])
    {
      hide Payload;
      if Present(schema[k], fields[k]) {
        output.Add([Tag(schema[k], k)]);
        output.Add(Payload(schema[k], fields[k]));
        assert old(output.bytes) + ([Tag(schema[k], k)] + Payload(schema[k], fields[k])) == output.bytes;
      }
    }

    method SerializeWithCachedSizes(output: Buffer)
      requires Valid()
      modifies output
      ensures output.bytes == old(output.bytes) + Serialize(schema, fields)
    {
      hide FieldBytes;
      ghost var before := output.bytes;
      ghost var m := fields;
      for k := 0 to |schema|
        invariant fields == m
        invariant output.bytes + SerializeFrom(schema, m, k) == before + Serialize(schema, m)
      {
        ghost var tail := SerializeFrom(schema, m, k + 1);
        ghost var field := FieldBytes(schema[k], k, m[k]);
        assert SerializeFrom(schema, m, k) == field + tail;
        ghost var sofar := output.bytes;
        WriteField(k, output);
        assert sofar + (field + tail) == output.bytes + tail;
      }
      assert output.bytes + [] == output.bytes;
    }

    /** Returns false on a field that cannot be read; otherwise the fields hold what the input said so
        far, with the input left and whether a message may end there. */
    method MergePartialFromCodedStream(input: seq<Byte>) returns (ok: bool, rest: seq<Byte>, clean: bool)
      requires Valid()
      modifies this
      ensures Valid()
      ensures match Parse(schema, old(fields), input)
              case Parsed(m, r, c) => ok && fields == m && rest == r && clean == c
              case Failed => !ok
    {
      ok, rest, clean := true, input, true;
      while rest != []
        invariant Valid() && ok && clean
        invariant Parse(schema, fields, rest) == Parse(schema, old(fields), input)
        decreases |rest|
      {
        match ReadVarint(rest, 10)
        case Bad =>
          clean := false;
          return;
        case Read(n, after) =>
          var tag := n % U32;
          if tag == 0 {
            rest, clean := after, false;
            return;
          }
          if Expected(schema, tag) {
            var k := tag / 8 - 1;
            match ReadPayload(schema[k], after)
            case Bad =>
              ok := false;
              return;
            case Read(v, next) =>
              PayloadFits(schema[k], after);
              fields, rest := fields[k := v], next;
          } else {
            match Skip(tag, after)
            case Bad =>
              ok := false;
              return;
            case Read(_, next) =>
              rest := next;
          }
      }
    }
  }
}
