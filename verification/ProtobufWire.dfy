/**
 The Protocol Buffers wire format as the dataset parser reads it (Protocol Buffers Encoding,
 sections "Base 128 Varints" and "Message Structure"): varints of at most ten bytes, and the
 flat list of fields of one message.  Every malformed input is one refusal, None.
 */
module ProtobufWire {
  import opened Wrappers

  // ---------------------------------------------------------------- varints

  const VARINT_BYTES: nat := 10

  function Pow128(n: nat): (p: nat)
    ensures p > 0
  {
    if n == 0 then 1 else 128 * Pow128(n - 1)
  }

  /** The varint at the start of `data`, within `room` bytes: its value and its length. */
  function Varint(data: seq<byte>, room: nat): (r: Option<(nat, nat)>)
    ensures r.Some? ==> 0 < r.value.1 <= |data| && r.value.1 <= room && r.value.0 < Pow128(room)
    decreases room
  {
    if data == [] || room == 0 then None
    else if data[0] < 128 then Some((data[0], 1))
    else
      match Varint(data[1..], room - 1)
      case None => None
      case Some((high, n)) => Some((data[0] % 128 + 128 * high, n + 1))
  }

  function EncodeVarint(value: nat): (data: seq<byte>)
    ensures |data| > 0
  {
    if value < 128 then [value] else [128 + value % 128] + EncodeVarint(value / 128)
  }

  /** Decoding inverts encoding, whatever follows, for every value of at most `room` groups of seven bits. */
  lemma {:induction false} VarintRoundTrip(value: nat, rest: seq<byte>, room: nat)
    requires 0 < room && value < Pow128(room)
    ensures Varint(EncodeVarint(value) + rest, room) == Some((value, |EncodeVarint(value)|))
    decreases room
  {
    if value >= 128 {
      assert room > 1 by {
        assert Pow128(1) == 128 * Pow128(0);
      }
      VarintRoundTrip(value / 128, rest, room - 1);
      assert (EncodeVarint(value) + rest)[1..] == EncodeVarint(value / 128) + rest;
    }
  }

  /** What was read does not depend on what follows. */
  lemma {:induction false} VarintPrefix(data: seq<byte>, rest: seq<byte>, room: nat)
    requires Varint(data, room).Some?
    ensures Varint(data + rest, room) == Varint(data, room)
    decreases room
  {
    if data[0] >= 128 {
      VarintPrefix(data[1..], rest, room - 1);
      assert (data + rest)[1..] == data[1..] + rest;
    }
  }

  /** `low` shifted left by so many groups of seven bits. */
  function Shifted(low: nat, groups: nat): nat {
    if groups == 0 then low else 128 * Shifted(low, groups - 1)
  }

  lemma {:induction false} ShiftedSum(low: nat, high: nat, groups: nat)
    ensures Shifted(low + 128 * high, groups) == Shifted(low, groups) + Shifted(high, groups + 1)
  {
    if groups > 0 {
      ShiftedSum(low, high, groups - 1);
    }
  }

  /** `value` is what the bytes so far contribute, and `rest` what the remaining ones decode to. */
  function Joined(value: nat, groups: nat, rest: Option<(nat, nat)>): Option<(nat, nat)> {
    match rest
    case None => None
    case Some((high, n)) => Some((value + Shifted(high, groups), groups + n))
  }

  /** One more byte with its continuation bit set moves its seven bits to the value. */
  lemma {:induction false} JoinStep(value: nat, groups: nat, data: seq<byte>, room: nat)
    requires data != [] && data[0] >= 128 && room > 0
    ensures Joined(value, groups, Varint(data, room))
            == Joined(value + Shifted(data[0] % 128, groups), groups + 1, Varint(data[1..], room - 1))
  {
    var rest := Varint(data[1..], room - 1);
    if rest.Some? {
      ShiftedSum(data[0] % 128, rest.value.0, groups);
    }
  }

  method ReadVarint(data: seq<byte>, start: nat) returns (r: Option<(nat, nat)>)
    requires start <= |data|
    ensures r == Varint(data[start..], VARINT_BYTES)
  {
    hide Varint, Shifted;
    var value: nat, groups, offset := 0, 0, start;
    ghost var goal := Varint(data[start..], VARINT_BYTES);
    JoinedNothing(goal);
    while offset < |data| && 7 * groups <= 63
      invariant groups <= VARINT_BYTES && offset == start + groups <= |data|
      invariant goal == Joined(value, groups, Varint(data[offset..], VARINT_BYTES - groups))
    {
      ghost var rest := data[offset..];
      VarintStep(rest, VARINT_BYTES - groups);
      var byte := data[offset];
      offset := offset + 1;
      if byte < 128 {
        return Some((value + Shifted(byte, groups), groups + 1));
      }
      JoinStep(value, groups, rest, VARINT_BYTES - groups);
      assert rest[1..] == data[offset..];
      value, groups := value + Shifted(byte % 128, groups), groups + 1;
    }
    VarintStep(data[offset..], VARINT_BYTES - groups);
    r := None;
  }

  lemma {:induction false} JoinedNothing(rest: Option<(nat, nat)>)
    ensures Joined(0, 0, rest) == rest
  {
  }

  lemma {:induction false} VarintStep(data: seq<byte>, room: nat)
    ensures data == [] || room == 0 ==> Varint(data, room).None?
    ensures data != [] && room > 0 && data[0] < 128 ==> Varint(data, room) == Some((data[0], 1))
  {
  }

  // ---------------------------------------------------------------- fields

  datatype Value = Number(value: nat) | Eight(bytes: seq<byte>) | Payload(bytes: seq<byte>) | Four(bytes: seq<byte>)

  datatype Field = Field(number: nat, value: Value)

  /** The first `n` bytes of what follows `start`, if there are that many. */
  function Take(data: seq<byte>, start: nat, n: nat): (r: Option<seq<byte>>)
    ensures r.Some? <==> start + n <= |data|
  {
    if start + n <= |data| then Some(data[start..start + n]) else None
  }

  /** A field body of wire type `kind`, and how many bytes it takes. */
  function Body(data: seq<byte>, kind: nat): (r: Option<(Value, nat)>)
    ensures r.Some? ==> r.value.1 <= |data|
  {
    if kind == 0 then
      match Varint(data, VARINT_BYTES)
      case None => None
      case Some((value, n)) => Some((Number(value), n))
    else if kind == 1 then
      match Take(data, 0, 8)
      case None => None
      case Some(bytes) => Some((Eight(bytes), 8))
    else if kind == 2 then
      match Varint(data, VARINT_BYTES)
      case None => None
      case Some((length, n)) =>
        (match Take(data, n, length)
         case None => None
         case Some(bytes) => Some((Payload(bytes), n + length)))
    else if kind == 5 then
      match Take(data, 0, 4)
      case None => None
      case Some(bytes) => Some((Four(bytes), 4))
    else None
  }

  /** The first field of a message, and how many bytes it takes. */
  function NextField(data: seq<byte>): (r: Option<(Field, nat)>)
    ensures r.Some? ==> 0 < r.value.1 <= |data|
  {
    match Varint(data, VARINT_BYTES)
    case None => None
    case Some((tag, n)) =>
      if tag / 8 == 0 then None
      else
        match Body(data[n..], tag % 8)
        case None => None
        case Some((value, m)) => Some((Field(tag / 8, value), n + m))
  }

  /** All fields of a message, or a refusal when any is malformed. */
  function Fields(data: seq<byte>): Option<seq<Field>>
    decreases |data|
  {
    if data == [] then Some([])
    else
      match NextField(data)
      case None => None
      case Some((field, n)) => Append([field], Fields(data[n..]))
  }

  function Append(fields: seq<Field>, rest: Option<seq<Field>>): Option<seq<Field>> {
    if rest.None? then None else Some(fields + rest.value)
  }

  method ReadBody(data: seq<byte>, start: nat, kind: nat) returns (r: Option<(Value, nat)>)
    requires start <= |data|
    ensures r == Body(data[start..], kind)
  {
    hide Varint;
    r := None;
    if kind == 0 {
      var number := ReadVarint(data, start);
      if number.Some? {
        r := Some((Number(number.value.0), number.value.1));
      }
    } else if kind == 1 && start + 8 <= |data| {
      assert data[start..][0..8] == data[start..start + 8];
      r := Some((Eight(data[start..start + 8]), 8));
    } else if kind == 2 {
      var length := ReadVarint(data, start);
      if length.Some? && start + length.value.1 + length.value.0 <= |data| {
        var from := start + length.value.1;
        assert data[start..][length.value.1..length.value.1 + length.value.0] == data[from..from + length.value.0];
        r := Some((Payload(data[from..from + length.value.0]), length.value.1 + length.value.0));
      }
    } else if kind == 5 && start + 4 <= |data| {
      assert data[start..][0..4] == data[start..start + 4];
      r := Some((Four(data[start..start + 4]), 4));
    }
  }

  /** The parser's loop: it yields exactly the message's fields, or refuses. */
  method ReadFields(data: seq<byte>) returns (r: Option<seq<Field>>)
    ensures r == Fields(data)
  {
    hide Varint, Body, Fields;
    var fields, offset := [], 0;
    assert data[0..] == data;
    FieldsStep([], data);
    while offset < |data|
      invariant offset <= |data| && Fields(data) == Append(fields, Fields(data[offset..]))
    {
      ghost var rest := data[offset..];
      FieldsStep(fields, rest);
      var tag := ReadVarint(data, offset);
      if tag.None? || tag.value.0 / 8 == 0 {
        return None;
      }
      var start := offset + tag.value.1;
      assert rest[tag.value.1..] == data[start..];
      var body := ReadBody(data, start, tag.value.0 % 8);
      if body.None? {
        return None;
      }
      assert rest[tag.value.1 + body.value.1..] == data[start + body.value.1..];
      fields, offset := fields + [Field(tag.value.0 / 8, body.value.0)], start + body.value.1;
    }
    FieldsStep(fields, data[offset..]);
    r := Some(fields);
  }

  lemma {:induction false} FieldsStep(fields: seq<Field>, data: seq<byte>)
    ensures Append([], Fields(data)) == Fields(data)
    ensures data == [] ==> Append(fields, Fields(data)) == Some(fields)
    ensures data != [] ==>
              Append(fields, Fields(data)) ==
              (if NextField(data).None? then None
               else Append(fields + [NextField(data).value.0], Fields(data[NextField(data).value.1..])))
  {
    hide NextField;
    var rest := Fields(data);
    if rest.Some? {
      assert [] + rest.value == rest.value;
    }
    assert fields + [] == fields;
    if data != [] && NextField(data).Some? {
      var (field, n) := NextField(data).value;
      var after := Fields(data[n..]);
      if after.Some? {
        assert fields + ([field] + after.value) == (fields + [field]) + after.value;
      }
    }
  }

  // ---------------------------------------------------------------- concatenation

  lemma {:induction false} TakePrefix(data: seq<byte>, rest: seq<byte>, start: nat, n: nat)
    requires start + n <= |data|
    ensures Take(data + rest, start, n) == Take(data, start, n)
  {
    assert (data + rest)[start..start + n] == data[start..start + n];
  }

  lemma {:induction false} BodyPrefix(data: seq<byte>, rest: seq<byte>, kind: nat)
    requires Body(data, kind).Some?
    ensures Body(data + rest, kind) == Body(data, kind)
  {
    hide Varint, Take;
    if kind == 0 || kind == 2 {
      VarintPrefix(data, rest, VARINT_BYTES);
      if kind == 2 {
        var (length, n) := Varint(data, VARINT_BYTES).value;
        TakePrefix(data, rest, n, length);
      }
    } else {
      TakePrefix(data, rest, 0, if kind == 1 then 8 else 4);
    }
  }

  lemma {:induction false} NextFieldPrefix(data: seq<byte>, rest: seq<byte>)
    requires NextField(data).Some?
    ensures NextField(data + rest) == NextField(data)
  {
    hide Varint, Body;
    VarintPrefix(data, rest, VARINT_BYTES);
    var (tag, n) := Varint(data, VARINT_BYTES).value;
    BodyPrefix(data[n..], rest, tag % 8);
    assert (data + rest)[n..] == data[n..] + rest;
  }

  /** Once the first message parses, the concatenation parses as both messages one after the other. */
  lemma {:induction false} FieldsOfConcatenation(a: seq<byte>, b: seq<byte>)
    requires Fields(a).Some?
    ensures Fields(a + b) == Append(Fields(a).value, Fields(b))
    decreases |a|
  {
    hide NextField;
    if a == [] {
      assert a + b == b;
      FieldsStep([], b);
    } else {
      NextFieldPrefix(a, b);
      var (field, n) := NextField(a).value;
      FieldsOfConcatenation(a[n..], b);
      assert (a + b)[n..] == a[n..] + b;
      if Fields(b).Some? {
        assert [field] + (Fields(a[n..]).value + Fields(b).value) == Fields(a).value + Fields(b).value;
      }
    }
  }

  // ---------------------------------------------------------------- encoding

  function WireType(value: Value): nat {
    match value
    case Number(_) => 0
    case Eight(_) => 1
    case Payload(_) => 2
    case Four(_) => 5
  }

  /** The values a field can carry. */
  predicate Encodable(field: Field) {
    && 0 < field.number && field.number * 8 + 7 < Pow128(VARINT_BYTES)
    && match field.value
       case Number(value) => value < Pow128(VARINT_BYTES)
       case Eight(bytes) => |bytes| == 8
       case Payload(bytes) => |bytes| < Pow128(VARINT_BYTES)
       case Four(bytes) => |bytes| == 4
  }

  function EncodeBody(value: Value): seq<byte> {
    match value
    case Number(n) => EncodeVarint(n)
    case Payload(bytes) => EncodeVarint(|bytes|) + bytes
    case Eight(bytes) => bytes
    case Four(bytes) => bytes
  }

  function EncodeField(field: Field): (data: seq<byte>)
    ensures |data| > 0
  {
    EncodeVarint(field.number * 8 + WireType(field.value)) + EncodeBody(field.value)
  }

  function Encode(fields: seq<Field>): seq<byte> {
    if fields == [] then [] else EncodeField(fields[0]) + Encode(fields[1..])
  }

  lemma {:induction false} BodyRoundTrip(field: Field)
    requires Encodable(field)
    ensures Body(EncodeBody(field.value), WireType(field.value)) == Some((field.value, |EncodeBody(field.value)|))
  {
    hide Varint, EncodeVarint, Pow128;
    match field.value
    case Number(n) =>
      VarintRoundTrip(n, [], VARINT_BYTES);
      assert EncodeVarint(n) + [] == EncodeVarint(n);
    case Payload(bytes) =>
      VarintRoundTrip(|bytes|, bytes, VARINT_BYTES);
      var n := |EncodeVarint(|bytes|)|;
      assert (EncodeVarint(|bytes|) + bytes)[n..n + |bytes|] == bytes;
    case Eight(bytes) =>
      assert bytes[0..8] == bytes;
    case Four(bytes) =>
      assert bytes[0..4] == bytes;
  }

  lemma {:induction false} FieldRoundTrip(field: Field)
    requires Encodable(field)
    ensures NextField(EncodeField(field)) == Some((field, |EncodeField(field)|))
  {
    hide Varint, EncodeVarint, Pow128, Body, EncodeBody;
    var tag := field.number * 8 + WireType(field.value);
    VarintRoundTrip(tag, EncodeBody(field.value), VARINT_BYTES);
    BodyRoundTrip(field);
    assert EncodeField(field)[|EncodeVarint(tag)|..] == EncodeBody(field.value);
  }

  /** Parsing inverts encoding for every list of fields. */
  lemma {:induction false} FieldsRoundTrip(fields: seq<Field>)
    requires forall i | 0 <= i < |fields| :: Encodable(fields[i])
    ensures Fields(Encode(fields)) == Some(fields)
  {
    hide NextField, EncodeField, Encodable;
    if fields != [] {
      var first := EncodeField(fields[0]);
      FieldRoundTrip(fields[0]);
      assert first[|first|..] == [];
      FieldsStep([fields[0]], []);
      assert Fields(first) == Some([fields[0]]);
      FieldsRoundTrip(fields[1..]);
      FieldsOfConcatenation(first, Encode(fields[1..]));
      assert [fields[0]] + fields[1..] == fields;
    }
  }
}
