/**
 The domestic dataset: parsing geoip.dat, refusing whatever is unusable, and classifying an
 address by the networks found.  The UnicodeDecodeError, ValueError and DatasetUnavailable of
 the source are one refusal, None.
 */
module GeoIp {
  import opened Wrappers
  import opened ProtobufWire
  import opened Utf8

  // ---------------------------------------------------------------- addresses and networks

  /** An address or network of the family with so many bits, 32 or 128. */
  datatype Address = Address(width: nat, value: nat)

  datatype Network = Network(width: nat, value: nat, prefix: nat)

  function Pow2(n: nat): (p: nat)
    ensures p > 0
  {
    if n == 0 then 1 else 2 * Pow2(n - 1)
  }

  function BigEndian(bytes: seq<byte>): nat {
    if bytes == [] then 0 else 256 * BigEndian(bytes[..|bytes| - 1]) + bytes[|bytes| - 1]
  }

  /** `value` with its `host` lowest bits cleared. */
  function Cleared(value: nat, host: nat): nat {
    if host == 0 then value else 2 * Cleared(value / 2, host - 1)
  }

  /** `value` shifted right by `n` bits. */
  function Halved(value: nat, n: nat): nat {
    if n == 0 then value else Halved(value / 2, n - 1)
  }

  /** Bit `i` of an address, counted from the most significant one. */
  function Bit(width: nat, value: nat, i: nat): nat
    requires i < width
  {
    Halved(value, width - 1 - i) % 2
  }

  function MakeNetwork(packed: Option<seq<byte>>, prefix: Option<nat>): Option<Network> {
    if packed.None? || prefix.None? || (|packed.value| != 4 && |packed.value| != 16) then None
    else
      var width := 8 * |packed.value|;
      if prefix.value > width then None
      else Some(Network(width, Cleared(BigEndian(packed.value), width - prefix.value), prefix.value))
  }

  predicate Contains(network: Network, address: Address) {
    && address.width == network.width && network.prefix <= network.width
    && Cleared(address.value, network.width - network.prefix) == network.value
  }

  // ---------------------------------------------------------------- one CIDR

  /** The last length-delimited field with this number wins. */
  function LastPayload(fields: seq<Field>, number: nat): Option<seq<byte>> {
    if fields == [] then None
    else
      var last := fields[|fields| - 1];
      if last.number == number && last.value.Payload? then Some(last.value.bytes)
      else LastPayload(fields[..|fields| - 1], number)
  }

  function LastNumber(fields: seq<Field>, number: nat): Option<nat> {
    if fields == [] then None
    else
      var last := fields[|fields| - 1];
      if last.number == number && last.value.Number? then Some(last.value.value)
      else LastNumber(fields[..|fields| - 1], number)
  }

  function Cidr(payload: seq<byte>): Option<Network> {
    match Fields(payload)
    case None => None
    case Some(fields) => MakeNetwork(LastPayload(fields, 1), LastNumber(fields, 2))
  }

  lemma {:induction false} Incomplete(packed: Option<seq<byte>>, prefix: Option<nat>)
    requires packed.None? || prefix.None?
    ensures MakeNetwork(packed, prefix).None?
  {
  }

  method ParseCidr(payload: seq<byte>) returns (network: Option<Network>)
    ensures network == Cidr(payload)
    ensures network.Some? ==>
              && Fields(payload).Some? && LastPayload(Fields(payload).value, 1).Some?
              && LastNumber(Fields(payload).value, 2) == Some(network.value.prefix)
              && NetworkBits(network.value, LastPayload(Fields(payload).value, 1).value)
  {
    hide Fields, MakeNetwork;
    var fields := ReadFields(payload);
    if fields.None? {
      return None;
    }
    var packed: Option<seq<byte>>, prefix: Option<nat> := None, None;
    for i := 0 to |fields.value|
      invariant packed == LastPayload(fields.value[..i], 1)
      invariant prefix == LastNumber(fields.value[..i], 2)
    {
      assert fields.value[..i + 1][..i] == fields.value[..i];
      var field := fields.value[i];
      if field.number == 1 && field.value.Payload? {
        packed := Some(field.value.bytes);
      } else if field.number == 2 && field.value.Number? {
        prefix := Some(field.value.value);
      }
    }
    assert fields.value[..|fields.value|] == fields.value;
    network := MakeNetwork(packed, prefix);
    if packed.Some? && prefix.Some? {
      MadeBits(packed.value, prefix.value);
    } else {
      assert network.None? by { Incomplete(packed, prefix); }
    }
  }

  // ---------------------------------------------------------------- one country

  /** Upper-casing gives "RU". */
  predicate Domestic(country: seq<byte>) {
    |country| == 2 && (country[0] == 0x52 || country[0] == 0x72) && (country[1] == 0x55 || country[1] == 0x75)
  }

  datatype Entry = Entry(country: seq<byte>, inverse: bool, networks: seq<Network>)

  function WithField(entry: Entry, field: Field): Option<Entry> {
    match field.value
    case Payload(bytes) =>
      if field.number == 1 then
        if ValidUtf8(bytes) then Some(entry.(country := bytes)) else None
      else if field.number == 2 then
        match Cidr(bytes)
        case None => None
        case Some(network) => Some(entry.(networks := entry.networks + [network]))
      else Some(entry)
    case Number(value) =>
      if field.number == 3 then Some(entry.(inverse := value != 0)) else Some(entry)
    case _ => Some(entry)
  }

  function EntryOf(fields: seq<Field>): Option<Entry> {
    if fields == [] then Some(Entry([], false, []))
    else
      match EntryOf(fields[..|fields| - 1])
      case None => None
      case Some(entry) => WithField(entry, fields[|fields| - 1])
  }

  function Country(payload: seq<byte>): Option<Entry> {
    match Fields(payload)
    case None => None
    case Some(fields) => EntryOf(fields)
  }

  /** A refusal is final. */
  lemma {:induction false} EntryRefused(fields: seq<Field>, i: nat)
    requires i <= |fields| && EntryOf(fields[..i]).None?
    ensures EntryOf(fields).None?
    decreases |fields| - i
  {
    if i == |fields| {
      assert fields[..i] == fields;
    } else {
      assert fields[..i + 1][..i] == fields[..i];
      EntryRefused(fields, i + 1);
    }
  }

  method ParseGeoip(payload: seq<byte>) returns (entry: Option<Entry>)
    ensures entry == Country(payload)
  {
    hide Fields, Cidr, ValidUtf8;
    var read := ReadFields(payload);
    if read.None? {
      return None;
    }
    var fields := read.value;
    var country, inverse, networks := [], false, [];
    for i := 0 to |fields|
      invariant EntryOf(fields[..i]) == Some(Entry(country, inverse, networks))
    {
      assert fields[..i + 1][..i] == fields[..i];
      var field := fields[i];
      if field.number == 1 && field.value.Payload? {
        if !ValidUtf8(field.value.bytes) {
          EntryRefused(fields, i + 1);
          return None;
        }
        country := field.value.bytes;
      } else if field.number == 2 && field.value.Payload? {
        var network := ParseCidr(field.value.bytes);
        if network.None? {
          EntryRefused(fields, i + 1);
          return None;
        }
        networks := networks + [network.value];
      } else if field.number == 3 && field.value.Number? {
        inverse := field.value.value != 0;
      }
    }
    assert fields[..|fields|] == fields;
    entry := Some(Entry(country, inverse, networks));
  }

  // ---------------------------------------------------------------- the dataset

  datatype Found = Found(found: bool, networks: seq<Network>)

  function Consider(state: Found, field: Field): Option<Found> {
    if field.number != 1 || !field.value.Payload? then Some(state)
    else
      match Country(field.value.bytes)
      case None => None
      case Some(entry) =>
        if !Domestic(entry.country) then Some(state)
        else if entry.inverse then None
        else Some(Found(true, state.networks + entry.networks))
  }

  function FoundIn(fields: seq<Field>): Option<Found> {
    if fields == [] then Some(Found(false, []))
    else
      match FoundIn(fields[..|fields| - 1])
      case None => None
      case Some(state) => Consider(state, fields[|fields| - 1])
  }

  function Usable(state: Option<Found>): Option<seq<Network>> {
    if state.None? || !state.value.found || state.value.networks == [] then None else Some(state.value.networks)
  }

  /** The domestic networks of a dataset file's bytes. */
  function Dataset(data: seq<byte>): Option<seq<Network>> {
    match Fields(data)
    case None => None
    case Some(fields) => Usable(FoundIn(fields))
  }

  lemma {:induction false} FoundRefused(fields: seq<Field>, i: nat)
    requires i <= |fields| && FoundIn(fields[..i]).None?
    ensures FoundIn(fields).None?
    decreases |fields| - i
  {
    if i == |fields| {
      assert fields[..i] == fields;
    } else {
      assert fields[..i + 1][..i] == fields[..i];
      FoundRefused(fields, i + 1);
    }
  }

  lemma {:induction false} NextField(fields: seq<Field>, i: nat, state: Found)
    requires i < |fields| && FoundIn(fields[..i]) == Some(state)
    ensures FoundIn(fields[..i + 1]) == Consider(state, fields[i])
  {
    assert fields[..i + 1][..i] == fields[..i];
  }

  method LoadRuNetworks(data: seq<byte>) returns (loaded: Option<seq<Network>>)
    ensures loaded == Dataset(data)
  {
    hide Country, Domestic;
    if data == [] {
      return None;
    }
    hide Fields;
    assert FoundIn([]) == Some(Found(false, []));
    hide FoundIn;
    var read := ReadFields(data);
    if read.None? {
      return None;
    }
    var fields := read.value;
    var found, networks := false, [];
    for i := 0 to |fields|
      invariant FoundIn(fields[..i]) == Some(Found(found, networks))
    {
      NextField(fields, i, Found(found, networks));
      var field := fields[i];
      if field.number != 1 || !field.value.Payload? {
        continue;
      }
      var entry := ParseGeoip(field.value.bytes);
      if entry.None? {
        FoundRefused(fields, i + 1);
        return None;
      }
      if Domestic(entry.value.country) {
        if entry.value.inverse {
          FoundRefused(fields, i + 1);
          return None;
        }
        found, networks := true, networks + entry.value.networks;
      }
    }
    assert fields[..|fields|] == fields;
    loaded := if found && networks != [] then Some(networks) else None;
  }

  datatype Verdict = Ru | Foreign

  /** The verdict over loaded networks; `destination` is None when it is not an address. */
  ghost function Classified(networks: seq<Network>, destination: Option<Address>): Option<Verdict> {
    if destination.None? then None
    else if exists i :: 0 <= i < |networks| && Contains(networks[i], destination.value) then Some(Ru)
    else Some(Foreign)
  }

  method ClassifyAddress(networks: seq<Network>, destination: Option<Address>) returns (verdict: Option<Verdict>)
    ensures verdict == Classified(networks, destination)
  {
    hide Contains;
    if destination.None? {
      return None;
    }
    for i := 0 to |networks|
      invariant forall k | 0 <= k < i :: !Contains(networks[k], destination.value)
    {
      if Contains(networks[i], destination.value) {
        return Some(Ru);
      }
    }
    verdict := Some(Foreign);
  }

  // ---------------------------------------------------------------- prefix bits

  lemma {:induction false} HalvedOnce(value: nat, n: nat)
    ensures Halved(value, n) == 2 * Halved(value, n + 1) + Halved(value, n) % 2
  {
    if n > 0 {
      HalvedOnce(value / 2, n - 1);
    }
  }

  lemma {:induction false} HalvedAway(value: nat, n: nat)
    requires value < Pow2(n)
    ensures Halved(value, n) == 0
  {
    if n > 0 {
      HalvedAway(value / 2, n - 1);
    }
  }

  lemma {:induction false} ClearedIsHalved(a: nat, b: nat, host: nat)
    ensures Cleared(a, host) == Cleared(b, host) <==> Halved(a, host) == Halved(b, host)
  {
    if host > 0 {
      ClearedIsHalved(a / 2, b / 2, host - 1);
    }
  }

  /** Values agree above the host bits iff their first `prefix` bits agree. */
  lemma {:induction false} SamePrefixBits(width: nat, a: nat, b: nat, prefix: nat)
    requires prefix <= width && a < Pow2(width) && b < Pow2(width)
    ensures Cleared(a, width - prefix) == Cleared(b, width - prefix) <==>
            forall i: nat | i < prefix :: Bit(width, a, i) == Bit(width, b, i)
  {
    hide Pow2, Cleared, Halved;
    ClearedIsHalved(a, b, width - prefix);
    if prefix == 0 {
      HalvedAway(a, width);
      HalvedAway(b, width);
    } else {
      SamePrefixBits(width, a, b, prefix - 1);
      ClearedIsHalved(a, b, width - prefix + 1);
      HalvedOnce(a, width - prefix);
      HalvedOnce(b, width - prefix);
      assert Bit(width, a, prefix - 1) == Halved(a, width - prefix) % 2;
      assert Bit(width, b, prefix - 1) == Halved(b, width - prefix) % 2;
    }
  }

  lemma {:induction false} Pow2Byte(n: nat)
    ensures Pow2(n + 8) == 256 * Pow2(n)
  {
    assert Pow2(n + 2) == 2 * Pow2(n + 1);
    assert Pow2(n + 4) == 4 * Pow2(n + 2) by { assert Pow2(n + 4) == 2 * Pow2(n + 3); }
    assert Pow2(n + 6) == 4 * Pow2(n + 4) by { assert Pow2(n + 6) == 2 * Pow2(n + 5); }
    assert Pow2(n + 8) == 4 * Pow2(n + 6) by { assert Pow2(n + 8) == 2 * Pow2(n + 7); }
  }

  lemma {:induction false} BigEndianBound(bytes: seq<byte>)
    ensures BigEndian(bytes) < Pow2(8 * |bytes|)
  {
    if bytes != [] {
      BigEndianBound(bytes[..|bytes| - 1]);
      Pow2Byte(8 * (|bytes| - 1));
    }
  }

  // ---------------------------------------------------------------- network byte order

  /** Bit `i` of a byte, counted from the most significant one. */
  function ByteBit(b: byte, i: nat): nat
    requires i < 8
  {
    b / [128, 64, 32, 16, 8, 4, 2, 1][i] % 2
  }

  lemma {:induction false} HalvedTwice(value: nat, n: nat, m: nat)
    ensures Halved(value, n + m) == Halved(Halved(value, n), m)
  {
    if n > 0 {
      HalvedTwice(value / 2, n - 1, m);
    }
  }

  lemma {:induction false} ByteHalves(b: byte)
    ensures Halved(b, 1) == b / 2 && Halved(b, 2) == b / 4 && Halved(b, 3) == b / 8 && Halved(b, 4) == b / 16
    ensures Halved(b, 5) == b / 32 && Halved(b, 6) == b / 64 && Halved(b, 7) == b / 128
  {
    HalvedTwice(b, 1, 1);
    HalvedTwice(b, 2, 1);
    HalvedTwice(b, 3, 1);
    HalvedTwice(b, 4, 1);
    HalvedTwice(b, 5, 1);
    HalvedTwice(b, 6, 1);
  }

  lemma {:induction false} ByteBits(b: byte, i: nat)
    requires i < 8
    ensures Halved(b, 7 - i) % 2 == ByteBit(b, i)
  {
    ByteHalves(b);
  }

  function Shifted(value: nat, n: nat): nat {
    if n == 0 then value else 2 * Shifted(value, n - 1)
  }

  lemma {:induction false} ShiftedOnce(value: nat, n: nat)
    ensures Shifted(value, n + 1) == 2 * Shifted(value, n)
  {
  }

  lemma {:induction false} ShiftedByte(value: nat)
    ensures Shifted(value, 8) == 256 * value
  {
    ShiftedOnce(value, 0);
    ShiftedOnce(value, 1);
    ShiftedOnce(value, 2);
    ShiftedOnce(value, 3);
    ShiftedOnce(value, 4);
    ShiftedOnce(value, 5);
    ShiftedOnce(value, 6);
    ShiftedOnce(value, 7);
  }

  /** The low bits of a sum are those of its low part. */
  lemma {:induction false} HalvedSum(high: nat, low: nat, k: nat, r: nat)
    ensures Halved(Shifted(high, k + r) + low, k) == Shifted(high, r) + Halved(low, k)
  {
    if k > 0 {
      HalvedSum(high, low / 2, k - 1, r);
      assert (Shifted(high, k + r) + low) / 2 == Shifted(high, k - 1 + r) + low / 2;
    }
  }

  lemma {:induction false} EvenRest(x: nat, rest: nat)
    ensures (2 * x + rest) % 2 == rest % 2
  {
  }

  lemma {:induction false} LowByte(high: nat, b: byte, k: nat)
    requires k <= 7
    ensures Halved(256 * high + b, k) % 2 == Halved(b, k) % 2
  {
    hide Halved, Shifted;
    ShiftedByte(high);
    HalvedSum(high, b, k, 8 - k);
    ShiftedOnce(high, 7 - k);
    EvenRest(Shifted(high, 7 - k), Halved(b, k));
  }

  lemma {:induction false} HighBytes(high: nat, b: byte)
    ensures Halved(256 * high + b, 8) == high
  {
    assert Shifted(high, 0) == high;
    assert Pow2(8) == 256 by { Pow2Byte(0); }
    hide Halved, Shifted, Pow2;
    ShiftedByte(high);
    HalvedSum(high, b, 8, 0);
    HalvedAway(b, 8);
  }

  /** A value read in network byte order has the bits of its bytes, one byte after the other. */
  lemma {:induction false} NetworkByteOrder(bytes: seq<byte>, i: nat)
    requires i < 8 * |bytes|
    ensures Bit(8 * |bytes|, BigEndian(bytes), i) == ByteBit(bytes[i / 8], i % 8)
    decreases |bytes|
  {
    hide Halved, ByteBit;
    var init, last := bytes[..|bytes| - 1], bytes[|bytes| - 1];
    var k := 8 * |bytes| - 1 - i;
    if k < 8 {
      LowByte(BigEndian(init), last, k);
      ByteBits(last, 7 - k);
    } else {
      HalvedTwice(BigEndian(bytes), 8, k - 8);
      HighBytes(BigEndian(init), last);
      NetworkByteOrder(init, i);
    }
  }

  lemma {:induction false} ClearedBits(value: nat, host: nat, k: nat)
    ensures k >= host ==> Halved(Cleared(value, host), k) == Halved(value, k)
    ensures k < host ==> Halved(Cleared(value, host), k) % 2 == 0
  {
    if host > 0 {
      var rest := Cleared(value / 2, host - 1);
      assert Cleared(value, host) == 2 * rest;
      if k > 0 {
        hide Cleared;
        ClearedBits(value / 2, host - 1, k - 1);
        assert Halved(2 * rest, k) == Halved(rest, k - 1);
      }
    }
  }

  /** Bit by bit: the leading bits of the address bytes, then zeros. */
  ghost predicate NetworkBits(network: Network, packed: seq<byte>) {
    && network.width == 8 * |packed| && network.prefix <= network.width
    && forall i: nat | i < network.width ::
         Bit(network.width, network.value, i) == if i < network.prefix then ByteBit(packed[i / 8], i % 8) else 0
  }

  lemma {:induction false} MadeBits(packed: seq<byte>, prefix: nat)
    ensures MakeNetwork(Some(packed), Some(prefix)).Some? <==> (|packed| == 4 || |packed| == 16) && prefix <= 8 * |packed|
    ensures MakeNetwork(Some(packed), Some(prefix)).Some? ==>
              var network := MakeNetwork(Some(packed), Some(prefix)).value;
              network.prefix == prefix && NetworkBits(network, packed)
  {
    hide Halved, Cleared, BigEndian, ByteBit;
    var width := 8 * |packed|;
    if prefix <= width {
      var value := Cleared(BigEndian(packed), width - prefix);
      forall i: nat | i < width
        ensures Bit(width, value, i) == if i < prefix then ByteBit(packed[i / 8], i % 8) else 0
      {
        ClearedBits(BigEndian(packed), width - prefix, width - 1 - i);
        NetworkByteOrder(packed, i);
      }
    }
  }
}
