/**
 Whole datasets, written the way a proto3 encoder writes V2Ray's GeoIPList: fields in order,
 default values omitted.  What the parser makes of every such file, and how its networks
 classify every address.
 */
module GeoIpDataset {
  import opened Wrappers
  import opened ProtobufWire
  import opened Utf8
  import opened GeoIp

  datatype Range = Range(packed: seq<byte>, prefix: nat)

  datatype Group = Group(country: seq<byte>, inverse: bool, ranges: seq<Range>)

  // ---------------------------------------------------------------- encoding

  function PayloadField(number: nat, bytes: seq<byte>): seq<Field> {
    if bytes == [] then [] else [Field(number, Payload(bytes))]
  }

  function NumberField(number: nat, value: nat): seq<Field> {
    if value == 0 then [] else [Field(number, Number(value))]
  }

  function RangeFields(range: Range): seq<Field> {
    PayloadField(1, range.packed) + NumberField(2, range.prefix)
  }

  function RangesFields(ranges: seq<Range>): seq<Field> {
    seq(|ranges|, i requires 0 <= i < |ranges| => Field(2, Payload(Encode(RangeFields(ranges[i])))))
  }

  function GroupFields(group: Group): seq<Field> {
    PayloadField(1, group.country) + RangesFields(group.ranges) + NumberField(3, if group.inverse then 1 else 0)
  }

  function DatasetFields(groups: seq<Group>): seq<Field> {
    seq(|groups|, i requires 0 <= i < |groups| => Field(1, Payload(Encode(GroupFields(groups[i])))))
  }

  function EncodeDataset(groups: seq<Group>): seq<byte> {
    Encode(DatasetFields(groups))
  }

  /** Every length and number fits a varint. */
  ghost predicate Fits(fields: seq<Field>) {
    forall i | 0 <= i < |fields| :: Encodable(fields[i])
  }

  ghost predicate Sized(groups: seq<Group>) {
    && Fits(DatasetFields(groups))
    && (forall i | 0 <= i < |groups| :: Fits(GroupFields(groups[i])))
    && (forall i, j | 0 <= i < |groups| && 0 <= j < |groups[i].ranges| :: Fits(RangeFields(groups[i].ranges[j])))
  }

  // ---------------------------------------------------------------- meaning

  /** A range the parser accepts.  An encoder omits a zero prefix, so a /0 range is unreadable. */
  predicate Readable(range: Range) {
    (|range.packed| == 4 || |range.packed| == 16) && 0 < range.prefix <= 8 * |range.packed|
  }

  predicate AllReadable(ranges: seq<Range>) {
    forall i | 0 <= i < |ranges| :: Readable(ranges[i])
  }

  function NetworkOf(range: Range): Network
    requires Readable(range)
  {
    var width := 8 * |range.packed|;
    Network(width, Cleared(BigEndian(range.packed), width - range.prefix), range.prefix)
  }

  function NetworksOf(ranges: seq<Range>): seq<Network>
    requires AllReadable(ranges)
  {
    seq(|ranges|, i requires 0 <= i < |ranges| => NetworkOf(ranges[i]))
  }

  predicate ReadableGroup(group: Group) {
    ValidUtf8(group.country) && AllReadable(group.ranges)
  }

  /** The four ways of writing the country in ASCII. */
  predicate Russian(country: seq<byte>) {
    country in {[0x52, 0x55], [0x52, 0x75], [0x72, 0x55], [0x72, 0x75]}
  }

  /** A group that does not stop the dataset from loading. */
  predicate Acceptable(group: Group) {
    ReadableGroup(group) && !(Russian(group.country) && group.inverse)
  }

  predicate AllAcceptable(groups: seq<Group>) {
    forall i | 0 <= i < |groups| :: Acceptable(groups[i])
  }

  /** The networks of the domestic groups, in order. */
  function DomesticNetworks(groups: seq<Group>): seq<Network>
    requires AllAcceptable(groups)
  {
    if groups == [] then []
    else
      var last := groups[|groups| - 1];
      DomesticNetworks(groups[..|groups| - 1]) + if Russian(last.country) then NetworksOf(last.ranges) else []
  }

  // ---------------------------------------------------------------- one range

  lemma {:induction false} RangeRead(range: Range)
    requires Fits(RangeFields(range))
    ensures Cidr(Encode(RangeFields(range))) == if Readable(range) then Some(NetworkOf(range)) else None
  {
    hide Encodable, BigEndian, Cleared, Encode, Fields;
    FieldsRoundTrip(RangeFields(range));
    var fields := RangeFields(range);
    assert LastPayload([], 1) == None && LastNumber([], 2) == None;
    if range.packed != [] {
      var first := Field(1, Payload(range.packed));
      assert [first][..0] == [];
      assert LastPayload([first], 1) == Some(range.packed) && LastNumber([first], 2) == None;
    }
    if range.prefix != 0 {
      assert fields[..|fields| - 1] == PayloadField(1, range.packed);
    } else {
      assert fields == PayloadField(1, range.packed);
    }
    assert LastPayload(fields, 1) == if range.packed == [] then None else Some(range.packed);
    assert LastNumber(fields, 2) == if range.prefix == 0 then None else Some(range.prefix);
  }

  /** What is loaded for a range has the bits of its packed bytes up to the prefix, and no others. */
  lemma {:induction false} RangeBits(range: Range)
    requires Readable(range)
    ensures NetworkBits(NetworkOf(range), range.packed) && NetworkOf(range).prefix == range.prefix
  {
    hide NetworkBits, Cleared, BigEndian;
    MadeBits(range.packed, range.prefix);
  }

  // ---------------------------------------------------------------- one group

  function CountryEntry(group: Group): Option<Entry> {
    if ValidUtf8(group.country) then Some(Entry(group.country, false, [])) else None
  }

  lemma {:induction false} CountryRead(group: Group)
    ensures EntryOf(PayloadField(1, group.country)) == CountryEntry(group)
  {
    hide Cidr;
    assert EntryOf([]) == Some(Entry([], false, []));
    if group.country != [] {
      var fields := PayloadField(1, group.country);
      assert fields[..0] == [];
    }
  }

  function RangesEntry(group: Group, ranges: seq<Range>): Option<Entry> {
    if ValidUtf8(group.country) && AllReadable(ranges)
    then Some(Entry(group.country, false, NetworksOf(ranges)))
    else None
  }

  lemma {:induction false} RangesRead(group: Group, ranges: seq<Range>)
    requires forall i | 0 <= i < |ranges| :: Fits(RangeFields(ranges[i]))
    ensures EntryOf(PayloadField(1, group.country) + RangesFields(ranges)) == RangesEntry(group, ranges)
    decreases |ranges|
  {
    hide Cidr, Fits, NetworkOf, ValidUtf8, Readable, RangeFields;
    var fields := PayloadField(1, group.country) + RangesFields(ranges);
    if ranges == [] {
      CountryRead(group);
      assert fields == PayloadField(1, group.country);
      assert NetworksOf(ranges) == [];
    } else {
      hide RangesEntry, PayloadField, RangesFields, Encode;
      var init, last := ranges[..|ranges| - 1], ranges[|ranges| - 1];
      RangesRead(group, init);
      RangeRead(last);
      LastRange(group, ranges);
      RangesEntryStep(group, ranges);
    }
  }

  lemma {:induction false} LastRange(group: Group, ranges: seq<Range>)
    requires ranges != []
    ensures var fields := PayloadField(1, group.country) + RangesFields(ranges);
            && fields != []
            && fields[..|fields| - 1] == PayloadField(1, group.country) + RangesFields(ranges[..|ranges| - 1])
            && fields[|fields| - 1] == Field(2, Payload(Encode(RangeFields(ranges[|ranges| - 1]))))
  {
    hide PayloadField, Encode, RangeFields;
  }

  lemma {:induction false} RangesEntryStep(group: Group, ranges: seq<Range>)
    requires ranges != []
    ensures RangesEntry(group, ranges) ==
            match RangesEntry(group, ranges[..|ranges| - 1])
            case None => None
            case Some(entry) =>
              if Readable(ranges[|ranges| - 1])
              then Some(entry.(networks := entry.networks + [NetworkOf(ranges[|ranges| - 1])]))
              else None
  {
    hide Readable, NetworkOf, ValidUtf8;
    var init, last := ranges[..|ranges| - 1], ranges[|ranges| - 1];
    AllReadableStep(ranges);
    if AllReadable(ranges) {
      assert NetworksOf(ranges) == NetworksOf(init) + [NetworkOf(last)];
    }
  }

  lemma {:induction false} AllReadableStep(ranges: seq<Range>)
    requires ranges != []
    ensures AllReadable(ranges) <==> AllReadable(ranges[..|ranges| - 1]) && Readable(ranges[|ranges| - 1])
  {
    hide Readable;
    var init, last := ranges[..|ranges| - 1], ranges[|ranges| - 1];
    if AllReadable(init) && Readable(last) {
      forall i | 0 <= i < |ranges| ensures Readable(ranges[i]) {
        assert ranges[i] == if i < |init| then init[i] else last;
      }
    }
    if AllReadable(ranges) {
      forall i | 0 <= i < |init| ensures Readable(init[i]) {
        assert init[i] == ranges[i];
      }
    }
  }

  lemma {:induction false} GroupRead(group: Group)
    requires Fits(GroupFields(group))
    requires forall i | 0 <= i < |group.ranges| :: Fits(RangeFields(group.ranges[i]))
    ensures Country(Encode(GroupFields(group)))
            == if ReadableGroup(group) then Some(Entry(group.country, group.inverse, NetworksOf(group.ranges))) else None
  {
    hide Encodable, Encode, Fields, Cidr, RangeFields, NetworkOf, Readable, ValidUtf8;
    FieldsRoundTrip(GroupFields(group));
    RangesRead(group, group.ranges);
    var before := PayloadField(1, group.country) + RangesFields(group.ranges);
    var fields := GroupFields(group);
    if group.inverse {
      assert fields[..|fields| - 1] == before;
    } else {
      assert fields == before;
    }
  }

  // ---------------------------------------------------------------- the dataset

  lemma {:induction false} DomesticSpelled(country: seq<byte>)
    ensures Domestic(country) <==> Russian(country)
  {
    assert Domestic(country) ==> country == [country[0], country[1]];
  }

  lemma {:induction false} GroupsRead(groups: seq<Group>)
    requires forall i | 0 <= i < |groups| :: Fits(GroupFields(groups[i]))
    requires forall i, j | 0 <= i < |groups| && 0 <= j < |groups[i].ranges| :: Fits(RangeFields(groups[i].ranges[j]))
    ensures FoundIn(DatasetFields(groups)).Some? <==> AllAcceptable(groups)
    ensures AllAcceptable(groups) ==>
              && FoundIn(DatasetFields(groups)).value.networks == DomesticNetworks(groups)
              && (DomesticNetworks(groups) != [] ==> FoundIn(DatasetFields(groups)).value.found)
  {
    hide Fits, Encode, Country, GroupFields, RangeFields, ReadableGroup, Domestic, Russian, NetworksOf;
    if groups != [] {
      var init, last := groups[..|groups| - 1], groups[|groups| - 1];
      GroupsRead(init);
      GroupRead(last);
      DomesticSpelled(last.country);
      assert DatasetFields(groups)[..|groups| - 1] == DatasetFields(init);
      AllAcceptableStep(groups);
    }
  }

  lemma {:induction false} AllAcceptableStep(groups: seq<Group>)
    requires groups != []
    ensures AllAcceptable(groups) <==> AllAcceptable(groups[..|groups| - 1]) && Acceptable(groups[|groups| - 1])
  {
    hide Acceptable;
    var init, last := groups[..|groups| - 1], groups[|groups| - 1];
    if AllAcceptable(init) && Acceptable(last) {
      forall i | 0 <= i < |groups| ensures Acceptable(groups[i]) {
        assert groups[i] == if i < |init| then init[i] else last;
      }
    }
    if AllAcceptable(groups) {
      forall i | 0 <= i < |init| ensures Acceptable(init[i]) {
        assert init[i] == groups[i];
      }
    }
  }

  /**
   The end-to-end round trip: an encoded dataset loads as exactly the networks of its domestic
   groups, in order and with host bits cleared.  It is refused iff some group is unreadable, a
   domestic group is inverse, or there is no domestic network at all.
   */
  lemma {:induction false} DatasetRoundTrip(groups: seq<Group>)
    requires Sized(groups)
    ensures Dataset(EncodeDataset(groups)) ==
            if AllAcceptable(groups) && DomesticNetworks(groups) != [] then Some(DomesticNetworks(groups)) else None
  {
    hide Encodable, Fields, Encode, FoundIn, DomesticNetworks, AllAcceptable;
    FieldsRoundTrip(DatasetFields(groups));
    GroupsRead(groups);
  }

  // ---------------------------------------------------------------- classification

  /** `address` is of the range's family and has its first `prefix` bits. */
  ghost predicate SharesPrefix(range: Range, address: Address) {
    && Readable(range) && address.width == 8 * |range.packed|
    && forall i: nat | i < range.prefix :: Bit(address.width, address.value, i) == ByteBit(range.packed[i / 8], i % 8)
  }

  lemma {:induction false} ContainsIsSharing(range: Range, address: Address)
    requires Readable(range) && address.value < Pow2(address.width)
    ensures Contains(NetworkOf(range), address) <==> SharesPrefix(range, address)
  {
    hide Pow2, Cleared, Halved, BigEndian, Bit, ByteBit;
    if address.width == 8 * |range.packed| {
      BigEndianBound(range.packed);
      forall i: nat | i < range.prefix
        ensures Bit(address.width, BigEndian(range.packed), i) == ByteBit(range.packed[i / 8], i % 8)
      {
        NetworkByteOrder(range.packed, i);
      }
      SamePrefixBits(address.width, address.value, BigEndian(range.packed), range.prefix);
    }
  }

  /** Some domestic group has a range sharing its prefix with the address. */
  ghost predicate InDomesticRange(groups: seq<Group>, address: Address) {
    exists i, j :: 0 <= i < |groups| && 0 <= j < |groups[i].ranges|
                   && Russian(groups[i].country) && SharesPrefix(groups[i].ranges[j], address)
  }

  ghost predicate ContainedIn(networks: seq<Network>, address: Address) {
    exists k :: 0 <= k < |networks| && Contains(networks[k], address)
  }

  lemma {:induction false} ContainedInRanges(ranges: seq<Range>, address: Address)
    requires AllReadable(ranges)
    requires address.value < Pow2(address.width)
    ensures ContainedIn(NetworksOf(ranges), address) <==> exists j :: 0 <= j < |ranges| && SharesPrefix(ranges[j], address)
  {
    hide Pow2, Readable, NetworkOf, Contains, SharesPrefix;
    forall j | 0 <= j < |ranges|
      ensures Contains(NetworksOf(ranges)[j], address) <==> SharesPrefix(ranges[j], address)
    {
      ContainsIsSharing(ranges[j], address);
    }
  }

  lemma {:induction false} ContainedInSum(a: seq<Network>, b: seq<Network>, address: Address)
    ensures ContainedIn(a + b, address) <==> ContainedIn(a, address) || ContainedIn(b, address)
  {
    hide Contains;
    if ContainedIn(a, address) {
      var k :| 0 <= k < |a| && Contains(a[k], address);
      assert Contains((a + b)[k], address);
    }
    if ContainedIn(b, address) {
      var k :| 0 <= k < |b| && Contains(b[k], address);
      assert Contains((a + b)[|a| + k], address);
    }
  }

  /** Of the networks loaded from a dataset, one contains the address iff a domestic range shares its prefix. */
  lemma {:induction false} ClassifiedByPrefix(groups: seq<Group>, address: Address)
    requires AllAcceptable(groups) && address.value < Pow2(address.width)
    ensures ContainedIn(DomesticNetworks(groups), address) <==> InDomesticRange(groups, address)
  {
    hide Pow2, ContainedIn, SharesPrefix, Readable, NetworksOf, Russian, ValidUtf8;
    if groups == [] {
      assert !ContainedIn([], address) by { NothingContained(address); }
    } else {
      var init, last := groups[..|groups| - 1], groups[|groups| - 1];
      ClassifiedByPrefix(init, address);
      ContainedInRanges(last.ranges, address);
      NothingContained(address);
      ContainedInSum(DomesticNetworks(init), if Russian(last.country) then NetworksOf(last.ranges) else [], address);
      InDomesticRangeStep(groups, address);
    }
  }

  lemma {:induction false} NothingContained(address: Address)
    ensures !ContainedIn([], address)
  {
  }

  lemma {:induction false} InDomesticRangeStep(groups: seq<Group>, address: Address)
    requires groups != []
    ensures InDomesticRange(groups, address) <==>
            || InDomesticRange(groups[..|groups| - 1], address)
            || (var last := groups[|groups| - 1];
                Russian(last.country) && exists j :: 0 <= j < |last.ranges| && SharesPrefix(last.ranges[j], address))
  {
    hide Russian, SharesPrefix;
    var init, last := groups[..|groups| - 1], groups[|groups| - 1];
    if InDomesticRange(init, address) {
      var i, j :| 0 <= i < |init| && 0 <= j < |init[i].ranges| && Russian(init[i].country) && SharesPrefix(init[i].ranges[j], address);
      assert groups[i] == init[i];
    }
    if InDomesticRange(groups, address) {
      var i, j :| 0 <= i < |groups| && 0 <= j < |groups[i].ranges| && Russian(groups[i].country) && SharesPrefix(groups[i].ranges[j], address);
      assert groups[i] == if i < |init| then init[i] else last;
    }
  }

  /**
   From the bytes of a dataset to the verdict: an address is domestic iff it shares its prefix
   with a range of a domestic group, whenever the dataset is accepted at all.
   */
  lemma {:induction false} DatasetVerdict(groups: seq<Group>, address: Address)
    requires Sized(groups) && address.value < Pow2(address.width)
    ensures Dataset(EncodeDataset(groups)).Some? <==> AllAcceptable(groups) && DomesticNetworks(groups) != []
    ensures Dataset(EncodeDataset(groups)).Some? ==>
              Classified(Dataset(EncodeDataset(groups)).value, Some(address))
              == Some(if InDomesticRange(groups, address) then Ru else Verdict.Foreign)
  {
    hide Pow2, Dataset, EncodeDataset, AllAcceptable, DomesticNetworks, InDomesticRange, Contains, Sized;
    DatasetRoundTrip(groups);
    if Dataset(EncodeDataset(groups)).Some? {
      ClassifiedByPrefix(groups, address);
    }
  }
}
