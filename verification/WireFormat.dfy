/**
 Where a transmitted datagram carries what, in plain numbers: table 4-1 of ANSI E1.31-2018. A receiving node tells data
 packets by the two vectors, in bytes 18 to 21 and 40 to 43.
 */
module WireFormat {
  import opened Common
  import opened Pdu
  import opened SendBuffer

  /** The flags and the length of a PDU of `length` bytes, at `at`. */
  ghost predicate LengthAt(d: seq<byte>, at: nat, length: nat)
    requires at + 2 <= |d|
  {
    d[at] / 16 == 7 && d[at] as int % 16 * 256 + d[at + 1] == length
  }

  ghost predicate RootAsStandard(d: seq<byte>, cid: Cid)
    requires |d| >= 126
  {
    && d[..4] == [0x00, 0x10, 0x00, 0x00]
    && d[4..16] == [0x41, 0x53, 0x43, 0x2d, 0x45, 0x31, 0x2e, 0x31, 0x37, 0x00, 0x00, 0x00]
    && LengthAt(d, 16, |d| - 16)
    && d[18..22] == [0x00, 0x00, 0x00, 0x04]
    && d[22..38] == cid
  }

  /** At most 63 characters of the name, and zeros up to the end of its field. */
  ghost predicate NameAsStandard(d: seq<byte>, name: seq<byte>)
    requires |d| >= 126
  {
    forall i | 0 <= i < 64 :: d[44 + i] == if i < |name| && i < 63 then name[i] else 0
  }

  ghost predicate FramingAsStandard(d: seq<byte>, p: DataPacket)
    requires |d| >= 126
  {
    && LengthAt(d, 38, |d| - 38)
    && d[40..44] == [0x00, 0x00, 0x00, 0x02]
    && NameAsStandard(d, p.name)
    && d[108] == p.priority
    && d[109..111] == [0x00, 0x00]
    && d[111] == p.sequence
    && d[112] == (if p.preview then 128 else 0) + (if p.terminated then 64 else 0)
    && d[113] == p.universe / 256 && d[114] == p.universe % 256
  }

  ghost predicate DmpAsStandard(d: seq<byte>, p: DataPacket)
    requires |d| >= 126
  {
    && LengthAt(d, 115, |d| - 115)
    && d[117..123] == [0x02, 0xa1, 0x00, 0x00, 0x00, 0x01]
    && d[123] as int * 256 + d[124] == 1 + |p.slots|
    && d[125] == p.startCode
    && d[126..] == p.slots
  }

  lemma LengthIsPacked(length: nat)
    requires length < 4096
    ensures var l := FlagsAndLength(length);
      |l| == 2 && l[0] / 16 == 7 && l[0] as int % 16 * 256 + l[1] == length
  {
  }

  lemma RootIsStandard(root: seq<byte>, wire: seq<byte>, cid: Cid)
    requires 88 <= |wire| <= 600 && root == RootLayer(38 + |wire|, cid)
    ensures RootAsStandard(root + wire, cid)
  {
    var d := root + wire;
    assert d[..38] == root;
    LengthIsPacked(|d| - 16);
    assert d[16..18] == FlagsAndLength(|d| - 16);
    assert d[16] == d[16..18][0] && d[17] == d[16..18][1];
    assert d[18..22] == U32(4);
    assert d[22..38] == cid;
  }

  lemma NameIsStandard(d: seq<byte>, name: CString)
    requires |d| >= 126 && d[44..108] == NameField(name)
    ensures NameAsStandard(d, name)
  {
    assert forall i | 0 <= i < 64 :: d[44 + i] == d[44..108][i];
  }

  lemma FramingIsStandard(root: seq<byte>, framing: seq<byte>, rest: seq<byte>, p: DataPacket)
    requires |root| == 38 && |p.slots| <= 512 && |rest| == 11 + |p.slots| && framing == FramingOf(p)
    ensures FramingAsStandard(root + framing + rest, p)
  {
    var d := root + framing + rest;
    assert forall k | 0 <= k < 77 :: d[38 + k] == framing[k];
    LengthIsPacked(|d| - 38);
    assert framing[..2] == FlagsAndLength(|d| - 38);
    assert d[38] == framing[..2][0] && d[39] == framing[..2][1];
    FramingFields(|p.slots|, p.name, p.priority, p.sequence, p.preview, p.terminated, p.universe);
    assert d[40..44] == framing[2..6];
    assert d[44..108] == framing[6..70];
    NameIsStandard(d, p.name);
    assert d[113] == framing[75..77][0] && d[114] == framing[75..77][1];
  }

  lemma DmpIsStandard(front: seq<byte>, dmp: seq<byte>, p: DataPacket)
    requires |front| == 115 && |p.slots| <= 512 && dmp == DmpLayerHeader(p.startCode, |p.slots|)
    ensures DmpAsStandard(front + dmp + p.slots, p)
  {
    var d := front + dmp + p.slots;
    assert forall k | 0 <= k < 11 :: d[115 + k] == dmp[k];
    LengthIsPacked(|d| - 115);
    assert dmp[..2] == FlagsAndLength(|d| - 115);
    assert d[115] == dmp[..2][0] && d[116] == dmp[..2][1];
    assert d[117..123] == dmp[2..8];
  }

  /** Every field of a datagram, its length, and nothing after its slots. */
  lemma DatagramFollowsStandard(cid: Cid, p: DataPacket)
    requires |p.slots| <= 512
    ensures var d := Datagram(cid, p);
      |d| == 126 + |p.slots| && RootAsStandard(d, cid) && FramingAsStandard(d, p) && DmpAsStandard(d, p)
  {
    var root, framing, dmp := RootLayer(38 + |Wire(p)|, cid), FramingOf(p), DmpLayerHeader(p.startCode, |p.slots|);
    assert Wire(p) == framing + dmp + p.slots;
    RootIsStandard(root, Wire(p), cid);
    FramingIsStandard(root, framing, dmp + p.slots, p);
    DmpIsStandard(root + framing, dmp, p);
    assert Datagram(cid, p) == root + framing + (dmp + p.slots) == root + framing + dmp + p.slots;
  }

  // ---- Reading packets of any sender ----

  /** What a sender may put into a data packet, from the framing layer on, besides what has to be there. */
  datatype Sent = Sent(
    lengths: (word, word),         // flags and length of the framing layer and of the DMP layer
    name: seq<byte>,
    priority: byte,
    syncAddress: word,
    sequence: byte,
    options: byte,
    universe: word,
    startCode: byte,
    slots: seq<byte>)

  /** Table 4-1 from byte 38 on. */
  function Image(p: Sent): (s: seq<byte>)
    requires |p.name| == 64 && |p.slots| < 65535
    ensures |s| == 88 + |p.slots|
  {
    [p.lengths.0 / 256, p.lengths.0 % 256, 0x00, 0x00, 0x00, 0x02] + p.name
    + [p.priority, p.syncAddress / 256, p.syncAddress % 256, p.sequence, p.options, p.universe / 256, p.universe % 256]
    + [p.lengths.1 / 256, p.lengths.1 % 256, 0x02, 0xa1, 0x00, 0x00, 0x00, 0x01,
       (1 + |p.slots|) / 256, (1 + |p.slots|) % 256, p.startCode]
    + p.slots
  }

  lemma ImageFields(p: Sent, extra: seq<byte>)
    requires |p.name| == 64 && |p.slots| < 65535
    ensures var s := Image(p) + extra;
      && FixedValues(s) && AddressCount(s) == |p.slots|
      && s[6..69] == p.name[..63] && s[70] == p.priority
      && s[71] as int * 256 + s[72] == p.syncAddress && s[73] == p.sequence && s[74] == p.options
      && s[75] as int * 256 + s[76] == p.universe && s[87] == p.startCode && s[88..88 + |p.slots|] == p.slots
  {
    var s := Image(p) + extra;
    var head := [p.lengths.0 / 256, p.lengths.0 % 256, 0x00, 0x00, 0x00, 0x02];
    var middle :=
      [p.priority, p.syncAddress / 256, p.syncAddress % 256, p.sequence, p.options, p.universe / 256, p.universe % 256];
    var dmp := [p.lengths.1 / 256, p.lengths.1 % 256, 0x02, 0xa1, 0x00, 0x00, 0x00, 0x01,
                (1 + |p.slots|) / 256, (1 + |p.slots|) % 256, p.startCode];
    assert s == head + p.name + middle + dmp + p.slots + extra;
    assert s[..6] == head && s[6..70] == p.name && s[70..77] == middle && s[77..88] == dmp;
    assert forall k | 0 <= k < 6 :: s[k] == s[..6][k];
    assert forall k | 70 <= k < 77 :: s[k] == s[70..77][k - 70];
    assert forall k | 77 <= k < 88 :: s[k] == s[77..88][k - 77];
    assert s[6..69] == s[6..70][..63];
  }

  /** A packet of any sender is read field by field: the name up to its end, the options as two of the bits. */
  lemma EveryPacketIsRead(p: Sent, extra: seq<byte>)
    requires |p.name| == 64 && |p.slots| < 65535
    ensures var s := Image(p) + extra;
      && Parse(s).Some? && SlotData(s) == p.slots
      && var r := Parse(s).value;
         && r.name == StringAt(p.name[..63]) && r.priority == p.priority && r.syncUniverse == p.syncAddress
         && r.sequence == p.sequence && r.options == p.options && r.universe == p.universe
         && r.startCode == p.startCode && r.addressCount == |p.slots|
         && (r.preview <==> p.options >= 128) && (r.terminated <==> p.options % 128 >= 64)
  {
    ImageFields(p, extra);
  }

  /** Refused is exactly what is too short for its header or for its slots, or differs in one of the fixed values. */
  lemma AcceptedIff(s: seq<byte>)
    ensures Parse(s).Some? <==>
      && |s| >= 88 && s[2..6] == [0x00, 0x00, 0x00, 0x02] && s[79..85] == [0x02, 0xa1, 0x00, 0x00, 0x00, 0x01]
      && |s| >= 87 + s[85] as int * 256 + s[86]
  {
    if |s| >= 88 {
      assert s[2..6] == [s[2], s[3], s[4], s[5]];
      assert s[79..85] == [s[79], s[80], s[81], s[82], s[83], s[84]];
      assert [s[2], s[3], s[4], s[5]] == [0x00, 0x00, 0x00, 0x02] <==> s[2] == s[3] == s[4] == 0 && s[5] == 2;
    }
  }
}
