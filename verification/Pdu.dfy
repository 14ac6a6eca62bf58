/**
 The data packet on the wire, most of it from the framing layer on: packing, editing a prepared buffer in place,
 and parsing. Sections 6.2 and 7 of ANSI E1.31-2018.
 */
module Pdu {
  import opened Common

  const VECTOR_DATA_PACKET: nat := 2
  const NAME_MAX: nat := 64
  const CID_SIZE: nat := 16
  const PREAMBLE_SIZE: nat := 16
  const ROOT_SIZE: nat := 38
  const VECTOR_ROOT_DATA: nat := 4
  const DMP_OFFSET: nat := 77
  const HEADER_SIZE: nat := 88

  type word = v: int | 0 <= v < 0x10000

  /** A C string: its characters, without the terminator. */
  type CString = s: seq<byte> | forall i | 0 <= i < |s| :: s[i] != 0

  function U16(v: word): seq<byte> {
    [v / 256, v % 256]
  }

  function U32(v: nat): seq<byte>
    requires v < 0x1_0000_0000
  {
    [v / 0x100_0000, v / 0x1_0000 % 256, v / 256 % 256, v % 256]
  }

  function FromU16(high: byte, low: byte): word {
    high * 256 + low
  }

  /** The three flags, and the low twelve bits of a length. */
  function FlagsAndLength(length: nat): seq<byte> {
    [0x70 + length / 256 % 16, length % 256]
  }

  function PduLength(high: byte, low: byte): nat {
    var flagsAndLength: int := high;
    flagsAndLength % 16 * 256 + low
  }

  /** Preamble and postamble sizes, and the packet identifier "ASC-E1.17"; section 5 of ANSI E1.31-2018. */
  const PREAMBLE: seq<byte> := [0, 16, 0, 0, 0x41, 0x53, 0x43, 0x2d, 0x45, 0x31, 0x2e, 0x31, 0x37, 0, 0, 0]

  type Cid = s: seq<byte> | |s| == CID_SIZE witness seq(CID_SIZE, i => 0)

  /** What precedes the framing layer of a packet of `length` bytes in all. */
  function RootLayer(length: nat, cid: Cid): (r: seq<byte>)
    requires length >= PREAMBLE_SIZE
    ensures |r| == ROOT_SIZE
  {
    PREAMBLE + FlagsAndLength(length - PREAMBLE_SIZE) + U32(VECTOR_ROOT_DATA) + cid
  }

  /** The name is cut to 63 characters and padded with zeros to 64. */
  function NameField(name: CString): (r: seq<byte>)
    ensures |r| == NAME_MAX
  {
    seq(NAME_MAX, i requires 0 <= i < NAME_MAX => if i < NAME_MAX - 1 && i < |name| then name[i] else 0)
  }

  function Options(preview: bool, terminated: bool): byte {
    (if preview then 0x80 else 0) + (if terminated then 0x40 else 0)
  }

  function FramingLayer(slotCount: word, vector: nat, name: CString, priority: byte, sequence: byte,
                        preview: bool, terminated: bool, universe: word): (r: seq<byte>)
    requires vector < 0x1_0000_0000
    ensures |r| == DMP_OFFSET
  {
    FlagsAndLength(HEADER_SIZE + slotCount) + U32(vector) + NameField(name)
    + [priority, 0, 0, sequence, Options(preview, terminated)] + U16(universe)
  }

  /** The count includes the start code, and wraps at 16 bits. */
  function DmpLayerHeader(startCode: byte, slotCount: word): (r: seq<byte>)
    ensures |r| == HEADER_SIZE - DMP_OFFSET
  {
    FlagsAndLength(HEADER_SIZE - DMP_OFFSET + slotCount) + [0x02, 0xa1, 0, 0, 0, 1]
    + U16((slotCount + 1) % 0x10000) + [startCode]
  }

  datatype DataPacket = DataPacket(
    name: CString,
    priority: byte,
    sequence: byte,
    preview: bool,
    terminated: bool,
    universe: word,
    startCode: byte,
    slots: seq<byte>)

  function Wire(p: DataPacket): (r: seq<byte>)
    requires |p.slots| < 0x10000
    ensures |r| == HEADER_SIZE + |p.slots|
  {
    FramingLayer(|p.slots|, VECTOR_DATA_PACKET, p.name, p.priority, p.sequence, p.preview, p.terminated, p.universe)
    + DmpLayerHeader(p.startCode, |p.slots|) + p.slots
  }

  // ---- Parsing ----

  /** What parsing fills in; `addressCount` is a C int and may be -1. */
  datatype Parsed = Parsed(
    name: seq<byte>,
    priority: byte,
    syncUniverse: word,
    sequence: byte,
    options: byte,
    preview: bool,
    terminated: bool,
    universe: word,
    startCode: byte,
    addressCount: int)

  /** The C string that starts a buffer. */
  function StringAt(s: seq<byte>): (r: seq<byte>)
    ensures |r| <= |s| && r == s[..|r|] && forall i | 0 <= i < |r| :: r[i] != 0
    ensures |r| < |s| ==> s[|r|] == 0
  {
    if s == [] || s[0] == 0 then [] else [s[0]] + StringAt(s[1..])
  }

  /** The fixed values of the two layers. */
  predicate FixedValues(s: seq<byte>)
    requires |s| >= HEADER_SIZE
  {
    && s[2] == 0 && s[3] == 0 && s[4] == 0 && s[5] == VECTOR_DATA_PACKET
    && s[79] == 0x02 && s[80] == 0xa1 && s[81] == 0 && s[82] == 0 && s[83] == 0 && s[84] == 1
  }

  function AddressCount(s: seq<byte>): int
    requires |s| >= HEADER_SIZE
  {
    FromU16(s[85], s[86]) - 1
  }

  function Parse(s: seq<byte>): Option<Parsed> {
    if |s| < HEADER_SIZE || !FixedValues(s) || HEADER_SIZE + AddressCount(s) > |s| then None
    else Some(Parsed(StringAt(s[6..6 + NAME_MAX - 1]), s[70], FromU16(s[71], s[72]), s[73], s[74], s[74] / 128 % 2 == 1,
                     s[74] / 64 % 2 == 1, FromU16(s[75], s[76]), s[87], AddressCount(s)))
  }

  /** The slot data of a packet that was parsed. */
  function SlotData(s: seq<byte>): seq<byte>
    requires Parse(s).Some?
  {
    var count := Parse(s).value.addressCount;
    if count < 0 then [] else s[HEADER_SIZE..HEADER_SIZE + count]
  }

  /** The buffer copy of a name stops at its terminator, and the last byte is one in any case. */
  method ParseName(buf: array<byte>) returns (name: seq<byte>)
    requires buf.Length >= HEADER_SIZE
    ensures name == StringAt(buf[6..6 + NAME_MAX - 1])
  {
    var i := 0;
    while i < NAME_MAX - 1 && buf[6 + i] != 0
      invariant i <= NAME_MAX - 1 && forall k | 6 <= k < 6 + i :: buf[k] != 0
    {
      i := i + 1;
    }
    name := buf[6..6 + i];
    ghost var field := buf[6..6 + NAME_MAX - 1];
    assert field[..i] == name;
    StringIsUnique(field, i);
  }

  lemma {:induction false} StringIsUnique(s: seq<byte>, i: nat)
    requires i <= |s| && (forall k | 0 <= k < i :: s[k] != 0) && (i < |s| ==> s[i] == 0)
    ensures StringAt(s) == s[..i]
  {
    if i > 0 {
      StringIsUnique(s[1..], i - 1);
      assert [s[0]] + s[1..][..i - 1] == s[..i];
    }
  }

  method ParseDataPacket(buf: array<byte>) returns (result: Option<Parsed>)
    ensures result == Parse(buf[..])
  {
    if buf.Length < HEADER_SIZE {
      return None;
    }
    ghost var s := buf[..];
    if buf[2] != 0 || buf[3] != 0 || buf[4] != 0 || buf[5] != 2 {
      return None;
    }
    if buf[79] != 0x02 || buf[80] != 0xa1 || buf[81] != 0 || buf[82] != 0 || buf[83] != 0 || buf[84] != 1 {
      return None;
    }
    var addressCount := FromU16(buf[85], buf[86]) - 1;
    if HEADER_SIZE + addressCount > buf.Length {
      return None;
    }
    var name := ParseName(buf);
    assert s[6..6 + NAME_MAX - 1] == buf[6..6 + NAME_MAX - 1];
    return Some(Parsed(name, buf[70], FromU16(buf[71], buf[72]), buf[73], buf[74], buf[74] / 128 % 2 == 1,
                       buf[74] / 64 % 2 == 1, FromU16(buf[75], buf[76]), buf[87], addressCount));
  }

  // ---- Round trip ----

  /** Where a buffer holds each field of a packet. */
  ghost predicate Carries(s: seq<byte>, p: DataPacket)
    requires |p.slots| < 0x10000
  {
    && |s| >= HEADER_SIZE + |p.slots|
    && FixedValues(s)
    && s[6..6 + NAME_MAX - 1] == NameField(p.name)[..NAME_MAX - 1]
    && s[70] == p.priority && s[71] == 0 && s[72] == 0 && s[73] == p.sequence
    && s[74] == Options(p.preview, p.terminated)
    && [s[75], s[76]] == U16(p.universe)
    && [s[85], s[86]] == U16((|p.slots| + 1) % 0x10000)
    && s[87] == p.startCode
    && s[HEADER_SIZE..HEADER_SIZE + |p.slots|] == p.slots
  }

  lemma FramingFields(slotCount: word, name: CString, priority: byte, sequence: byte, preview: bool,
          terminated: bool, universe: word)
    ensures var f := FramingLayer(slotCount, VECTOR_DATA_PACKET, name, priority, sequence, preview, terminated,
      universe);
      && f[2] == 0 && f[3] == 0 && f[4] == 0 && f[5] == VECTOR_DATA_PACKET
      && f[6..6 + NAME_MAX] == NameField(name)
      && f[70] == priority && f[71] == 0 && f[72] == 0 && f[73] == sequence
      && f[74] == Options(preview, terminated) && f[75..77] == U16(universe)
  {
  }

  lemma WireCarries(p: DataPacket, extra: seq<byte>)
    requires |p.slots| < 0x10000
    ensures Carries(Wire(p) + extra, p)
  {
    var f := FramingLayer(|p.slots|, VECTOR_DATA_PACKET, p.name, p.priority, p.sequence, p.preview, p.terminated,
      p.universe);
    var d := DmpLayerHeader(p.startCode, |p.slots|);
    FramingFields(|p.slots|, p.name, p.priority, p.sequence, p.preview, p.terminated, p.universe);
    LayersCarry(f, d, p, extra);
  }

  lemma LayersCarry(f: seq<byte>, d: seq<byte>, p: DataPacket, extra: seq<byte>)
    requires |p.slots| < 0x10000 && |f| == DMP_OFFSET && d == DmpLayerHeader(p.startCode, |p.slots|)
    requires f[2] == 0 && f[3] == 0 && f[4] == 0 && f[5] == VECTOR_DATA_PACKET
    requires f[6..6 + NAME_MAX] == NameField(p.name)
    requires f[70] == p.priority && f[71] == 0 && f[72] == 0 && f[73] == p.sequence
    requires f[74] == Options(p.preview, p.terminated) && f[75..77] == U16(p.universe)
    ensures Carries(f + d + p.slots + extra, p)
  {
    var s := f + d + p.slots + extra;
    assert forall k | 0 <= k < DMP_OFFSET :: s[k] == f[k];
    assert forall k | 0 <= k < |d| :: s[DMP_OFFSET + k] == d[k];
    assert s[6..6 + NAME_MAX - 1] == f[6..6 + NAME_MAX][..NAME_MAX - 1];
    assert [s[75], s[76]] == f[75..77];
    assert s[79] == d[2] && s[80] == d[3] && s[81] == d[4] && s[82] == d[5] && s[83] == d[6] && s[84] == d[7];
    assert s[85] == d[8] && s[86] == d[9] && s[87] == d[10];
    assert s[HEADER_SIZE..HEADER_SIZE + |p.slots|] == p.slots;
  }

  lemma NameSurvives(name: CString)
    ensures StringAt(NameField(name)[..NAME_MAX - 1]) == name[..Min(|name|, NAME_MAX - 1)]
  {
    var field, n := NameField(name)[..NAME_MAX - 1], Min(|name|, NAME_MAX - 1);
    assert field[..n] == name[..n];
    StringIsUnique(field, n);
  }

  lemma OptionBits(preview: bool, terminated: bool)
    ensures Options(preview, terminated) / 128 % 2 == 1 <==> preview
    ensures Options(preview, terminated) / 64 % 2 == 1 <==> terminated
  {
  }

  lemma U16RoundTrip(v: word, high: byte, low: byte)
    requires [high, low] == U16(v)
    ensures FromU16(high, low) == v
  {
    assert [high, low][0] == v / 256 && [high, low][1] == v % 256;
  }

  /** Every field of a packed packet as parsing returns it. */
  function Received(p: DataPacket): Parsed {
    Parsed(p.name[..Min(|p.name|, NAME_MAX - 1)], p.priority, 0, p.sequence, Options(p.preview, p.terminated),
           p.preview, p.terminated, p.universe, p.startCode, |p.slots|)
  }

  lemma CarriedCount(s: seq<byte>, p: DataPacket)
    requires |p.slots| < 0x10000 && Carries(s, p)
    ensures AddressCount(s) == if |p.slots| < 0xFFFF then |p.slots| else -1
  {
    U16RoundTrip((|p.slots| + 1) % 0x10000, s[85], s[86]);
  }

  lemma CarriedIsParsed(s: seq<byte>, p: DataPacket)
    requires |p.slots| < 0xFFFF && Carries(s, p)
    ensures Parse(s) == Some(Received(p)) && SlotData(s) == p.slots
  {
    CarriedCount(s, p);
    NameSurvives(p.name);
    OptionBits(p.preview, p.terminated);
    U16RoundTrip(p.universe, s[75], s[76]);
  }

  /** Packing a packet and parsing it, whatever follows it in the buffer, gives it back. */
  lemma RoundTrip(p: DataPacket, extra: seq<byte>)
    requires |p.slots| < 0xFFFF
    ensures Parse(Wire(p) + extra) == Some(Received(p)) && SlotData(Wire(p) + extra) == p.slots
  {
    WireCarries(p, extra);
    CarriedIsParsed(Wire(p) + extra, p);
  }

  lemma FullCountIsParsedAsNone(s: seq<byte>, p: DataPacket)
    requires |p.slots| == 0xFFFF && Carries(s, p)
    ensures Parse(s).Some? && Parse(s).value.addressCount == -1 && SlotData(s) == []
  {
    CarriedCount(s, p);
  }

  /** The slots survive exactly when their count, with the start code, fits the 16-bit field. */
  lemma SlotsSurviveIff(p: DataPacket)
    requires |p.slots| < 0x10000
    ensures Parse(Wire(p)).Some?
    ensures SlotData(Wire(p)) == p.slots <==> |p.slots| < 0xFFFF
    ensures Parse(Wire(p)).value.addressCount == -1 <==> |p.slots| == 0xFFFF
  {
    var s := Wire(p);
    assert s + [] == s;
    WireCarries(p, []);
    if |p.slots| < 0xFFFF {
      CarriedIsParsed(s, p);
    } else {
      FullCountIsParsedAsNone(s, p);
    }
  }

  /** The name survives exactly when it has at most 63 characters. */
  lemma NameSurvivesIff(p: DataPacket)
    ensures Received(p).name == p.name <==> |p.name| < NAME_MAX
  {
  }

  /** A packet that lost its end is refused. */
  lemma TruncatedPacketIsRefused(p: DataPacket, n: nat)
    requires |p.slots| < 0xFFFF && n < |Wire(p)|
    ensures Parse(Wire(p)[..n]) == None
  {
    var s := Wire(p);
    assert s + [] == s;
    WireCarries(p, []);
    CarriedCount(s, p);
    TruncationIsRefused(s, n);
  }

  /** Whatever its contents, an image cut below its own slot count is refused. */
  lemma TruncationIsRefused(s: seq<byte>, n: nat)
    requires n < |s| && (|s| >= HEADER_SIZE ==> |s| <= HEADER_SIZE + AddressCount(s))
    ensures Parse(s[..n]) == None
  {
    if n >= HEADER_SIZE {
      assert s[..n][85] == s[85] && s[..n][86] == s[86];
      assert AddressCount(s[..n]) == AddressCount(s);
    }
  }

  // ---- Packing ----

  /** `bytes` written over `image` from `at` on. */
  function Written(image: seq<byte>, at: nat, bytes: seq<byte>): (r: seq<byte>)
    requires at + |bytes| <= |image|
    ensures |r| == |image|
  {
    image[..at] + bytes + image[at + |bytes|..]
  }

  lemma WrittenInTurn(image: seq<byte>, at: nat, first: seq<byte>, second: seq<byte>)
    requires at + |first| + |second| <= |image|
    ensures Written(Written(image, at, first), at + |first|, second) == Written(image, at, first + second)
  {
  }

  method PackByte(buf: array<byte>, at: nat, v: byte)
    requires at < buf.Length
    modifies buf
    ensures buf[..] == Written(old(buf[..]), at, [v])
  {
    buf[at] := v;
  }

  method PackU16(buf: array<byte>, at: nat, v: word)
    requires at + 2 <= buf.Length
    modifies buf
    ensures buf[..] == Written(old(buf[..]), at, U16(v))
  {
    buf[at] := v / 256;
    buf[at + 1] := v % 256;
  }

  method PackU32(buf: array<byte>, at: nat, v: nat)
    requires at + 4 <= buf.Length && v < 0x1_0000_0000
    modifies buf
    ensures buf[..] == Written(old(buf[..]), at, U32(v))
  {
    buf[at] := v / 0x100_0000;
    buf[at + 1] := v / 0x1_0000 % 256;
    buf[at + 2] := v / 256 % 256;
    buf[at + 3] := v % 256;
  }

  /** The length goes into the low twelve bits; the flags above them stay. */
  method PackLength(buf: array<byte>, at: nat, length: nat)
    requires at + 2 <= buf.Length
    modifies buf
    ensures buf[..] == Written(old(buf[..]), at, [old(buf[at]) / 16 * 16 + length / 256 % 16, length % 256])
  {
    buf[at] := buf[at] / 16 * 16 + length / 256 % 16;
    buf[at + 1] := length % 256;
  }

  method PackFlagsAndLength(buf: array<byte>, at: nat, length: nat)
    requires at + 2 <= buf.Length
    modifies buf
    ensures buf[..] == Written(old(buf[..]), at, FlagsAndLength(length))
  {
    ghost var image := buf[..];
    buf[at] := 0;
    buf[at] := buf[at] + 0x40;
    buf[at] := buf[at] + 0x20;
    buf[at] := buf[at] + 0x10;
    ghost var flagged := buf[..];
    assert flagged == Written(image, at, [0x70]);
    PackLength(buf, at, length);
    assert Written(flagged, at, FlagsAndLength(length)) == Written(image, at, FlagsAndLength(length));
  }

  method PackBytes(buf: array<byte>, at: nat, bytes: seq<byte>)
    requires at + |bytes| <= buf.Length
    modifies buf
    ensures buf[..] == Written(old(buf[..]), at, bytes)
  {
    for i := 0 to |bytes|
      invariant forall k | at <= k < at + i :: buf[k] == bytes[k - at]
      invariant forall k | 0 <= k < buf.Length && !(at <= k < at + i) :: buf[k] == old(buf[k])
    {
      buf[at + i] := bytes[i];
    }
    assert buf[at..at + |bytes|] == bytes;
  }

  /** The root layer of a data packet, preamble included. */
  method PackRootLayer(buf: array<byte>, length: nat, cid: Cid) returns (written: nat)
    requires ROOT_SIZE <= buf.Length && length >= PREAMBLE_SIZE
    modifies buf
    ensures written == ROOT_SIZE
    ensures buf[..] == Written(old(buf[..]), 0, RootLayer(length, cid))
  {
    ghost var image, flags := buf[..], FlagsAndLength(length - PREAMBLE_SIZE);
    PackBytes(buf, 0, PREAMBLE);
    PackFlagsAndLength(buf, PREAMBLE_SIZE, length - PREAMBLE_SIZE);
    WrittenInTurn(image, 0, PREAMBLE, flags);
    PackU32(buf, PREAMBLE_SIZE + 2, VECTOR_ROOT_DATA);
    WrittenInTurn(image, 0, PREAMBLE + flags, U32(VECTOR_ROOT_DATA));
    PackBytes(buf, PREAMBLE_SIZE + 6, cid);
    WrittenInTurn(image, 0, PREAMBLE + flags + U32(VECTOR_ROOT_DATA), cid);
    written := ROOT_SIZE;
  }

  /** Copy up to 64 characters, pad with zeros, then terminate in any case. */
  method PackName(buf: array<byte>, at: nat, name: CString)
    requires at + NAME_MAX <= buf.Length
    modifies buf
    ensures buf[..] == Written(old(buf[..]), at, NameField(name))
  {
    for i := 0 to NAME_MAX
      invariant forall k | at <= k < at + i :: buf[k] == if k - at < |name| then name[k - at] else 0
      invariant forall k | 0 <= k < buf.Length && !(at <= k < at + i) :: buf[k] == old(buf[k])
    {
      buf[at + i] := if i < |name| then name[i] else 0;
    }
    buf[at + NAME_MAX - 1] := 0;
    ghost var field := NameField(name);
    assert forall k | at <= k < at + NAME_MAX :: buf[k] == field[k - at];
    assert buf[at..at + NAME_MAX] == field;
    assert buf[..at] == old(buf[..at]) && buf[at + NAME_MAX..] == old(buf[at + NAME_MAX..]);
    assert buf[..] == buf[..at] + buf[at..at + NAME_MAX] + buf[at + NAME_MAX..];
  }

  method PackOptions(buf: array<byte>, at: nat, preview: bool, terminated: bool)
    requires at < buf.Length
    modifies buf
    ensures buf[..] == Written(old(buf[..]), at, [Options(preview, terminated)])
  {
    buf[at] := 0;
    if preview {
      buf[at] := buf[at] + 0x80;
    }
    if terminated {
      buf[at] := buf[at] + 0x40;
    }
  }

  /** The first part of the framing layer: length, vector and name. */
  method PackFramingStart(buf: array<byte>, at: nat, slotCount: word, vector: nat, name: CString)
    requires at + 70 <= buf.Length && vector < 0x1_0000_0000
    modifies buf
    ensures buf[..] == Written(old(buf[..]), at,
      FlagsAndLength(HEADER_SIZE + slotCount) + U32(vector) + NameField(name))
  {
    ghost var image, length := buf[..], FlagsAndLength(HEADER_SIZE + slotCount);
    PackFlagsAndLength(buf, at, HEADER_SIZE + slotCount);
    PackU32(buf, at + 2, vector);
    WrittenInTurn(image, at, length, U32(vector));
    PackName(buf, at + 6, name);
    WrittenInTurn(image, at, length + U32(vector), NameField(name));
  }

  /** The rest of it: priority, no synchronization address, sequence number, options and universe. */
  method PackFramingEnd(buf: array<byte>, at: nat, priority: byte, sequence: byte, preview: bool, terminated: bool,
          universe: word)
    requires at + 7 <= buf.Length
    modifies buf
    ensures buf[..] == Written(old(buf[..]), at,
              [priority, 0, 0, sequence, Options(preview, terminated)] + U16(universe))
  {
    ghost var image, options := buf[..], [Options(preview, terminated)];
    PackByte(buf, at, priority);
    PackU16(buf, at + 1, 0);
    WrittenInTurn(image, at, [priority], U16(0));
    PackByte(buf, at + 3, sequence);
    WrittenInTurn(image, at, [priority] + U16(0), [sequence]);
    PackOptions(buf, at + 4, preview, terminated);
    WrittenInTurn(image, at, [priority] + U16(0) + [sequence], options);
    PackU16(buf, at + 5, universe);
    WrittenInTurn(image, at, [priority] + U16(0) + [sequence] + options, U16(universe));
    assert [priority] + U16(0) + [sequence] + options == [priority, 0, 0, sequence, Options(preview, terminated)];
  }

  method PackDataFramingLayer(buf: array<byte>, at: nat, slotCount: word, vector: nat, name: CString, priority: byte,
                              sequence: byte, preview: bool, terminated: bool, universe: word) returns (written: nat)
    requires at + DMP_OFFSET <= buf.Length && vector < 0x1_0000_0000
    modifies buf
    ensures written == DMP_OFFSET
    ensures buf[..] == Written(old(buf[..]), at,
              FramingLayer(slotCount, vector, name, priority, sequence, preview, terminated, universe))
  {
    ghost var image := buf[..];
    ghost var start := FlagsAndLength(HEADER_SIZE + slotCount) + U32(vector) + NameField(name);
    ghost var end := [priority, 0, 0, sequence, Options(preview, terminated)] + U16(universe);
    PackFramingStart(buf, at, slotCount, vector, name);
    PackFramingEnd(buf, at + 70, priority, sequence, preview, terminated, universe);
    WrittenInTurn(image, at, start, end);
    assert start + end == FramingLayer(slotCount, vector, name, priority, sequence, preview, terminated, universe);
    written := DMP_OFFSET;
  }

  /** Length, vector, address type, first address and increment. */
  method PackDmpStart(buf: array<byte>, at: nat, slotCount: word)
    requires at + 8 <= buf.Length
    modifies buf
    ensures buf[..] == Written(old(buf[..]), at,
      FlagsAndLength(HEADER_SIZE - DMP_OFFSET + slotCount) + [0x02, 0xa1, 0, 0, 0, 1])
  {
    ghost var image, length := buf[..], FlagsAndLength(HEADER_SIZE - DMP_OFFSET + slotCount);
    PackFlagsAndLength(buf, at, HEADER_SIZE - DMP_OFFSET + slotCount);
    PackByte(buf, at + 2, 0x02);
    WrittenInTurn(image, at, length, [0x02]);
    PackByte(buf, at + 3, 0xa1);
    WrittenInTurn(image, at, length + [0x02], [0xa1]);
    PackU16(buf, at + 4, 0);
    WrittenInTurn(image, at, length + [0x02] + [0xa1], U16(0));
    PackU16(buf, at + 6, 1);
    WrittenInTurn(image, at, length + [0x02] + [0xa1] + U16(0), U16(1));
    assert length + [0x02] + [0xa1] + U16(0) + U16(1) == length + [0x02, 0xa1, 0, 0, 0, 1];
  }

  method PackDmpLayerHeader(buf: array<byte>, at: nat, startCode: byte, slotCount: word) returns (written: nat)
    requires at + HEADER_SIZE - DMP_OFFSET <= buf.Length
    modifies buf
    ensures written == HEADER_SIZE - DMP_OFFSET
    ensures buf[..] == Written(old(buf[..]), at, DmpLayerHeader(startCode, slotCount))
  {
    ghost var image := buf[..];
    ghost var start := FlagsAndLength(HEADER_SIZE - DMP_OFFSET + slotCount) + [0x02, 0xa1, 0, 0, 0, 1];
    ghost var count := U16((slotCount + 1) % 0x10000);
    PackDmpStart(buf, at, slotCount);
    PackU16(buf, at + 8, (slotCount + 1) % 0x10000);
    WrittenInTurn(image, at, start, count);
    PackByte(buf, at + 10, startCode);
    WrittenInTurn(image, at, start + count, [startCode]);
    written := HEADER_SIZE - DMP_OFFSET;
  }
}
