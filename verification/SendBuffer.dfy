/** A prepared data packet that a source edits in place between transmissions. */
module SendBuffer {
  import opened Common
  import opened Pdu

  /** The largest datagram. */
  const BUFFER_SIZE: nat := 638
  const MAX_SLOTS: nat := 512

  /** One byte of the header changes with the sequence number, the priority or an option. */
  lemma SequenceOnTheWire(p: DataPacket, sequence: byte)
    requires |p.slots| < 0x10000
    ensures Wire(p.(sequence := sequence)) == Wire(p)[73 := sequence]
  {
  }

  lemma PriorityOnTheWire(p: DataPacket, priority: byte)
    requires |p.slots| < 0x10000
    ensures Wire(p.(priority := priority)) == Wire(p)[70 := priority]
  {
  }

  lemma OptionsOnTheWire(p: DataPacket, preview: bool, terminated: bool)
    requires |p.slots| < 0x10000
    ensures Wire(p.(preview := preview, terminated := terminated)) == Wire(p)[74 := Options(preview, terminated)]
  {
  }

  lemma OptionsAt(p: DataPacket)
    requires |p.slots| < 0x10000
    ensures Wire(p)[74] == Options(p.preview, p.terminated)
  {
  }

  function FramingOf(p: DataPacket): (r: seq<byte>)
    requires |p.slots| < 0x10000
    ensures |r| == DMP_OFFSET
  {
    FramingLayer(|p.slots|, VECTOR_DATA_PACKET, p.name, p.priority, p.sequence, p.preview, p.terminated, p.universe)
  }

  lemma DataInFraming(p: DataPacket, data: seq<byte>)
    requires |p.slots| <= MAX_SLOTS && |data| <= MAX_SLOTS
    ensures FramingOf(p.(slots := data)) == Written(FramingOf(p), 0, FlagsAndLength(HEADER_SIZE + |data|))
  {
  }

  lemma DataInDmp(startCode: byte, oldCount: nat, newCount: nat)
    requires oldCount <= MAX_SLOTS && newCount <= MAX_SLOTS
    ensures DmpLayerHeader(startCode, newCount)
      == Written(Written(DmpLayerHeader(startCode, oldCount), 0, FlagsAndLength(HEADER_SIZE - DMP_OFFSET + newCount)),
                 8, U16(newCount + 1))
  {
  }

  /** The header of `p`, edited as new data edits it. */
  function Edited(header: seq<byte>, count: nat): (r: seq<byte>)
    requires |header| == HEADER_SIZE && count <= MAX_SLOTS
    ensures |r| == HEADER_SIZE
  {
    var framing := Written(header, 0, FlagsAndLength(HEADER_SIZE + count));
    var dmp := Written(framing, DMP_OFFSET, FlagsAndLength(HEADER_SIZE - DMP_OFFSET + count));
    Written(dmp, 85, U16(count + 1))
  }

  /** New data changes two lengths, the slot count and what follows the header. */
  lemma DataOnTheWire(p: DataPacket, data: seq<byte>)
    requires |p.slots| <= MAX_SLOTS && |data| <= MAX_SLOTS
    ensures Wire(p.(slots := data)) == Edited(Wire(p)[..HEADER_SIZE], |data|) + data
  {
    DataInFraming(p, data);
    DataInDmp(p.startCode, |p.slots|, |data|);
    var framing, dmp := FramingOf(p), DmpLayerHeader(p.startCode, |p.slots|);
    assert Wire(p)[..HEADER_SIZE] == framing + dmp;
    EditedInParts(framing, dmp, |data|);
  }

  lemma WrittenLeft(left: seq<byte>, right: seq<byte>, at: nat, bytes: seq<byte>)
    requires at + |bytes| <= |left|
    ensures Written(left + right, at, bytes) == Written(left, at, bytes) + right
  {
    assert (left + right)[at + |bytes|..] == left[at + |bytes|..] + right;
  }

  lemma WrittenRight(left: seq<byte>, right: seq<byte>, at: nat, bytes: seq<byte>)
    requires at + |bytes| <= |right|
    ensures Written(left + right, |left| + at, bytes) == left + Written(right, at, bytes)
  {
    assert (left + right)[..|left| + at] == left + right[..at];
  }

  /** One edit at the start of `left`, one at the start of `right`, and one `at` a place in `right`. */
  lemma ThreeEdits(left: seq<byte>, right: seq<byte>, a: seq<byte>, b: seq<byte>, at: nat, c: seq<byte>)
    requires |a| <= |left| && |b| <= |right| && at + |c| <= |right|
    ensures Written(Written(Written(left + right, 0, a), |left|, b), |left| + at, c)
      == Written(left, 0, a) + Written(Written(right, 0, b), at, c)
  {
    var left' := Written(left, 0, a);
    WrittenLeft(left, right, 0, a);
    WrittenRight(left', right, 0, b);
    WrittenRight(left', Written(right, 0, b), at, c);
  }

  lemma EditedInParts(framing: seq<byte>, dmp: seq<byte>, count: nat)
    requires |framing| == DMP_OFFSET && |dmp| == HEADER_SIZE - DMP_OFFSET && count <= MAX_SLOTS
    ensures Edited(framing + dmp, count) == Written(framing, 0, FlagsAndLength(HEADER_SIZE + count))
      + Written(Written(dmp, 0, FlagsAndLength(HEADER_SIZE - DMP_OFFSET + count)), 8, U16(count + 1))
  {
    ThreeEdits(framing, dmp, FlagsAndLength(HEADER_SIZE + count), FlagsAndLength(HEADER_SIZE - DMP_OFFSET + count),
               8, U16(count + 1));
  }

  /** Editing what follows the root layer edits the header that starts it. */
  lemma EditedInBuffer(image: seq<byte>, count: nat)
    requires |image| >= HEADER_SIZE && count <= MAX_SLOTS
    ensures var framing := Written(image, 0, FlagsAndLength(HEADER_SIZE + count));
      var dmp := Written(framing, DMP_OFFSET, FlagsAndLength(HEADER_SIZE - DMP_OFFSET + count));
      Written(dmp, 85, U16(count + 1))[..HEADER_SIZE] == Edited(image[..HEADER_SIZE], count)
  {
    var header, rest := image[..HEADER_SIZE], image[HEADER_SIZE..];
    assert image == header + rest;
    var framing := Written(header, 0, FlagsAndLength(HEADER_SIZE + count));
    var length := FlagsAndLength(HEADER_SIZE - DMP_OFFSET + count);
    WrittenLeft(header, rest, 0, FlagsAndLength(HEADER_SIZE + count));
    WrittenLeft(framing, rest, DMP_OFFSET, length);
    WrittenLeft(Written(framing, DMP_OFFSET, length), rest, 85, U16(count + 1));
  }

  /** The four edits of a new slot count: one in the root layer, three after it. */
  lemma EditedInDatagram(root: seq<byte>, body: seq<byte>, count: nat)
    requires |root| == ROOT_SIZE && |body| >= HEADER_SIZE && count <= MAX_SLOTS
    ensures var a := Written(root + body, PREAMBLE_SIZE,
      FlagsAndLength(ROOT_SIZE - PREAMBLE_SIZE + HEADER_SIZE + count));
      var b := Written(a, ROOT_SIZE, FlagsAndLength(HEADER_SIZE + count));
      var c := Written(b, ROOT_SIZE + DMP_OFFSET, FlagsAndLength(HEADER_SIZE - DMP_OFFSET + count));
      var d := Written(c, ROOT_SIZE + 85, U16(count + 1));
      && d[..ROOT_SIZE] == Written(root, PREAMBLE_SIZE, FlagsAndLength(ROOT_SIZE - PREAMBLE_SIZE + HEADER_SIZE + count))
      && d[ROOT_SIZE..ROOT_SIZE + HEADER_SIZE] == Edited(body[..HEADER_SIZE], count)
  {
    var length := FlagsAndLength(ROOT_SIZE - PREAMBLE_SIZE + HEADER_SIZE + count);
    var root' := Written(root, PREAMBLE_SIZE, length);
    var framing := Written(body, 0, FlagsAndLength(HEADER_SIZE + count));
    var dmp := Written(framing, DMP_OFFSET, FlagsAndLength(HEADER_SIZE - DMP_OFFSET + count));
    WrittenLeft(root, body, PREAMBLE_SIZE, length);
    WrittenRight(root', body, 0, FlagsAndLength(HEADER_SIZE + count));
    WrittenRight(root', framing, DMP_OFFSET, FlagsAndLength(HEADER_SIZE - DMP_OFFSET + count));
    WrittenRight(root', dmp, 85, U16(count + 1));
    EditedInBuffer(body, count);
    var last := Written(dmp, 85, U16(count + 1));
    assert (root' + last)[..ROOT_SIZE] == root';
    assert (root' + last)[ROOT_SIZE..ROOT_SIZE + HEADER_SIZE] == last[..HEADER_SIZE];
  }

  /** The whole datagram: the root layer, then the packet from its framing layer on. */
  function Datagram(cid: Cid, p: DataPacket): (r: seq<byte>)
    requires |p.slots| < 0x10000
  {
    RootLayer(ROOT_SIZE + |Wire(p)|, cid) + Wire(p)
  }

  lemma DataInRoot(cid: Cid, p: DataPacket, data: seq<byte>)
    requires |p.slots| <= MAX_SLOTS && |data| <= MAX_SLOTS
    ensures RootLayer(ROOT_SIZE + |Wire(p.(slots := data))|, cid)
      == Written(RootLayer(ROOT_SIZE + |Wire(p)|, cid), PREAMBLE_SIZE,
                 FlagsAndLength(ROOT_SIZE - PREAMBLE_SIZE + HEADER_SIZE + |data|))
  {
  }

  lemma RootLength(length: nat, cid: Cid)
    requires PREAMBLE_SIZE <= length < 4096
    ensures var root := RootLayer(length, cid);
      root[PREAMBLE_SIZE] / 16 == 7 && PREAMBLE_SIZE + PduLength(root[PREAMBLE_SIZE], root[PREAMBLE_SIZE + 1]) == length
  {
    var flags := FlagsAndLength(length - PREAMBLE_SIZE);
    var root := RootLayer(length, cid);
    assert root[PREAMBLE_SIZE] == flags[0] && root[PREAMBLE_SIZE + 1] == flags[1];
  }

  lemma FlagsOnTheWire(p: DataPacket)
    requires |p.slots| < 0x10000
    ensures Wire(p)[0] / 16 == 7 && Wire(p)[DMP_OFFSET] / 16 == 7
  {
    FlagsKept(HEADER_SIZE + |p.slots|);
    FlagsKept(HEADER_SIZE - DMP_OFFSET + |p.slots|);
    assert Wire(p)[0] == FlagsAndLength(HEADER_SIZE + |p.slots|)[0];
    assert Wire(p)[DMP_OFFSET] == DmpLayerHeader(p.startCode, |p.slots|)[0];
  }

  lemma FlagsKept(length: nat)
    ensures FlagsAndLength(length)[0] / 16 == 7
  {
  }

  /** What a receiver makes of the transmitted part of the buffer. */
  lemma TransmittedIsParsed(image: seq<byte>, p: DataPacket)
    requires |p.slots| <= MAX_SLOTS && image == Wire(p)
    ensures Parse(image) == Some(Received(p)) && SlotData(image) == p.slots
  {
    assert Wire(p) + [] == Wire(p);
    RoundTrip(p, []);
  }

  class DataSendBuffer {
    const buf: array<byte>
    ghost const cid: Cid
    ghost var packet: DataPacket

    /** The buffer starts with the datagram of `packet`; what follows is left over from longer data. */
    ghost predicate Valid()
      reads this, buf
    {
      && buf.Length == BUFFER_SIZE && |packet.slots| <= MAX_SLOTS
      && buf[..ROOT_SIZE] == RootLayer(ROOT_SIZE + |Wire(packet)|, cid)
      && buf[ROOT_SIZE..ROOT_SIZE + HEADER_SIZE + |packet.slots|] == Wire(packet)
    }

    constructor (name: CString, priority: byte, cid: Cid, universe: word, startCode: byte, preview: bool)
      ensures Valid() && fresh(buf) && this.cid == cid
      ensures packet == DataPacket(name, priority, 0, preview, false, universe, startCode, [])
    {
      buf := new byte[BUFFER_SIZE](_ => 0);
      this.cid := cid;
      packet := DataPacket(name, priority, 0, preview, false, universe, startCode, []);
      new;
      var written := PackRootLayer(buf, ROOT_SIZE + HEADER_SIZE, cid);
      ghost var root := buf[..];
      var framingSize := PackDataFramingLayer(buf, written, 0, VECTOR_DATA_PACKET, name, priority, 0, preview, false,
        universe);
      ghost var framing := buf[..];
      var _ := PackDmpLayerHeader(buf, written + framingSize, startCode, 0);
      assert buf[..ROOT_SIZE] == framing[..ROOT_SIZE] == root[..ROOT_SIZE];
      assert buf[ROOT_SIZE..ROOT_SIZE + DMP_OFFSET] == framing[ROOT_SIZE..ROOT_SIZE + DMP_OFFSET];
      assert buf[ROOT_SIZE + DMP_OFFSET..ROOT_SIZE + HEADER_SIZE] == DmpLayerHeader(startCode, 0);
      assert buf[ROOT_SIZE..ROOT_SIZE + HEADER_SIZE]
        == buf[ROOT_SIZE..ROOT_SIZE + DMP_OFFSET] + buf[ROOT_SIZE + DMP_OFFSET..ROOT_SIZE + HEADER_SIZE];
    }

    method SetSequence(sequence: byte)
      requires Valid()
      modifies this, buf
      ensures Valid() && packet == old(packet).(sequence := sequence)
    {
      SequenceOnTheWire(packet, sequence);
      buf[ROOT_SIZE + 73] := sequence;
      packet := packet.(sequence := sequence);
    }

    method SetPriority(priority: byte)
      requires Valid()
      modifies this, buf
      ensures Valid() && packet == old(packet).(priority := priority)
    {
      PriorityOnTheWire(packet, priority);
      buf[ROOT_SIZE + 70] := priority;
      packet := packet.(priority := priority);
    }

    method SetTerminated(terminated: bool)
      requires Valid()
      modifies this, buf
      ensures Valid() && packet == old(packet).(terminated := terminated)
    {
      OptionsOnTheWire(packet, packet.preview, terminated);
      OptionsAt(packet);
      assert buf[ROOT_SIZE + 74] == buf[ROOT_SIZE..ROOT_SIZE + HEADER_SIZE + |packet.slots|][74]
        == Wire(packet)[74] == Options(packet.preview, packet.terminated);
      if terminated && buf[ROOT_SIZE + 74] / 64 % 2 == 0 {
        buf[ROOT_SIZE + 74] := buf[ROOT_SIZE + 74] + 0x40;
      } else if !terminated && buf[ROOT_SIZE + 74] / 64 % 2 == 1 {
        buf[ROOT_SIZE + 74] := buf[ROOT_SIZE + 74] - 0x40;
      }
      packet := packet.(terminated := terminated);
    }

    method SetPreview(preview: bool)
      requires Valid()
      modifies this, buf
      ensures Valid() && packet == old(packet).(preview := preview)
    {
      OptionsOnTheWire(packet, preview, packet.terminated);
      OptionsAt(packet);
      assert buf[ROOT_SIZE + 74] == buf[ROOT_SIZE..ROOT_SIZE + HEADER_SIZE + |packet.slots|][74]
        == Wire(packet)[74] == Options(packet.preview, packet.terminated);
      if preview && buf[ROOT_SIZE + 74] / 128 == 0 {
        buf[ROOT_SIZE + 74] := buf[ROOT_SIZE + 74] + 0x80;
      } else if !preview && buf[ROOT_SIZE + 74] / 128 == 1 {
        buf[ROOT_SIZE + 74] := buf[ROOT_SIZE + 74] - 0x80;
      }
      packet := packet.(preview := preview);
    }

    /** A new length where there already is one. */
    method SetLength(at: nat, length: nat)
      requires at + 2 <= buf.Length && buf[at] / 16 == 7
      modifies buf
      ensures buf[..] == Written(old(buf[..]), at, FlagsAndLength(length))
      ensures forall k | 0 <= k < buf.Length && k != at && k != at + 1 :: buf[k] == old(buf[k])
    {
      PackLength(buf, at, length);
    }

    /** The three lengths and the slot count. */
    method SetDataSlotCount(count: nat)
      requires buf.Length == BUFFER_SIZE && count <= MAX_SLOTS
      requires buf[PREAMBLE_SIZE] / 16 == 7 && buf[ROOT_SIZE] / 16 == 7 && buf[ROOT_SIZE + DMP_OFFSET] / 16 == 7
      modifies buf
      ensures buf[..ROOT_SIZE]
        == Written(old(buf[..ROOT_SIZE]), PREAMBLE_SIZE,
          FlagsAndLength(ROOT_SIZE - PREAMBLE_SIZE + HEADER_SIZE + count))
      ensures buf[ROOT_SIZE..ROOT_SIZE + HEADER_SIZE] == Edited(old(buf[ROOT_SIZE..ROOT_SIZE + HEADER_SIZE]), count)
    {
      ghost var root, body := buf[..ROOT_SIZE], buf[ROOT_SIZE..];
      assert buf[..] == root + body && body[..HEADER_SIZE] == buf[ROOT_SIZE..ROOT_SIZE + HEADER_SIZE];
      EditedInDatagram(root, body, count);
      SetLength(PREAMBLE_SIZE, ROOT_SIZE - PREAMBLE_SIZE + HEADER_SIZE + count);
      SetLength(ROOT_SIZE, HEADER_SIZE + count);
      SetLength(ROOT_SIZE + DMP_OFFSET, HEADER_SIZE - DMP_OFFSET + count);
      PackU16(buf, ROOT_SIZE + 85, 1 + count);
    }

    method UpdateData(data: seq<byte>)
      requires Valid() && |data| <= MAX_SLOTS
      modifies this, buf
      ensures Valid() && packet == old(packet).(slots := data)
    {
      DataOnTheWire(packet, data);
      DataInRoot(cid, packet, data);
      FlagsOnTheWire(packet);
      RootLength(ROOT_SIZE + |Wire(packet)|, cid);
      ghost var wire := buf[ROOT_SIZE..ROOT_SIZE + HEADER_SIZE + |packet.slots|];
      assert buf[ROOT_SIZE..ROOT_SIZE + HEADER_SIZE] == Wire(packet)[..HEADER_SIZE];
      assert buf[PREAMBLE_SIZE] == buf[..ROOT_SIZE][PREAMBLE_SIZE];
      assert buf[ROOT_SIZE] == wire[0] && buf[ROOT_SIZE + DMP_OFFSET] == wire[DMP_OFFSET];
      SetDataSlotCount(|data|);
      CopyData(data);
      packet := packet.(slots := data);
    }

    /** Copy the data in right after the start code. */
    method CopyData(data: seq<byte>)
      requires buf.Length == BUFFER_SIZE && |data| <= MAX_SLOTS
      modifies buf
      ensures buf[..ROOT_SIZE] == old(buf[..ROOT_SIZE])
      ensures buf[ROOT_SIZE..ROOT_SIZE + HEADER_SIZE + |data|] == old(buf[ROOT_SIZE..ROOT_SIZE + HEADER_SIZE]) + data
    {
      PackBytes(buf, ROOT_SIZE + HEADER_SIZE, data);
    }

    /**
     Whatever edits came before, what is sent is exactly the datagram of the packet they describe, and parses
     to it from the framing layer on. The datagram's length is taken from its root layer.
     */
    method Transmit() returns (image: seq<byte>)
      requires Valid()
      ensures image == Datagram(cid, packet)
      ensures Parse(image[ROOT_SIZE..]) == Some(Received(packet)) && SlotData(image[ROOT_SIZE..]) == packet.slots
    {
      RootLength(ROOT_SIZE + |Wire(packet)|, cid);
      assert buf[PREAMBLE_SIZE] == buf[..ROOT_SIZE][PREAMBLE_SIZE];
      assert buf[PREAMBLE_SIZE + 1] == buf[..ROOT_SIZE][PREAMBLE_SIZE + 1];
      image := buf[..PREAMBLE_SIZE + PduLength(buf[PREAMBLE_SIZE], buf[PREAMBLE_SIZE + 1])];
      assert image == buf[..ROOT_SIZE] + buf[ROOT_SIZE..ROOT_SIZE + HEADER_SIZE + |packet.slots|];
      assert image[ROOT_SIZE..] == Wire(packet);
      TransmittedIsParsed(image[ROOT_SIZE..], packet);
    }
  }
}
