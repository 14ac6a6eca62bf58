/**
 One source tracked on one universe: what each packet does to its receive state, its timers and its
 termination mark, and which packets reach the application.
 */
module SourceTracking {
  import opened Common
  import opened Interfaces

  const STARTCODE_DMX: byte := 0x00
  const STARTCODE_PRIORITY: byte := 0xDD
  const SOURCE_LOSS_TIMEOUT: nat := 2500
  const WAIT_FOR_PRIORITY: nat := 1500

  /** A millisecond timer: started at `start`, and expired once more than `interval` has passed. */
  datatype Timer = Timer(start: nat, interval: nat)

  predicate Expired(t: Timer, now: nat) {
    t.interval == 0 || now > t.start + t.interval
  }

  datatype RecvState = WaitingForPap | HaveDmxOnly | HavePapOnly | HaveDmxAndPap

  datatype Source = Source(
    netint: Netint,
    packetTimer: Timer,
    sequence: byte,
    terminated: bool,
    dmxSinceLastTick: bool,
    state: RecvState,
    papTimer: Timer)

  /** The parts of a parsed data packet that tracking looks at. */
  datatype Packet = Packet(startCode: byte, sequence: byte, preview: bool, terminated: bool)

  /** What a packet does: the source afterwards, and what the application gets to see. */
  datatype Reaction = Reaction(source: Source, accepted: bool, notify: bool, papLost: bool)

  predicate InSequence(newSequence: byte, oldSequence: byte) {
    var difference: int := newSequence - oldSequence;
    difference > 0 || difference <= -20
  }

  /** The difference of two sequence numbers in signed 8-bit arithmetic. */
  function SignedDifference(newSequence: byte, oldSequence: byte): (d: int)
    ensures -128 <= d < 128
  {
    var difference: int := newSequence - oldSequence;
    (difference + 128) % 256 - 128
  }

  /** Section 6.7.2 of ANSI E1.31-2018. */
  predicate InSequenceByStandard(newSequence: byte, oldSequence: byte) {
    SignedDifference(newSequence, oldSequence) > 0 || SignedDifference(newSequence, oldSequence) <= -20
  }

  /** Without the wrap-around, a packet from up to 19 before a wrap passes for a new one. */
  lemma SequenceFollowsStandardIff(newSequence: byte, oldSequence: byte)
    ensures (InSequence(newSequence, oldSequence) <==> InSequenceByStandard(newSequence, oldSequence))
      <==> newSequence as int - oldSequence as int < 237
  {
    var difference: int := newSequence - oldSequence;
    if difference < -128 {
      assert (difference + 128) % 256 == difference + 384;
    } else if difference < 128 {
      assert (difference + 128) % 256 == difference + 128;
    } else {
      assert (difference + 128) % 256 == difference - 128;
    }
  }

  lemma LatePacketPassesForNew()
    ensures InSequence(250, 5) && !InSequenceByStandard(250, 5)
  {
  }

  /** A source as it starts, from the first packet received from it. */
  function NewSource(netint: Netint, p: Packet, sampling: bool, now: nat): Source {
    var state :=
      if p.startCode == STARTCODE_PRIORITY then HavePapOnly
      else if sampling then HaveDmxOnly else WaitingForPap;
    var papTimer :=
      if !sampling then Timer(now, WAIT_FOR_PRIORITY)
      else if p.startCode == STARTCODE_PRIORITY then Timer(now, SOURCE_LOSS_TIMEOUT) else Timer(0, 0);
    Source(netint, Timer(now, SOURCE_LOSS_TIMEOUT), p.sequence, false, true, state, papTimer)
  }

  function Terminate(s: Source, now: nat): Source {
    s.(terminated := true, packetTimer := Timer(now, 0))
  }

  /** NULL start code data. */
  function Dmx(s: Source, now: nat): Reaction {
    var fed := s.(dmxSinceLastTick := true, packetTimer := Timer(now, SOURCE_LOSS_TIMEOUT));
    match s.state
    case HavePapOnly => Reaction(fed.(state := HaveDmxAndPap), true, true, false)
    case WaitingForPap =>
      if Expired(s.papTimer, now)
      then Reaction(fed.(state := HaveDmxOnly, papTimer := Timer(now, SOURCE_LOSS_TIMEOUT)), true, true, false)
      else Reaction(fed, true, false, false)
    case HaveDmxOnly => Reaction(fed, true, true, false)
    case HaveDmxAndPap =>
      if Expired(s.papTimer, now) then Reaction(fed.(state := HaveDmxOnly), true, true, true)
      else Reaction(fed, true, true, false)
  }

  /** Per-address priority data. */
  function Pap(s: Source, now: nat): Reaction {
    var started := s.(state := HaveDmxAndPap, papTimer := Timer(now, SOURCE_LOSS_TIMEOUT));
    match s.state
    case WaitingForPap => Reaction(started, true, true, false)
    case HaveDmxOnly => Reaction(started, true, true, false)
    case HavePapOnly => Reaction(s.(papTimer := s.papTimer.(start := now)), true, true, false)
    case HaveDmxAndPap => Reaction(s.(papTimer := s.papTimer.(start := now)), true, true, false)
  }

  /** A data packet from a source that is already tracked. */
  function Receive(s: Source, now: nat, netint: Netint, p: Packet, sampling: bool, filterPreview: bool): Reaction {
    if s.netint != netint && !sampling then Reaction(s, false, false, false)
    else
      var located := s.(netint := netint);
      var marked := if p.terminated then Terminate(located, now) else located;
      if marked.terminated || !InSequence(p.sequence, marked.sequence) then Reaction(marked, false, false, false)
      else
        var current := marked.(sequence := p.sequence);
        var reaction :=
          if p.startCode == STARTCODE_DMX then Dmx(current, now)
          else if p.startCode == STARTCODE_PRIORITY then Pap(current, now)
          else Reaction(current, true, true, false);
        if p.preview && filterPreview then reaction.(notify := false) else reaction
  }

  /** How a tick classifies a source. */
  datatype Status = Offline(terminated: bool) | Online | Unknown | Erased | StillWaiting

  function Classify(s: Source, now: nat): Status {
    if s.state == WaitingForPap then (if Expired(s.packetTimer, now) then Erased else StillWaiting)
    else if Expired(s.packetTimer, now) then Offline(s.terminated)
    else if s.dmxSinceLastTick then Online
    else Unknown
  }

  /** A tick only forgets, for a source found online, that it has received DMX. */
  function Ticked(s: Source, now: nat): Source {
    if Classify(s, now) == Online then s.(dmxSinceLastTick := false) else s
  }

  class TrackedSource {
    const handle: Handle
    var netint: Netint
    var packetTimer: Timer
    var sequence: byte
    var terminated: bool
    var dmxSinceLastTick: bool
    var state: RecvState
    var papTimer: Timer

    function View(): Source
      reads this
    {
      Source(netint, packetTimer, sequence, terminated, dmxSinceLastTick, state, papTimer)
    }

    constructor (handle: Handle, netint: Netint, p: Packet, sampling: bool, now: nat)
      ensures this.handle == handle && View() == NewSource(netint, p, sampling, now)
    {
      this.handle, this.netint, sequence := handle, netint, p.sequence;
      packetTimer := Timer(now, SOURCE_LOSS_TIMEOUT);
      terminated, dmxSinceLastTick := false, true;
      papTimer := Timer(0, 0);
      if sampling {
        if p.startCode == STARTCODE_PRIORITY {
          state := HavePapOnly;
          papTimer := Timer(now, SOURCE_LOSS_TIMEOUT);
        } else {
          state := HaveDmxOnly;
        }
      } else {
        if p.startCode == STARTCODE_PRIORITY {
          state := HavePapOnly;
        } else {
          state := WaitingForPap;
        }
        papTimer := Timer(now, WAIT_FOR_PRIORITY);
      }
    }

    method MarkTerminated(now: nat)
      modifies this
      ensures View() == Terminate(old(View()), now)
    {
      terminated := true;
      packetTimer := Timer(now, 0);
    }

    method ProcessNullStartCode(now: nat) returns (notify: bool, papLost: bool)
      modifies this
      ensures Reaction(View(), true, notify, papLost) == Dmx(old(View()), now)
    {
      notify, papLost := true, false;
      dmxSinceLastTick := true;
      packetTimer := Timer(now, SOURCE_LOSS_TIMEOUT);
      match state {
        case HavePapOnly =>
          state := HaveDmxAndPap;
        case WaitingForPap =>
          if Expired(papTimer, now) {
            state := HaveDmxOnly;
            papTimer := Timer(now, SOURCE_LOSS_TIMEOUT);
          } else {
            notify := false;
          }
        case HaveDmxOnly =>
        case HaveDmxAndPap =>
          if Expired(papTimer, now) {
            papLost := true;
            state := HaveDmxOnly;
          }
      }
    }

    method ProcessPap(now: nat) returns (notify: bool)
      modifies this
      ensures Reaction(View(), true, notify, false) == Pap(old(View()), now)
    {
      notify := true;
      match state {
        case WaitingForPap =>
          state := HaveDmxAndPap;
          papTimer := Timer(now, SOURCE_LOSS_TIMEOUT);
        case HaveDmxOnly =>
          state := HaveDmxAndPap;
          papTimer := Timer(now, SOURCE_LOSS_TIMEOUT);
        case HavePapOnly =>
          papTimer := papTimer.(start := now);
        case HaveDmxAndPap =>
          papTimer := papTimer.(start := now);
      }
    }

    /** A packet from this source; it is dropped as soon as one check fails. */
    method ReceivePacket(now: nat, from: Netint, p: Packet, sampling: bool, filterPreview: bool)
      returns (accepted: bool, notify: bool, papLost: bool)
      modifies this
      ensures Reaction(View(), accepted, notify, papLost) == Receive(old(View()), now, from, p, sampling, filterPreview)
    {
      accepted, notify, papLost := false, false, false;
      if netint != from {
        if sampling {
          netint := from;
        } else {
          return;
        }
      }
      if p.terminated {
        MarkTerminated(now);
      }
      if terminated {
        return;
      }
      if !InSequence(p.sequence, sequence) {
        return;
      }
      sequence := p.sequence;
      accepted := true;
      if p.startCode == STARTCODE_DMX {
        notify, papLost := ProcessNullStartCode(now);
      } else if p.startCode == STARTCODE_PRIORITY {
        notify := ProcessPap(now);
      } else {
        notify := true;
      }
      if p.preview && filterPreview {
        notify := false;
      }
    }

    /** The tick's look at one source. */
    method CheckTimeouts(now: nat) returns (status: Status)
      modifies this
      ensures status == Classify(old(View()), now) && View() == Ticked(old(View()), now)
    {
      match state {
        case WaitingForPap =>
          if Expired(packetTimer, now) {
            status := Erased;
          } else {
            status := StillWaiting;
          }
        case _ =>
          status := UpdateStatus(now);
      }
    }

    method UpdateStatus(now: nat) returns (status: Status)
      requires state != WaitingForPap
      modifies this
      ensures status == Classify(old(View()), now) && View() == Ticked(old(View()), now)
    {
      if Expired(packetTimer, now) {
        status := Offline(terminated);
      } else if dmxSinceLastTick {
        status := Online;
        dmxSinceLastTick := false;
      } else {
        status := Unknown;
      }
    }
  }
}
