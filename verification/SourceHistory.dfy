/**
 What a new source does over every timed run, told from its packets alone: which of them are taken in, when its data
 are notified and when the loss of its per-address priority is reported.
 */
module SourceHistory {
  import opened Common
  import opened Interfaces
  import opened SourceTracking
  import opened SourceRuns

  /** A new source, from the first packet received from it, and everything that happens to it from then on. */
  datatype Story = Story(netint: Netint, first: Packet, sampling: bool, start: nat, filterPreview: bool,
    run: seq<SourceEvent>)
  {
    function Source(): Source {
      NewSource(netint, first, sampling, start)
    }

    function Before(k: nat): Source
      requires k <= |run|
    {
      SourceRuns.Before(Source(), run, filterPreview, k)
    }

    /** Event `k` is a PAP packet that is taken in; so is the first packet, as event -1, if it is one. */
    predicate PapAt(k: int) {
      if k == -1 then first.startCode == 0xDD
      else 0 <= k < |run| && IsPap(run[k]) && At(Source(), run, filterPreview, k).accepted
    }

    predicate DmxAt(k: int) {
      if k == -1 then first.startCode != 0xDD
      else 0 <= k < |run| && IsDmx(run[k]) && At(Source(), run, filterPreview, k).accepted
    }

    predicate LossAt(k: int) {
      0 <= k < |run| && At(Source(), run, filterPreview, k).papLost
    }

    function Time(k: int): nat
      requires -1 <= k < |run|
    {
      if k == -1 then start else run[k].now
    }

    /** Event `i` brought PAP, and before `k` no more came and its loss was not reported. */
    ghost predicate LatestPap(i: int, k: nat) {
      -1 <= i < k && PapAt(i) && forall j | i < j < k :: !PapAt(j) && !LossAt(j)
    }

    /** DMX has been heard of before `k`. */
    ghost predicate DmxBefore(k: nat) {
      exists j :: -1 <= j < k && DmxAt(j)
    }

    /** How long PAP may be silent: 2.5 seconds, but 1.5 up to the first loss of a source first seen by it. */
    ghost function Patience(k: nat): nat {
      if first.startCode == 0xDD && !sampling && forall j | 0 <= j < k :: !LossAt(j) then 1500 else 2500
    }
  }

  /** What the receive state and the PAP timer say about the history. */
  ghost predicate TellsHistory(s: Story, k: nat, i: int)
    requires k <= |s.run|
  {
    var now := s.Before(k);
    && (HasPap(now) ==> s.LatestPap(i, k) && now.papTimer == Timer(s.Time(i), s.Patience(k)))
    && (!HasPap(now) ==> s.Patience(k) == 2500 && forall j :: !s.LatestPap(j, k))
    && (now.state == HavePapOnly ==> !s.DmxBefore(k))
    && (now.state != HavePapOnly ==> s.DmxBefore(k))
    && (now.state == WaitingForPap ==> forall j | -1 <= j < k :: !s.PapAt(j))
  }

  lemma PapStep(s: Source, e: SourceEvent, filterPreview: bool)
    ensures var r := Apply(s, e, filterPreview);
      if IsPap(e) && r.accepted then
        && HasPap(r.source) && !r.papLost
        && r.source.papTimer == Timer(e.now, if HasPap(s) then s.papTimer.interval else 2500)
        && (r.source.state == HavePapOnly <==> s.state == HavePapOnly)
      else if IsDmx(e) && r.accepted then
        && (r.papLost <==> s.state == HaveDmxAndPap && Expired(s.papTimer, e.now))
        && (HasPap(r.source) <==> HasPap(s) && !r.papLost)
        && (HasPap(r.source) ==> r.source.papTimer == s.papTimer)
        && r.source.state != HavePapOnly
        && (r.source.state == WaitingForPap ==> s.state == WaitingForPap)
      else !r.papLost && r.source.state == s.state && r.source.papTimer == s.papTimer
  {
  }

  lemma LatestPapStep(s: Story, j: int, k: nat)
    requires 0 < k <= |s.run|
    ensures s.LatestPap(j, k) <==>
      if s.PapAt(k - 1) then j == k - 1 else s.LatestPap(j, k - 1) && !s.LossAt(k - 1)
  {
    var last: nat := k - 1;
    assert s.PapAt(last) ==> !s.LossAt(last) by {
      PapStep(s.Before(last), s.run[last], s.filterPreview);
    }
  }

  lemma DmxBeforeStep(s: Story, k: nat)
    requires 0 < k <= |s.run|
    ensures s.DmxBefore(k) <==> s.DmxBefore(k - 1) || s.DmxAt(k - 1)
  {
  }

  lemma PatienceStep(s: Story, k: nat)
    requires 0 < k <= |s.run|
    ensures s.Patience(k) == if s.LossAt(k - 1) then 2500 else s.Patience(k - 1)
  {
  }

  lemma HistoryIsToldAtFirst(s: Story)
    ensures TellsHistory(s, 0, -1)
  {
    assert s.DmxAt(-1) ==> s.DmxBefore(0);
  }

  lemma OneMoreIsTold(s: Story, k: nat, i: int)
    requires 0 < k <= |s.run| && TellsHistory(s, k - 1, i)
    ensures TellsHistory(s, k, if s.PapAt(k - 1) then k - 1 else i)
  {
    PapStep(s.Before(k - 1), s.run[k - 1], s.filterPreview);
    DmxBeforeStep(s, k);
    PatienceStep(s, k);
    forall j ensures s.LatestPap(j, k) <==>
      if s.PapAt(k - 1) then j == k - 1 else s.LatestPap(j, k - 1) && !s.LossAt(k - 1)
    {
      LatestPapStep(s, j, k);
    }
  }

  lemma {:induction false} HistoryIsTold(s: Story, k: nat) returns (i: int)
    requires k <= |s.run|
    ensures TellsHistory(s, k, i)
  {
    if k == 0 {
      i := -1;
      HistoryIsToldAtFirst(s);
    } else {
      var before := HistoryIsTold(s, k - 1);
      i := if s.PapAt(k - 1) then k - 1 else before;
      OneMoreIsTold(s, k, before);
    }
  }

  /**
   A loss is reported exactly with a DMX packet that is taken in, not the first one of the source, after the latest PAP
   since the loss before has been silent for too long.
   */
  lemma LossIsReportedIff(s: Story, k: nat)
    requires k < |s.run|
    ensures s.LossAt(k) <==>
      && s.DmxAt(k) && s.DmxBefore(k)
      && exists i :: s.LatestPap(i, k) && s.run[k].now > s.Time(i) + s.Patience(k)
  {
    var i := HistoryIsTold(s, k);
    PapStep(s.Before(k), s.run[k], s.filterPreview);
    assert forall j, l :: s.LatestPap(j, k) && s.LatestPap(l, k) ==> j == l;
  }

  /** The PAP of event `i` is the last to come before event `k`, but for events of another kind. */
  ghost predicate LastPap(s: Story, i: int, k: nat) {
    -1 <= i < k && s.PapAt(i) && forall j | i < j < k :: !s.PapAt(j)
  }

  /**
   PAP that stops is noticed: once 2.5 seconds have passed since the last of it, its loss is reported at the latest by
   the next DMX that is taken in, if there was DMX before.
   */
  lemma DeadPapIsReported(s: Story, i: int, k: nat)
    requires k < |s.run| && LastPap(s, i, k) && s.DmxAt(k) && s.DmxBefore(k) && s.run[k].now > s.Time(i) + 2500
    ensures exists l :: i < l <= k && s.LossAt(l)
  {
    if forall l | i < l < k :: !s.LossAt(l) {
      assert s.LatestPap(i, k);
      LossIsReportedIff(s, k);
      assert s.LossAt(k);
    }
  }

  /** So two such DMX packets are always enough, also when the source was first seen by PAP. */
  lemma TwoDmxPacketsAreEnough(s: Story, i: int, j: nat, k: nat)
    requires j < k < |s.run| && LastPap(s, i, k) && i < j && Timed(s.run, s.start)
    requires s.DmxAt(j) && s.DmxAt(k) && s.run[j].now > s.Time(i) + 2500
    ensures exists l :: i < l <= k && s.LossAt(l)
  {
    assert s.run[j].now <= s.run[k].now;
    DeadPapIsReported(s, i, k);
  }

  /** And never more than one for the same PAP. */
  lemma DeadPapIsReportedOnce(s: Story, i: int, k: nat, l: nat, m: nat)
    requires k <= |s.run| && LastPap(s, i, k) && i < l < m < k
    ensures !(s.LossAt(l) && s.LossAt(m))
  {
    LossIsReportedIff(s, m);
  }

  // ---- Waiting for PAP ----

  /** PAP was taken in before event `k`. */
  ghost predicate PapBefore(s: Story, k: nat) {
    exists j :: -1 <= j < k && s.PapAt(j)
  }

  /** DMX was taken in before event `k`, but after the wait. */
  ghost predicate DmxAfterWait(s: Story, k: nat) {
    exists j :: 0 <= j < k && s.DmxAt(j) && s.Time(j) > s.start + 1500
  }

  /** A source waits until PAP comes, or DMX after the wait; first seen in a sampling period, it never waits. */
  ghost predicate Waits(s: Story, k: nat) {
    !s.sampling && !PapBefore(s, k) && !DmxAfterWait(s, k)
  }

  ghost predicate WaitsAsLong(s: Story, k: nat)
    requires k <= |s.run|
  {
    && (s.Before(k).state == WaitingForPap <==> Waits(s, k))
    && (Waits(s, k) ==> s.Before(k).papTimer == Timer(s.start, 1500))
  }

  lemma WaitStep(s: Source, e: SourceEvent, filterPreview: bool)
    ensures var r := Apply(s, e, filterPreview);
      && (r.source.state == WaitingForPap ==> s.state == WaitingForPap && r.source.papTimer == s.papTimer)
      && (r.source.state != WaitingForPap && s.state == WaitingForPap ==>
            r.accepted && (IsPap(e) || (IsDmx(e) && Expired(s.papTimer, e.now))))
      && (r.accepted && IsPap(e) ==> r.source.state != WaitingForPap)
      && (r.notify <==>
            && r.accepted && !(e.packet.preview && filterPreview)
            && (IsDmx(e) ==> s.state != WaitingForPap || Expired(s.papTimer, e.now)))
  {
  }

  lemma WaitsStep(s: Story, k: nat)
    requires 0 < k <= |s.run|
    ensures Waits(s, k) <==>
      Waits(s, k - 1) && !s.PapAt(k - 1) && !(s.DmxAt(k - 1) && s.Time(k - 1) > s.start + 1500)
  {
    assert PapBefore(s, k) <==> PapBefore(s, k - 1) || s.PapAt(k - 1);
  }

  lemma {:induction false} WaitIsTold(s: Story, k: nat)
    requires k <= |s.run|
    ensures WaitsAsLong(s, k)
  {
    if k == 0 {
      assert s.PapAt(-1) ==> PapBefore(s, 0);
    } else {
      WaitIsTold(s, k - 1);
      WaitStep(s.Before(k - 1), s.run[k - 1], s.filterPreview);
      WaitsStep(s, k);
    }
  }

  /**
   Data are notified exactly when they are taken in and not filtered as preview data; NULL start code data only once the
   source was first seen in a sampling period, its PAP was taken in before, or 1.5 seconds have passed.
   */
  lemma DataAreNotifiedIff(s: Story, k: nat)
    requires k < |s.run| && Timed(s.run, s.start)
    ensures At(s.Source(), s.run, s.filterPreview, k).notify <==>
      && TakenIn(s, k) && !(s.run[k].packet.preview && s.filterPreview)
      && (IsDmx(s.run[k]) ==> s.sampling || PapBefore(s, k) || s.run[k].now > s.start + 1500)
  {
    WaitIsTold(s, k);
    WaitStep(s.Before(k), s.run[k], s.filterPreview);
    if DmxAfterWait(s, k) {
      var j :| 0 <= j < k && s.DmxAt(j) && s.Time(j) > s.start + 1500;
      assert s.run[j].now <= s.run[k].now;
    }
  }

  // ---- Which packets are taken in ----

  /** Event `j` is the last before `k` that tells where the source is heard: in a sampling period, anywhere. */
  predicate HeardLast(s: Story, j: int, k: nat)
    requires k <= |s.run|
  {
    && -1 <= j < k && (j == -1 || (s.run[j].Data? && s.run[j].sampling))
    && forall l | j < l < k :: !(s.run[l].Data? && s.run[l].sampling)
  }

  function HeardOn(s: Story, j: int): Netint
    requires -1 <= j < |s.run| && (j >= 0 ==> s.run[j].Data?)
  {
    if j == -1 then s.netint else s.run[j].from
  }

  /** Event `k` ends the source: a termination packet that is heard, or its interface is gone. */
  ghost predicate EndsIt(s: Story, k: nat)
    requires k < |s.run|
  {
    match s.run[k]
    case Data(_, from, packet, sampling) =>
      packet.terminated && (sampling || exists j :: HeardLast(s, j, k) && HeardOn(s, j) == from)
    case Tick(_) => false
    case NetintRemoved(_) => true
  }

  ghost predicate EndedBefore(s: Story, k: nat)
    requires k <= |s.run|
  {
    exists j :: 0 <= j < k && EndsIt(s, j)
  }

  predicate TakenIn(s: Story, k: int) {
    k == -1 || (0 <= k < |s.run| && At(s.Source(), s.run, s.filterPreview, k).accepted)
  }

  predicate LastTakenIn(s: Story, j: int, k: nat) {
    -1 <= j < k && TakenIn(s, j) && forall l | j < l < k :: !TakenIn(s, l)
  }

  function SequenceOf(s: Story, j: int): byte
    requires -1 <= j < |s.run| && (j >= 0 ==> s.run[j].Data?)
  {
    if j == -1 then s.first.sequence else s.run[j].packet.sequence
  }

  /** What the source's record says: where it was heard last, whether it has ended, what came in last. */
  ghost predicate RecordTells(s: Story, k: nat, heard: int, taken: int)
    requires k <= |s.run|
  {
    var now := s.Before(k);
    && HeardLast(s, heard, k) && now.netint == HeardOn(s, heard)
    && (now.terminated <==> EndedBefore(s, k))
    && LastTakenIn(s, taken, k) && (taken >= 0 ==> s.run[taken].Data?) && now.sequence == SequenceOf(s, taken)
  }

  lemma PacketStep(s: Source, e: SourceEvent, filterPreview: bool)
    ensures var r := Apply(s, e, filterPreview);
      && r.source.netint == (if e.Data? && e.sampling then e.from else s.netint)
      && (r.source.terminated <==> (s.terminated || e.NetintRemoved?
            || (e.Data? && e.packet.terminated && (e.sampling || s.netint == e.from))))
      && r.source.sequence == (if r.accepted then e.packet.sequence else s.sequence)
      && (r.accepted <==> (e.Data? && (e.sampling || s.netint == e.from) && !s.terminated && !e.packet.terminated
            && InSequence(e.packet.sequence, s.sequence)))
  {
  }

  lemma HeardOnce(s: Story, i: int, j: int, k: nat)
    requires k <= |s.run| && HeardLast(s, i, k) && HeardLast(s, j, k)
    ensures i == j
  {
  }

  lemma EndsItIff(s: Story, k: nat, heard: int)
    requires k < |s.run| && HeardLast(s, heard, k)
    ensures EndsIt(s, k) <==>
      || s.run[k].NetintRemoved?
      || (s.run[k].Data? && s.run[k].packet.terminated && (s.run[k].sampling || HeardOn(s, heard) == s.run[k].from))
  {
    if s.run[k].Data? {
      forall j | HeardLast(s, j, k) ensures j == heard {
        HeardOnce(s, j, heard, k);
      }
    }
  }

  lemma RecordTellsMore(s: Story, k: nat, heard: int, taken: int)
    requires 0 < k <= |s.run| && RecordTells(s, k - 1, heard, taken)
    ensures var last := s.run[k - 1];
      RecordTells(s, k, if last.Data? && last.sampling then k - 1 else heard,
                  if TakenIn(s, k - 1) then k - 1 else taken)
  {
    PacketStep(s.Before(k - 1), s.run[k - 1], s.filterPreview);
    EndsItIff(s, k - 1, heard);
    assert EndedBefore(s, k) <==> EndedBefore(s, k - 1) || EndsIt(s, k - 1);
  }

  lemma {:induction false} RecordIsTold(s: Story, k: nat) returns (heard: int, taken: int)
    requires k <= |s.run|
    ensures RecordTells(s, k, heard, taken)
  {
    if k == 0 {
      heard, taken := -1, -1;
    } else {
      heard, taken := RecordIsTold(s, k - 1);
      RecordTellsMore(s, k, heard, taken);
      heard := if s.run[k - 1].Data? && s.run[k - 1].sampling then k - 1 else heard;
      taken := if TakenIn(s, k - 1) then k - 1 else taken;
    }
  }

  /**
   A packet is taken in exactly when it comes in a sampling period or from the interface on which the source was heard
   last, nothing has ended the source yet, and it is in sequence after the packet that was taken in last: ahead of it,
   or at least 20 behind.
   */
  lemma PacketIsTakenInIff(s: Story, k: nat)
    requires k < |s.run| && s.run[k].Data?
    ensures TakenIn(s, k) <==>
      && (s.run[k].sampling || exists j :: HeardLast(s, j, k) && HeardOn(s, j) == s.run[k].from)
      && !EndedBefore(s, k) && !s.run[k].packet.terminated
      && exists j :: LastTakenIn(s, j, k) && (j >= 0 ==> s.run[j].Data?)
           && (s.run[k].packet.sequence > SequenceOf(s, j) || s.run[k].packet.sequence as int <= SequenceOf(s, j) - 20)
  {
    var heard, taken := RecordIsTold(s, k);
    PacketStep(s.Before(k), s.run[k], s.filterPreview);
    forall j | HeardLast(s, j, k) ensures j == heard {
      HeardOnce(s, j, heard, k);
    }
    assert forall j | LastTakenIn(s, j, k) :: j == taken;
  }

  // ---- What a tick finds ----

  /** The first packet, whatever it brought, or the DMX of event `j` was the last sign of life before `k`. */
  ghost predicate LastAlive(s: Story, j: int, k: nat) {
    -1 <= j < k && (j == -1 || s.DmxAt(j)) && forall l | j < l < k :: !s.DmxAt(l)
  }

  ghost predicate TimerTells(s: Story, k: nat, alive: int)
    requires k <= |s.run|
  {
    && (s.Before(k).terminated <==> s.Before(k).packetTimer.interval == 0)
    && LastAlive(s, alive, k)
    && (!s.Before(k).terminated ==> s.Before(k).packetTimer == Timer(s.Time(alive), 2500))
  }

  lemma TimerStep(s: Source, e: SourceEvent, filterPreview: bool)
    ensures var r := Apply(s, e, filterPreview);
      if r.source.terminated
      then r.source.packetTimer.interval == 0 || (s.terminated && r.source.packetTimer == s.packetTimer)
      else
        && !s.terminated
        && r.source.packetTimer == if IsDmx(e) && r.accepted then Timer(e.now, 2500) else s.packetTimer
  {
  }

  lemma {:induction false} TimerIsTold(s: Story, k: nat) returns (alive: int)
    requires k <= |s.run|
    ensures TimerTells(s, k, alive)
  {
    if k == 0 {
      alive := -1;
    } else {
      var before := TimerIsTold(s, k - 1);
      TimerStep(s.Before(k - 1), s.run[k - 1], s.filterPreview);
      alive := if s.DmxAt(k - 1) then k - 1 else before;
    }
  }

  /** The source has ended, or 2.5 seconds have passed since its last sign of life. */
  ghost predicate GoneBy(s: Story, k: nat, now: nat)
    requires k <= |s.run|
  {
    EndedBefore(s, k) || exists j :: LastAlive(s, j, k) && now > s.Time(j) + 2500
  }

  /**
   A tick finds a source offline exactly when it is not waiting and is gone, and then as terminated exactly when it has
   ended; a waiting source is erased exactly when it is gone.
   */
  lemma TickFindsIff(s: Story, k: nat, now: nat)
    requires k <= |s.run|
    ensures var found := Classify(s.Before(k), now);
      && (found.Offline? <==> !Waits(s, k) && GoneBy(s, k, now))
      && (found.Offline? ==> (found.terminated <==> EndedBefore(s, k)))
      && (found.Erased? <==> Waits(s, k) && GoneBy(s, k, now))
      && (found.StillWaiting? <==> Waits(s, k) && !GoneBy(s, k, now))
  {
    WaitIsTold(s, k);
    var alive := TimerIsTold(s, k);
    var heard, taken := RecordIsTold(s, k);
    assert forall j | LastAlive(s, j, k) :: j == alive;
  }
}
