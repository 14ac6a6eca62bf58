/** What holds over every timed run of one tracked source. */
module SourceRuns {
  import opened Common
  import opened Interfaces
  import opened SourceTracking

  datatype SourceEvent =
    | Data(now: nat, from: Netint, packet: Packet, sampling: bool)
    | Tick(now: nat)
    | NetintRemoved(now: nat)

  function Apply(s: Source, e: SourceEvent, filterPreview: bool): Reaction {
    match e
    case Data(now, from, p, sampling) => Receive(s, now, from, p, sampling, filterPreview)
    case Tick(now) => Reaction(Ticked(s, now), false, false, false)
    case NetintRemoved(now) => Reaction(Terminate(s, now), false, false, false)
  }

  /** The source before event `k` of a run. */
  function Before(s: Source, run: seq<SourceEvent>, filterPreview: bool, k: nat): Source
    requires k <= |run|
  {
    if k == 0 then s else Apply(Before(s, run, filterPreview, k - 1), run[k - 1], filterPreview).source
  }

  function At(s: Source, run: seq<SourceEvent>, filterPreview: bool, k: nat): Reaction
    requires k < |run|
  {
    Apply(Before(s, run, filterPreview, k), run[k], filterPreview)
  }

  ghost predicate Timed(run: seq<SourceEvent>, from: nat) {
    && (forall i | 0 <= i < |run| :: from <= run[i].now)
    && (forall i, j | 0 <= i <= j < |run| :: run[i].now <= run[j].now)
  }

  predicate IsPap(e: SourceEvent) {
    e.Data? && e.packet.startCode == STARTCODE_PRIORITY
  }

  predicate IsDmx(e: SourceEvent) {
    e.Data? && e.packet.startCode == STARTCODE_DMX
  }

  predicate PapAccepted(s: Source, run: seq<SourceEvent>, filterPreview: bool, k: nat)
    requires k < |run|
  {
    IsPap(run[k]) && At(s, run, filterPreview, k).accepted
  }

  // ---- PAP notifies first ----

  /** A waiting source stays as it is until PAP is accepted or its wait timer has expired. */
  lemma {:induction false} WaitingUntilPapOrTimeout(s: Source, run: seq<SourceEvent>, filterPreview: bool, k: nat)
    requires s.state == WaitingForPap && k <= |run|
    ensures var now := Before(s, run, filterPreview, k);
      || (now.state == WaitingForPap && now.papTimer == s.papTimer)
      || (exists j :: 0 <= j < k && PapAccepted(s, run, filterPreview, j))
      || (exists j :: 0 <= j < k && Expired(s.papTimer, run[j].now))
  {
    if k > 0 {
      WaitingUntilPapOrTimeout(s, run, filterPreview, k - 1);
      var was := Before(s, run, filterPreview, k - 1);
      if was.state == WaitingForPap && was.papTimer == s.papTimer {
        if IsPap(run[k - 1]) && At(s, run, filterPreview, k - 1).accepted {
          assert PapAccepted(s, run, filterPreview, k - 1);
        } else if Expired(s.papTimer, run[k - 1].now) {
        } else {
          assert Before(s, run, filterPreview, k).state == WaitingForPap;
        }
      }
    }
  }

  /** No NULL start code packet is notified before PAP was accepted or the wait timer expired. */
  lemma NullWaitsForPapOrTimeout(s: Source, run: seq<SourceEvent>, filterPreview: bool, k: nat)
    requires s.state == WaitingForPap && Timed(run, 0) && k < |run|
    requires IsDmx(run[k]) && At(s, run, filterPreview, k).notify
    ensures Expired(s.papTimer, run[k].now) || exists j :: 0 <= j < k && PapAccepted(s, run, filterPreview, j)
  {
    WaitingUntilPapOrTimeout(s, run, filterPreview, k);
    if j :| 0 <= j < k && Expired(s.papTimer, run[j].now) {
      assert run[j].now <= run[k].now;
    }
  }

  /** As documented: a NULL start code packet is only notified after a PAP notification or the wait. */
  ghost predicate PapNotifiesFirst(s: Source, run: seq<SourceEvent>, filterPreview: bool) {
    forall k | 0 <= k < |run| && IsDmx(run[k]) && At(s, run, filterPreview, k).notify ::
      || Expired(s.papTimer, run[k].now)
      || exists j :: 0 <= j < k && IsPap(run[j]) && At(s, run, filterPreview, j).notify
  }

  /** A filtered preview PAP packet lets NULL start code data through although no PAP was ever notified. */
  lemma FilteredPapUnlocksDmx()
    ensures var s := NewSource(Netint(0, 0), Packet(STARTCODE_DMX, 0, false, false), false, 0);
      var run := [Data(10, Netint(0, 0), Packet(STARTCODE_PRIORITY, 1, true, false), false),
                  Data(20, Netint(0, 0), Packet(STARTCODE_DMX, 2, false, false), false)];
      s.state == WaitingForPap && Timed(run, 0) && !PapNotifiesFirst(s, run, true)
  {
    var s := NewSource(Netint(0, 0), Packet(STARTCODE_DMX, 0, false, false), false, 0);
    var run := [Data(10, Netint(0, 0), Packet(STARTCODE_PRIORITY, 1, true, false), false),
                Data(20, Netint(0, 0), Packet(STARTCODE_DMX, 2, false, false), false)];
    assert Before(s, run, true, 0) == s;
    var unlocked := Receive(s, 10, Netint(0, 0), run[0].packet, false, true);
    assert unlocked.source.state == HaveDmxAndPap && !unlocked.notify;
    assert At(s, run, true, 0) == unlocked && Before(s, run, true, 1) == unlocked.source;
    assert IsDmx(run[1]) && At(s, run, true, 1).notify;
  }

  lemma UnfilteredPapNotifies(s: Source, run: seq<SourceEvent>, k: nat)
    requires k < |run| && PapAccepted(s, run, false, k)
    ensures At(s, run, false, k).notify
  {
  }

  /** The documented order holds in every run exactly when the receiver does not filter preview data. */
  lemma PapNotifiesFirstIffPreviewIsShown(filterPreview: bool)
    ensures (forall s: Source, run: seq<SourceEvent> | s.state == WaitingForPap && Timed(run, 0) ::
      PapNotifiesFirst(s, run, filterPreview))
      <==> !filterPreview
  {
    FilteredPapUnlocksDmx();
    if !filterPreview {
      forall s: Source, run: seq<SourceEvent>, k | s.state == WaitingForPap && Timed(run, 0)
                      && 0 <= k < |run| && IsDmx(run[k]) && At(s, run, false, k).notify
        ensures Expired(s.papTimer, run[k].now)
             || exists j :: 0 <= j < k && IsPap(run[j]) && At(s, run, false, j).notify
      {
        NullWaitsForPapOrTimeout(s, run, false, k);
        if j :| 0 <= j < k && PapAccepted(s, run, false, j) {
          UnfilteredPapNotifies(s, run, j);
        }
      }
    }
  }

  // ---- PAP losses ----

  predicate HasPap(s: Source) {
    s.state == HavePapOnly || s.state == HaveDmxAndPap
  }

  lemma PapLossStep(s: Source, e: SourceEvent, filterPreview: bool)
    requires HasPap(Apply(s, e, filterPreview).source)
    ensures !Apply(s, e, filterPreview).papLost
    ensures (IsPap(e) && Apply(s, e, filterPreview).accepted) || HasPap(s)
  {
  }

  /** A source that has PAP has accepted some since its last loss, or had it from the start. */
  lemma {:induction false} PapSinceLastLoss(s: Source, run: seq<SourceEvent>, filterPreview: bool, k: nat)
    requires k <= |run| && HasPap(Before(s, run, filterPreview, k))
    ensures
      || (HasPap(s) && forall i | 0 <= i < k :: !At(s, run, filterPreview, i).papLost)
      || exists j :: 0 <= j < k && PapAccepted(s, run, filterPreview, j)
           && forall i | j <= i < k :: !At(s, run, filterPreview, i).papLost
  {
    if k > 0 {
      PapLossStep(Before(s, run, filterPreview, k - 1), run[k - 1], filterPreview);
      if PapAccepted(s, run, filterPreview, k - 1) {
        assert !At(s, run, filterPreview, k - 1).papLost;
      } else {
        PapSinceLastLoss(s, run, filterPreview, k - 1);
      }
    }
  }

  /** Every PAP loss is preceded by PAP accepted since the previous loss: no stream is lost twice. */
  lemma LossesNeverRepeat(s: Source, run: seq<SourceEvent>, filterPreview: bool, k: nat)
    requires k < |run| && At(s, run, filterPreview, k).papLost
    ensures
      || (HasPap(s) && forall i | 0 <= i < k :: !At(s, run, filterPreview, i).papLost)
      || exists j :: 0 <= j < k && PapAccepted(s, run, filterPreview, j)
           && forall i | j <= i < k :: !At(s, run, filterPreview, i).papLost
  {
    PapSinceLastLoss(s, run, filterPreview, k);
  }

  /** Every PAP loss comes more than the network data loss timeout after the last PAP of the source. */
  ghost predicate LossesWaitFullTimeout(first: Packet, start: nat, s: Source, run: seq<SourceEvent>,
          filterPreview: bool) {
    forall k | 0 <= k < |run| && At(s, run, filterPreview, k).papLost ::
      && (first.startCode == STARTCODE_PRIORITY ==> run[k].now > start + SOURCE_LOSS_TIMEOUT)
      && forall j | 0 <= j < k && PapAccepted(s, run, filterPreview, j) :: run[k].now > run[j].now + SOURCE_LOSS_TIMEOUT
  }

  /** While a source has PAP, its PAP timer was started by the latest of it, with the full timeout. */
  ghost predicate PapTimerCovers(first: Packet, start: nat, s: Source, run: seq<SourceEvent>, filterPreview: bool,
          k: nat)
    requires k <= |run|
  {
    var now := Before(s, run, filterPreview, k);
    HasPap(now) ==>
      && now.papTimer.interval == SOURCE_LOSS_TIMEOUT
      && (first.startCode == STARTCODE_PRIORITY ==> start <= now.papTimer.start)
      && forall j | 0 <= j < k && PapAccepted(s, run, filterPreview, j) :: run[j].now <= now.papTimer.start
  }

  /** A source only has PAP after an event if that event was accepted PAP or it had PAP already. */
  lemma PapTimerStep(s: Source, e: SourceEvent, filterPreview: bool)
    ensures var after := Apply(s, e, filterPreview).source;
      HasPap(after) ==>
        if IsPap(e) && Apply(s, e, filterPreview).accepted
        then after.papTimer == Timer(e.now, if HasPap(s) then s.papTimer.interval else SOURCE_LOSS_TIMEOUT)
        else HasPap(s) && after.papTimer == s.papTimer
  {
  }

  lemma {:induction false} PapTimerAlwaysCovers(
      first: Packet, start: nat, netint: Netint, sampling: bool, run: seq<SourceEvent>, filterPreview: bool, k: nat)
    requires Timed(run, start) && k <= |run| && (first.startCode == STARTCODE_PRIORITY ==> sampling)
    ensures PapTimerCovers(first, start, NewSource(netint, first, sampling, start), run, filterPreview, k)
  {
    if k > 0 {
      var s := NewSource(netint, first, sampling, start);
      PapTimerAlwaysCovers(first, start, netint, sampling, run, filterPreview, k - 1);
      PapTimerStep(Before(s, run, filterPreview, k - 1), run[k - 1], filterPreview);
      forall j | 0 <= j < k && HasPap(Before(s, run, filterPreview, k)) && PapAccepted(s, run, filterPreview, j)
        ensures run[j].now <= Before(s, run, filterPreview, k).papTimer.start
      {
        assert run[j].now <= run[k - 1].now;
      }
    }
  }

  /** First seen through PAP after the sampling period: the loss is declared after 1.5 seconds, not 2.5. */
  lemma EarlyPapLoss(first: Packet)
    requires first.startCode == STARTCODE_PRIORITY
    ensures var next, later := (first.sequence + 20) % 256, (first.sequence + 40) % 256;
      var s := NewSource(Netint(0, 0), first, false, 0);
      var run := [Data(100, Netint(0, 0), Packet(STARTCODE_DMX, next, false, false), false),
                  Data(1600, Netint(0, 0), Packet(STARTCODE_DMX, later, false, false), false)];
      Timed(run, 0) && At(s, run, false, 1).papLost && !LossesWaitFullTimeout(first, 0, s, run, false)
  {
    var next, later := (first.sequence + 20) % 256, (first.sequence + 40) % 256;
    var s := NewSource(Netint(0, 0), first, false, 0);
    var run := [Data(100, Netint(0, 0), Packet(STARTCODE_DMX, next, false, false), false),
                Data(1600, Netint(0, 0), Packet(STARTCODE_DMX, later, false, false), false)];
    assert InSequence(next, first.sequence) && InSequence(later, next);
    assert Before(s, run, false, 1).state == HaveDmxAndPap;
    assert At(s, run, false, 1).papLost;
  }

  lemma LossMeansExpired(s: Source, e: SourceEvent, filterPreview: bool)
    requires Apply(s, e, filterPreview).papLost
    ensures HasPap(s) && Expired(s.papTimer, e.now)
  {
  }

  /**
   The full timeout is kept in every run of a source exactly when it was not first seen through a PAP
   packet outside a sampling period.
   */
  lemma FullTimeoutIffNotFirstSeenByPap(first: Packet, sampling: bool)
    ensures (forall start: nat, netint: Netint, run: seq<SourceEvent>, filterPreview: bool | Timed(run, start) ::
        LossesWaitFullTimeout(first, start, NewSource(netint, first, sampling, start), run, filterPreview))
      <==> (first.startCode == STARTCODE_PRIORITY ==> sampling)
  {
    if first.startCode == STARTCODE_PRIORITY ==> sampling {
      forall start: nat, netint: Netint, run: seq<SourceEvent>, filterPreview: bool, k
        | Timed(run, start) && 0 <= k < |run|
          && At(NewSource(netint, first, sampling, start), run, filterPreview, k).papLost
        ensures var s := NewSource(netint, first, sampling, start);
          && (first.startCode == STARTCODE_PRIORITY ==> run[k].now > start + SOURCE_LOSS_TIMEOUT)
          && forall j | 0 <= j < k && PapAccepted(s, run, filterPreview, j) ::
               run[k].now > run[j].now + SOURCE_LOSS_TIMEOUT
      {
        var s := NewSource(netint, first, sampling, start);
        PapTimerAlwaysCovers(first, start, netint, sampling, run, filterPreview, k);
        LossMeansExpired(Before(s, run, filterPreview, k), run[k], filterPreview);
      }
    } else {
      EarlyPapLoss(first);
    }
  }

  // ---- Termination ----

  /** A terminated source stays terminated with an expired packet timer, and nothing from it is notified. */
  lemma {:induction false} TerminatedForGood(s: Source, run: seq<SourceEvent>, filterPreview: bool, k: nat)
    requires k < |run| && s.terminated && s.packetTimer.interval == 0
    ensures var now := Before(s, run, filterPreview, k);
      now.terminated && now.packetTimer.interval == 0 && now.state == s.state
    ensures var reaction := At(s, run, filterPreview, k);
      !reaction.accepted && !reaction.notify && !reaction.papLost
    ensures forall time :: var status := Classify(Before(s, run, filterPreview, k), time);
      status == if s.state == WaitingForPap then Erased else Offline(true)
  {
    if k > 0 {
      TerminatedForGood(s, run, filterPreview, k - 1);
    }
  }

  /** Being terminated, by packet or by network interface removal, is what starts that. */
  lemma TerminationStartsIt(s: Source, e: SourceEvent, filterPreview: bool)
    requires e.NetintRemoved? || (e.Data? && e.packet.terminated && (s.netint == e.from || e.sampling))
    ensures var after := Apply(s, e, filterPreview).source;
      after.terminated && after.packetTimer.interval == 0 && after.state == s.state
    ensures !Apply(s, e, filterPreview).notify
  {
  }

  /** From then on no packet is notified and every tick finds the source offline-terminated or erases it. */
  lemma NothingAfterTermination(s: Source, run: seq<SourceEvent>, filterPreview: bool, i: nat, k: nat)
    requires i < k < |run|
    requires run[i].NetintRemoved? || (run[i].Data? && run[i].packet.terminated
      && (Before(s, run, filterPreview, i).netint == run[i].from || run[i].sampling))
    ensures var reaction := At(s, run, filterPreview, k);
      !reaction.accepted && !reaction.notify && !reaction.papLost
    ensures var now := Before(s, run, filterPreview, k);
      forall time :: Classify(now, time) == if now.state == WaitingForPap then Erased else Offline(true)
  {
    var terminated := Before(s, run, filterPreview, i + 1);
    TerminationStartsIt(Before(s, run, filterPreview, i), run[i], filterPreview);
    var rest := run[i + 1..];
    SuffixOfARun(s, run, filterPreview, i + 1, k - i - 1);
    assert rest[k - i - 1] == run[k];
    TerminatedForGood(terminated, rest, filterPreview, k - i - 1);
  }

  lemma {:induction false} SuffixOfARun(s: Source, run: seq<SourceEvent>, filterPreview: bool, i: nat, k: nat)
    requires i + k <= |run|
    ensures Before(Before(s, run, filterPreview, i), run[i..], filterPreview, k) == Before(s, run, filterPreview, i + k)
  {
    if k > 0 {
      SuffixOfARun(s, run, filterPreview, i, k - 1);
    }
  }

  // ---- Online means new DMX ----

  predicate DmxAccepted(s: Source, run: seq<SourceEvent>, filterPreview: bool, k: nat)
    requires k < |run|
  {
    IsDmx(run[k]) && At(s, run, filterPreview, k).accepted
  }

  predicate FoundOnline(s: Source, run: seq<SourceEvent>, filterPreview: bool, k: nat)
    requires k < |run|
  {
    run[k].Tick? && Classify(Before(s, run, filterPreview, k), run[k].now) == Online
  }

  predicate Flagged(s: Source, run: seq<SourceEvent>, filterPreview: bool, k: nat)
    requires k <= |run|
  {
    Before(s, run, filterPreview, k).dmxSinceLastTick
  }

  /** No tick before `k`, from `from` on, has found the source online. */
  ghost predicate NotOnlineSince(s: Source, run: seq<SourceEvent>, filterPreview: bool, from: nat, k: nat)
    requires k <= |run|
  {
    forall i | from <= i < k :: !FoundOnline(s, run, filterPreview, i)
  }

  /** DMX was accepted, and no tick since has found the source online. */
  ghost predicate DmxSinceOnline(s: Source, run: seq<SourceEvent>, filterPreview: bool, k: nat)
    requires k <= |run|
  {
    exists j :: 0 <= j < k && DmxAccepted(s, run, filterPreview, j) && NotOnlineSince(s, run, filterPreview, j, k)
  }

  lemma FlagStep(s: Source, e: SourceEvent, filterPreview: bool)
    ensures Apply(s, e, filterPreview).source.dmxSinceLastTick <==>
      || (IsDmx(e) && Apply(s, e, filterPreview).accepted)
      || (s.dmxSinceLastTick && !(e.Tick? && Classify(s, e.now) == Online))
  {
  }

  lemma DmxSinceOnlineStep(s: Source, run: seq<SourceEvent>, filterPreview: bool, k: nat)
    requires 0 < k <= |run|
    ensures DmxSinceOnline(s, run, filterPreview, k) <==>
      || DmxAccepted(s, run, filterPreview, k - 1)
      || (DmxSinceOnline(s, run, filterPreview, k - 1) && !FoundOnline(s, run, filterPreview, k - 1))
  {
    if DmxAccepted(s, run, filterPreview, k - 1) {
      assert NotOnlineSince(s, run, filterPreview, k - 1, k);
    } else if DmxSinceOnline(s, run, filterPreview, k - 1) && !FoundOnline(s, run, filterPreview, k - 1) {
      var j :| 0 <= j < k - 1 && DmxAccepted(s, run, filterPreview, j)
        && NotOnlineSince(s, run, filterPreview, j, k - 1);
      assert NotOnlineSince(s, run, filterPreview, j, k);
    }
    if DmxSinceOnline(s, run, filterPreview, k) && !DmxAccepted(s, run, filterPreview, k - 1) {
      var j :| 0 <= j < k && DmxAccepted(s, run, filterPreview, j) && NotOnlineSince(s, run, filterPreview, j, k);
      assert NotOnlineSince(s, run, filterPreview, j, k - 1);
    }
  }

  /**
   The flag behind the online list is set exactly when DMX was accepted since the last tick that found the
   source online, or the source started with the flag and no tick has found it online yet.
   */
  lemma {:induction false} FlagMeansNewDmx(s: Source, run: seq<SourceEvent>, filterPreview: bool, k: nat)
    requires k <= |run|
    ensures Flagged(s, run, filterPreview, k) <==>
      || DmxSinceOnline(s, run, filterPreview, k)
      || (s.dmxSinceLastTick && NotOnlineSince(s, run, filterPreview, 0, k))
  {
    if k > 0 {
      FlagMeansNewDmx(s, run, filterPreview, k - 1);
      FlagStep(Before(s, run, filterPreview, k - 1), run[k - 1], filterPreview);
      DmxSinceOnlineStep(s, run, filterPreview, k);
      assert NotOnlineSince(s, run, filterPreview, 0, k)
        <==> NotOnlineSince(s, run, filterPreview, 0, k - 1) && !FoundOnline(s, run, filterPreview, k - 1);
    } else {
      assert NotOnlineSince(s, run, filterPreview, 0, k);
    }
  }

  /** As documented, a source is online only through DMX since the tick that last found it online. */
  ghost predicate OnlineMeansDmx(first: Packet, s: Source, run: seq<SourceEvent>, filterPreview: bool) {
    forall k | 0 <= k < |run| && FoundOnline(s, run, filterPreview, k) ::
      || DmxSinceOnline(s, run, filterPreview, k)
      || (first.startCode == STARTCODE_DMX && NotOnlineSince(s, run, filterPreview, 0, k))
  }

  /** A new source that has sent no DMX is online at its first tick in time, and at that one only. */
  lemma OnlineWithoutDmxIff(netint: Netint, first: Packet, sampling: bool, start: nat, run: seq<SourceEvent>,
          filterPreview: bool, k: nat)
    requires k < |run| && run[k].Tick?
    requires !DmxSinceOnline(NewSource(netint, first, sampling, start), run, filterPreview, k)
    ensures var s := NewSource(netint, first, sampling, start);
      var now := Before(s, run, filterPreview, k);
      FoundOnline(s, run, filterPreview, k) <==>
        now.state != WaitingForPap && !Expired(now.packetTimer, run[k].now)
          && NotOnlineSince(s, run, filterPreview, 0, k)
  {
    FlagMeansNewDmx(NewSource(netint, first, sampling, start), run, filterPreview, k);
  }

  /** A source first seen by PAP is online at its first tick although it never sent DMX. */
  lemma PapOnlySourceStartsOnline(netint: Netint, first: Packet, sampling: bool, start: nat, filterPreview: bool)
    requires first.startCode == STARTCODE_PRIORITY
    ensures !OnlineMeansDmx(first, NewSource(netint, first, sampling, start), [Tick(start)], filterPreview)
  {
    var s, run := NewSource(netint, first, sampling, start), [Tick(start)];
    assert Before(s, run, filterPreview, 0) == s;
    assert FoundOnline(s, run, filterPreview, 0) && !DmxSinceOnline(s, run, filterPreview, 0);
  }

  /** In every run of a new source, online means DMX exactly when the source was first seen through DMX. */
  lemma OnlineMeansDmxIffSeenByDmx(first: Packet, sampling: bool)
    requires first.startCode == STARTCODE_DMX || first.startCode == STARTCODE_PRIORITY
    ensures (forall netint: Netint, start: nat, run: seq<SourceEvent>, filterPreview: bool ::
        OnlineMeansDmx(first, NewSource(netint, first, sampling, start), run, filterPreview))
      <==> first.startCode == STARTCODE_DMX
  {
    if first.startCode == STARTCODE_DMX {
      forall netint: Netint, start: nat, run: seq<SourceEvent>, filterPreview: bool, k
        | 0 <= k < |run| && FoundOnline(NewSource(netint, first, sampling, start), run, filterPreview, k)
        ensures var s := NewSource(netint, first, sampling, start);
          DmxSinceOnline(s, run, filterPreview, k) || NotOnlineSince(s, run, filterPreview, 0, k)
      {
        FlagMeansNewDmx(NewSource(netint, first, sampling, start), run, filterPreview, k);
      }
    } else {
      PapOnlySourceStartsOnline(Netint(0, 0), first, sampling, 0, false);
    }
  }
}
