/**
 When is a source reported lost before all other sources tracked at its loss have been verified? The
 documentation says never; here is exactly when.
 */
module LossWaiting {
  import opened Common
  import opened Interfaces
  import opened SourceTracking
  import opened StatusLists
  import opened SourceLoss
  import opened LossRuns
  import opened LossSets
  import M = ReceiverModel
  import R = ReceiverRuns
  import Runs
  import SourceRuns

  function TimeOf(e: Event): nat {
    if e.Ticked? then e.now else e.event.now
  }

  // ---- What holds in every reachable state ----

  /** Terminated sources are timed out, and a source waiting for PAP has unused DMX. */
  predicate SourceRegular(s: Source) {
    (s.terminated ==> s.packetTimer.interval == 0) && (s.state == WaitingForPap ==> s.dmxSinceLastTick)
  }

  /** A tick at or after `clock` finds the source online or offline. */
  predicate Quiet(s: Source, clock: nat) {
    s.dmxSinceLastTick || Expired(s.packetTimer, clock)
  }

  ghost predicate SourcesRegular(rx: M.Receiver) {
    forall h | h in rx.sources :: SourceRegular(rx.sources[h])
  }

  /** A source held offline has shown up again, or is still timed out. */
  ghost predicate HeldAreQuiet(t: Tracking, clock: nat) {
    forall h: Handle | HeldOffline(t.sets, h) :: h in t.rx.sources && Quiet(t.rx.sources[h], clock)
  }

  ghost predicate Regular(t: Tracking, clock: nat) {
    HoldsTracked(t) && R.SamplingSound(t.rx) && SourcesRegular(t.rx) && HeldAreQuiet(t, clock)
  }

  lemma SourceEventKeepsRegular(s: Source, e: SourceRuns.SourceEvent, filterPreview: bool, clock: nat)
    requires SourceRegular(s) && clock <= e.now
    ensures var after := SourceRuns.Apply(s, e, filterPreview).source;
      && SourceRegular(after)
      && (Quiet(s, clock) && !(e.Tick? && Classify(s, e.now) == Online) ==> Quiet(after, e.now))
  {
  }

  lemma SourceAfter(rx: M.Receiver, e: M.Event, h: Handle, clock: nat)
    requires h in rx.sources && h in M.Step(rx, e).0.sources && SourceRegular(rx.sources[h]) && clock <= e.now
    ensures var after := M.Step(rx, e).0.sources[h];
      && SourceRegular(after)
      && (Quiet(rx.sources[h], clock) && !(e.Tick? && Classify(rx.sources[h], e.now) == Online) ==> Quiet(after, e.now))
  {
    R.SourceStep(rx, e, h);
    var part := R.SourcePart(rx, e, h);
    if part != [] {
      SourceEventKeepsRegular(rx.sources[h], part[0], rx.settings.filterPreview, clock);
    }
  }

  lemma StepKeepsSourcesRegular(rx: M.Receiver, e: M.Event)
    requires SourcesRegular(rx)
    ensures SourcesRegular(M.Step(rx, e).0)
  {
    var after := M.Step(rx, e).0;
    forall h | h in after.sources ensures SourceRegular(after.sources[h]) {
      if h in rx.sources {
        SourceAfter(rx, e, h, 0);
      }
    }
  }

  lemma StepKeepsSamplingSound(rx: M.Receiver, e: M.Event)
    requires R.SamplingSound(rx)
    ensures R.SamplingSound(M.Step(rx, e).0)
  {
  }

  lemma TickKeepsHeldQuiet(t: Tracking, e: Event, clock: nat)
    requires Regular(t, clock) && Possible(t, e) && e.Ticked? && clock <= e.now
    ensures HeldAreQuiet(Advanced(t, e), e.now)
  {
    var after := Advanced(t, e);
    TickKeepsTracked(t, e);
    forall h: Handle | HeldOffline(after.sets, h) ensures h in after.rx.sources && Quiet(after.rx.sources[h], e.now) {
      HeldStep(t, e, h);
      assert Covers(after.sets, h);
      assert h in t.rx.sources;
      OnlineExactly(e.lists, t.rx.sources, e.now, h);
      SourceAfter(t.rx, M.Tick(e.now, Handles(Report(t, e))), h, clock);
    }
  }

  lemma OtherKeepsHeldQuiet(t: Tracking, e: Event, clock: nat)
    requires Regular(t, clock) && Possible(t, e) && e.Other? && clock <= e.event.now
    ensures HeldAreQuiet(Advanced(t, e), e.event.now)
  {
    var after := Advanced(t, e);
    StepKeepsTracked(t, e);
    forall h: Handle | HeldOffline(after.sets, h)
      ensures h in after.rx.sources && Quiet(after.rx.sources[h], e.event.now)
    {
      assert Covers(after.sets, h);
      SourceAfter(t.rx, e.event, h, clock);
    }
  }

  lemma StepKeepsRegular(t: Tracking, e: Event, clock: nat)
    requires Regular(t, clock) && Possible(t, e) && clock <= TimeOf(e)
    ensures Regular(Advanced(t, e), TimeOf(e))
  {
    StepKeepsTracked(t, e);
    var event := ReceiverEvent(t, e);
    StepKeepsSourcesRegular(t.rx, event);
    StepKeepsSamplingSound(t.rx, event);
    if e.Ticked? {
      TickKeepsHeldQuiet(t, e, clock);
    } else {
      OtherKeepsHeldQuiet(t, e, clock);
    }
  }

  ghost predicate TimedRun(run: seq<Event>) {
    forall i, j | 0 <= i <= j < |run| :: TimeOf(run[i]) <= TimeOf(run[j])
  }

  function ClockBefore(run: seq<Event>, k: nat, start: nat): nat
    requires k <= |run|
  {
    if k == 0 then start else TimeOf(run[k - 1])
  }

  lemma {:induction false} RunStaysRegular(t: Tracking, start: nat, run: seq<Event>, k: nat)
    requires Regular(t, start) && PossibleRun(t, run) && TimedRun(run) && k <= |run|
    requires run != [] ==> start <= TimeOf(run[0])
    ensures Regular(Before(t, run, k), ClockBefore(run, k, start))
  {
    if k > 0 {
      RunStaysRegular(t, start, run, k - 1);
      assert PossibleAt(t, run, k - 1);
      StepKeepsRegular(Before(t, run, k - 1), run[k - 1], ClockBefore(run, k - 1, start));
    }
  }

  lemma CreatedIsRegular(settings: M.Settings, now: nat, listed: seq<Interface>)
    ensures Regular(Created(settings, now, listed), now)
  {
  }

  // ---- Silence ----

  /** A set opened at `now` is reported from this time on, at the earliest. */
  function EarliestReport(now: nat, wait: nat): (t: nat)
    ensures forall k: nat | k >= now :: Expired(Timer(now, wait), k) <==> k >= t
  {
    if wait == 0 then now else now + wait + 1
  }

  /** Neither online, nor offline, nor timed out while waiting. */
  predicate Unverified(s: Source, now: nat) {
    Classify(s, now) == Unknown || Classify(s, now) == StillWaiting
  }

  /**
   The source, unverified at `now`, can still be so at `limit`: its packet timer lasts that long, or
   it is waiting for PAP and DMX restarts that timer in time without ending the wait.
   */
  predicate CanStaySilent(s: Source, now: nat, limit: nat) {
    || !Expired(s.packetTimer, limit)
    || (s.state == WaitingForPap
        && exists t :: now <= t <= limit && !Expired(s.papTimer, t) && limit <= t + SOURCE_LOSS_TIMEOUT)
  }

  lemma SilentEarlier(s: Source, now: nat, limit: nat, later: nat)
    requires now <= limit <= later && CanStaySilent(s, now, later)
    ensures CanStaySilent(s, now, limit)
  {
    if Expired(s.packetTimer, limit) {
      var t :| now <= t <= later && !Expired(s.papTimer, t) && later <= t + SOURCE_LOSS_TIMEOUT;
      var sooner := if t <= limit then t else limit;
      assert now <= sooner <= limit && !Expired(s.papTimer, sooner) && limit <= sooner + SOURCE_LOSS_TIMEOUT;
    }
  }

  /** The packet timer was restarted while the source went on waiting for PAP. */
  predicate Restarted(was: Source, s: Source, now: nat, clock: nat) {
    exists t :: now <= t <= clock && !Expired(was.papTimer, t) && s.packetTimer == Timer(t, SOURCE_LOSS_TIMEOUT)
  }

  /** What an unverified source has become by `clock` if no tick has found it since. */
  predicate StayedSilent(was: Source, s: Source, now: nat, clock: nat) {
    var kept := s.packetTimer == was.packetTimer || s.packetTimer.interval == 0;
    || (s.state != WaitingForPap && s.dmxSinceLastTick)
    || (was.state != WaitingForPap && s.state != WaitingForPap && kept)
    || (was.state == WaitingForPap && s.state == WaitingForPap && s.papTimer == was.papTimer
        && (kept || Restarted(was, s, now, clock)))
  }

  lemma SilentLater(was: Source, s: Source, now: nat, clock: nat, later: nat)
    requires StayedSilent(was, s, now, clock) && clock <= later
    ensures StayedSilent(was, s, now, later)
  {
    if Restarted(was, s, now, clock) {
      var t :| now <= t <= clock && !Expired(was.papTimer, t) && s.packetTimer == Timer(t, SOURCE_LOSS_TIMEOUT);
      assert now <= t <= later && !Expired(was.papTimer, t);
      assert Restarted(was, s, now, later);
    }
  }

  lemma SilentStep(was: Source, s: Source, e: SourceRuns.SourceEvent, filterPreview: bool, now: nat, clock: nat)
    requires StayedSilent(was, s, now, clock) && SourceRegular(s) && now <= clock <= e.now
    requires e.Tick? ==> Unverified(s, e.now)
    ensures StayedSilent(was, SourceRuns.Apply(s, e, filterPreview).source, now, e.now)
  {
    var after := SourceRuns.Apply(s, e, filterPreview).source;
    SilentLater(was, s, now, clock, e.now);
    if s.state == WaitingForPap && after.state == WaitingForPap
      && after.packetTimer == Timer(e.now, SOURCE_LOSS_TIMEOUT)
       && !Expired(s.papTimer, e.now) && was.state == WaitingForPap {
      var t := e.now;
      assert now <= t <= e.now && !Expired(was.papTimer, t);
      assert Restarted(was, after, now, e.now);
    }
  }

  lemma SilentAtTick(was: Source, s: Source, now: nat, clock: nat, limit: nat)
    requires StayedSilent(was, s, now, clock) && now <= clock <= limit && Unverified(s, limit)
    ensures CanStaySilent(was, now, limit)
  {
    if Expired(was.packetTimer, limit) {
      assert Restarted(was, s, now, clock);
      var t :| now <= t <= clock && !Expired(was.papTimer, t) && s.packetTimer == Timer(t, SOURCE_LOSS_TIMEOUT);
      assert now <= t <= limit && !Expired(was.papTimer, t) && limit <= t + SOURCE_LOSS_TIMEOUT;
    }
  }

  // ---- The promise ----

  /** By event `k` a tick has found the source online or offline, or it is tracked no longer. */
  ghost predicate Accounted(s: Tracking, run: seq<Event>, k: nat, u: Handle)
    requires k < |run|
  {
    || FoundOnlineIn(run, 0, k + 1, u)
    || FoundOfflineIn(run, 0, k + 1, u)
    || exists j :: 0 <= j <= k + 1 && IsGone(s, run, j, u)
  }

  ghost predicate IsGone(s: Tracking, run: seq<Event>, j: nat, u: Handle)
    requires j <= |run|
  {
    u !in Before(s, run, j).rx.sources
  }

  /** A run that goes on from the tick `e`. */
  ghost predicate GoesOn(s: Tracking, e: Event, run: seq<Event>) {
    run != [] && run[0] == e && PossibleRun(s, run) && TimedRun(run)
  }

  /** However the run goes on, the set opened at tick `e` is not reported before everybody is accounted for. */
  ghost predicate WaitsForAll(s: Tracking, e: Event, i: nat) {
    forall run: seq<Event>, k: nat, u: Handle | GoesOn(s, e, run) && ReportsSet(s, run, 0, i, k) && u in s.rx.sources ::
      Accounted(s, run, k, u)
  }

  // ---- Why an unaccounted source could stay silent ----

  lemma NotFoundAt(s: Tracking, run: seq<Event>, k: nat, u: Handle, j: nat)
    requires k < |run| && !Accounted(s, run, k, u) && j <= k
    ensures u in Before(s, run, j).rx.sources && u in Before(s, run, j + 1).rx.sources
    ensures run[j].Ticked? ==> u !in run[j].lists.online && u !in Handles(run[j].lists.offline)
  {
    assert !IsGone(s, run, j, u) && !IsGone(s, run, j + 1, u);
  }

  lemma UnlistedIsUnverified(t: Tracking, e: Event, u: Handle)
    requires e.Ticked? && Possible(t, e) && u in t.rx.sources && u in Advanced(t, e).rx.sources
    requires u !in e.lists.online && u !in Handles(e.lists.offline)
    ensures Unverified(t.rx.sources[u], e.now) && Advanced(t, e).rx.sources[u] == t.rx.sources[u]
  {
    OnlineExactly(e.lists, t.rx.sources, e.now, u);
  }

  lemma StaysSilentOnce(t: Tracking, e: Event, u: Handle, was: Source, now: nat, clock: nat)
    requires Possible(t, e) && u in t.rx.sources && u in Advanced(t, e).rx.sources && SourceRegular(t.rx.sources[u])
    requires e.Ticked? ==> u !in e.lists.online && u !in Handles(e.lists.offline)
    requires StayedSilent(was, t.rx.sources[u], now, clock) && now <= clock <= TimeOf(e)
    ensures StayedSilent(was, Advanced(t, e).rx.sources[u], now, TimeOf(e))
  {
    var event := ReceiverEvent(t, e);
    if e.Ticked? {
      UnlistedIsUnverified(t, e, u);
    }
    R.SourceStep(t.rx, event, u);
    var part := R.SourcePart(t.rx, event, u);
    SilentLater(was, t.rx.sources[u], now, clock, TimeOf(e));
    if part != [] {
      SilentStep(was, t.rx.sources[u], part[0], t.rx.settings.filterPreview, now, clock);
    }
  }

  lemma {:induction false} StaysSilent(s: Tracking, start: nat, run: seq<Event>, k: nat, u: Handle, j: nat)
    requires Regular(s, start) && PossibleRun(s, run) && TimedRun(run) && run != [] && start <= TimeOf(run[0])
    requires k < |run| && !Accounted(s, run, k, u) && 0 < j <= k && run[0].Ticked?
    ensures u in s.rx.sources && u in Before(s, run, j).rx.sources
    ensures StayedSilent(s.rx.sources[u], Before(s, run, j).rx.sources[u], run[0].now, TimeOf(run[j - 1]))
  {
    NotFoundAt(s, run, k, u, j - 1);
    assert PossibleAt(s, run, j - 1);
    if j == 1 {
      UnlistedIsUnverified(s, run[0], u);
    } else {
      StaysSilent(s, start, run, k, u, j - 1);
      NotFoundAt(s, run, k, u, 0);
      RunStaysRegular(s, start, run, j - 1);
      StaysSilentOnce(Before(s, run, j - 1), run[j - 1], u, s.rx.sources[u], run[0].now, TimeOf(run[j - 2]));
    }
  }

  /** At the report, an unaccounted source has stayed silent, and it was not in the set. */
  lemma UnaccountedWasSilent(s: Tracking, start: nat, run: seq<Event>, i: nat, k: nat, u: Handle)
    requires Regular(s, start) && PossibleRun(s, run) && TimedRun(run) && run != [] && start <= TimeOf(run[0])
    requires ReportsSet(s, run, 0, i, k) && u in s.rx.sources && !Accounted(s, run, k, u)
    ensures Unverified(s.rx.sources[u], run[0].now) && CanStaySilent(s.rx.sources[u], run[0].now, run[k].now)
  {
    NotFoundAt(s, run, k, u, 0);
    NotFoundAt(s, run, k, u, k);
    assert PossibleAt(s, run, 0) && PossibleAt(s, run, k);
    UnlistedIsUnverified(s, run[0], u);
    UnlistedIsUnverified(Before(s, run, k), run[k], u);
    if k > 0 {
      StaysSilent(s, start, run, k, u, k);
      SilentAtTick(s.rx.sources[u], Before(s, run, k).rx.sources[u], run[0].now, TimeOf(run[k - 1]), run[k].now);
    } else {
      SilentAtTick(s.rx.sources[u], s.rx.sources[u], run[0].now, run[0].now, run[0].now);
    }
  }

  lemma MembersAreAccounted(s: Tracking, run: seq<Event>, i: nat, k: nat, u: Handle)
    requires PossibleRun(s, run) && ReportsSet(s, run, 0, i, k) && Opens(s, run[0], i)
    requires u in OpenedBy(s, run[0], i).sources
    ensures Accounted(s, run, k, u)
  {
    assert Before(s, run, 0) == s;
    var e := run[0];
    if u == e.lists.offline[i].handle {
      assert Handles(e.lists.offline)[i] == u;
      assert FoundOfflineIn(run, 0, k + 1, u);
    } else {
      assert u in e.lists.unknown && !Covers(FoundBy(s, e, i), u);
      ReportWaitsForItsSet(s, run, 0, i, k, u);
      FoundInLonger(run, 1, k + 1, u);
    }
  }

  lemma FoundInLonger(run: seq<Event>, from: nat, until: nat, u: Handle)
    requires until <= |run|
    ensures FoundOnlineIn(run, from, until, u) ==> FoundOnlineIn(run, 0, until, u)
    ensures FoundOfflineIn(run, from, until, u) ==> FoundOfflineIn(run, 0, until, u)
  {
    if t :| from <= t < until && run[t].Ticked? && u in run[t].lists.online {
      assert 0 <= t < until;
    }
    if t :| from <= t < until && run[t].Ticked? && u in Handles(run[t].lists.offline) {
      assert 0 <= t < until;
    }
  }

  lemma ReportIsNotEarly(s: Tracking, run: seq<Event>, i: nat, k: nat)
    requires ReportsSet(s, run, 0, i, k) && TimedRun(run)
    ensures EarliestReport(run[0].now, run[0].wait) <= run[k].now
  {
    AgedSetExactly(OpenedBy(Before(s, run, 0), run[0], i), run, 1, k + 1, 0);
    assert TimeOf(run[0]) <= TimeOf(run[k]);
  }

  /** Every source outside the new set that no tick has verified yet is sure to be found before a report. */
  ghost predicate OthersSureToShow(s: Tracking, e: Event, i: nat)
    requires Opens(s, e, i)
  {
    forall u | u in s.rx.sources && Unverified(s.rx.sources[u], e.now) && u !in OpenedBy(s, e, i).sources ::
      !CanStaySilent(s.rx.sources[u], e.now, EarliestReport(e.now, e.wait))
  }

  lemma SureToShowSuffices(s: Tracking, start: nat, e: Event, i: nat)
    requires Regular(s, start) && Possible(s, e) && Opens(s, e, i) && start <= e.now && OthersSureToShow(s, e, i)
    ensures WaitsForAll(s, e, i)
  {
    forall run: seq<Event>, k: nat, u: Handle | GoesOn(s, e, run) && ReportsSet(s, run, 0, i, k) && u in s.rx.sources
      ensures Accounted(s, run, k, u)
    {
      AllAreAccounted(s, start, run, i, k, u);
    }
  }

  lemma AllAreAccounted(s: Tracking, start: nat, run: seq<Event>, i: nat, k: nat, u: Handle)
    requires Regular(s, start) && run != [] && GoesOn(s, run[0], run) && start <= TimeOf(run[0])
    requires Opens(s, run[0], i) && OthersSureToShow(s, run[0], i)
    requires ReportsSet(s, run, 0, i, k) && u in s.rx.sources
    ensures Accounted(s, run, k, u)
  {
    if !Accounted(s, run, k, u) {
      UnaccountedWasSilent(s, start, run, i, k, u);
      ReportIsNotEarly(s, run, i, k);
      SilentEarlier(s.rx.sources[u], run[0].now, EarliestReport(run[0].now, run[0].wait), run[k].now);
      if u in OpenedBy(s, run[0], i).sources {
        MembersAreAccounted(s, run, i, k, u);
      }
    }
  }

  // ---- How a silent source is left behind ----

  function NextSequence(sequence: byte): byte {
    (sequence + 1) % 256
  }

  lemma {:induction false} BoundedIndex(netints: set<Netint>) returns (bound: nat)
    ensures forall n | n in netints :: n.index < bound
  {
    if n :| n in netints {
      var rest := BoundedIndex(netints - {n});
      bound := if n.index < rest then rest else n.index + 1;
      assert forall other | other in netints :: other == n || other in netints - {n};
    } else {
      bound := 0;
    }
  }

  /** There is always an interface on which a tracked source can be heard. */
  lemma HeardFrom(rx: M.Receiver, h: Handle) returns (from: Netint)
    requires R.SamplingSound(rx) && h in rx.sources
    ensures !M.IsFuture(rx, from) && (from == rx.sources[h].netint || rx.sampling.active)
  {
    if rx.sampling.active {
      var bound := BoundedIndex(rx.sampling.netints.Keys);
      from := Netint(0, bound);
      assert from !in rx.sampling.netints.Keys;
    } else {
      from := rx.sources[h].netint;
    }
  }

  function DmxFrom(rx: M.Receiver, h: Handle, from: Netint, now: nat): M.Event
    requires h in rx.sources
  {
    M.Data(now, h, from, Packet(STARTCODE_DMX, NextSequence(rx.sources[h].sequence), false, false))
  }

  /** New DMX: the packet timer runs afresh, and the next tick finds a source online that does not wait for PAP. */
  predicate HasNewDmx(s: Source, now: nat) {
    s.dmxSinceLastTick && s.packetTimer == Timer(now, SOURCE_LOSS_TIMEOUT)
  }

  lemma DmxIsAccepted(s: Source, now: nat, from: Netint, sampling: bool, filterPreview: bool)
    requires !s.terminated && (from == s.netint || sampling)
    ensures var p := Packet(STARTCODE_DMX, NextSequence(s.sequence), false, false);
      var after := Receive(s, now, from, p, sampling, filterPreview).source;
      && HasNewDmx(after, now) && !after.terminated
      && (s.state != WaitingForPap ==> after.state != WaitingForPap)
      && (s.state == WaitingForPap && !Expired(s.papTimer, now) ==> after.state == WaitingForPap)
  {
  }

  /** The same receiver, except for one source. */
  ghost predicate OnlyChanges(rx: M.Receiver, after: M.Receiver, h: Handle)
    requires h in rx.sources
  {
    h in after.sources && after == rx.(sources := rx.sources[h := after.sources[h]])
  }

  lemma Heard(t: Tracking, h: Handle, now: nat) returns (e: Event)
    requires R.SamplingSound(t.rx) && h in t.rx.sources && !t.rx.sources[h].terminated
    ensures e.Other? && e.event.Data? && e.event.now == now
    ensures var after, s := Advanced(t, e), t.rx.sources[h];
      && after.sets == t.sets && OnlyChanges(t.rx, after.rx, h)
      && HasNewDmx(after.rx.sources[h], now) && !after.rx.sources[h].terminated
      && (s.state != WaitingForPap ==> after.rx.sources[h].state != WaitingForPap)
      && (s.state == WaitingForPap && !Expired(s.papTimer, now) ==> after.rx.sources[h].state == WaitingForPap)
  {
    var from := HeardFrom(t.rx, h);
    e := Other(DmxFrom(t.rx, h, from, now));
    DmxIsAccepted(t.rx.sources[h], now, from, t.rx.sampling.active, t.rx.settings.filterPreview);
  }

  // ---- Building a run ----

  lemma PrefixStays(s: Tracking, run: seq<Event>, e: Event, k: nat)
    requires k <= |run|
    ensures Before(s, run + [e], k) == Before(s, run, k)
  {
    Runs.PrefixStays(Advanced, s, run, [e], k);
  }

  /** One event more at the end of a run. */
  lemma Extended(s: Tracking, run: seq<Event>, e: Event)
    requires PossibleRun(s, run) && TimedRun(run) && Possible(Before(s, run, |run|), e)
    requires run != [] ==> TimeOf(run[|run| - 1]) <= TimeOf(e)
    ensures PossibleRun(s, run + [e]) && TimedRun(run + [e])
    ensures Before(s, run + [e], |run| + 1) == Advanced(Before(s, run, |run|), e)
  {
    PrefixStays(s, run, e, |run|);
    assert (run + [e])[|run|] == e;
    forall k | 0 <= k < |run + [e]| ensures PossibleAt(s, run + [e], k) {
      PossibleInPrefix(s, run, e, k);
    }
  }

  lemma PossibleInPrefix(s: Tracking, run: seq<Event>, e: Event, k: nat)
    requires k <= |run| && (if k < |run| then PossibleAt(s, run, k) else Possible(Before(s, run, |run|), e))
    ensures PossibleAt(s, run + [e], k)
  {
    PrefixStays(s, run, e, k);
    assert (run + [e])[k] == if k < |run| then run[k] else e;
  }

  /** The source is tracked all along, and no tick after the first event finds anybody. */
  ghost predicate Quietly(s: Tracking, run: seq<Event>, u: Handle) {
    && (forall j | 1 <= j <= |run| :: !IsGone(s, run, j, u))
    && forall j | 1 <= j < |run| :: run[j].Other? && run[j].event.Data?
  }

  ghost predicate QuietUntil(s: Tracking, run: seq<Event>, clock: nat, u: Handle) {
    run != [] && PossibleRun(s, run) && TimedRun(run) && TimeOf(run[|run| - 1]) <= clock && Quietly(s, run, u)
  }

  lemma QuietlyExtended(s: Tracking, run: seq<Event>, e: Event, u: Handle)
    requires run != [] && Quietly(s, run, u) && e.Other? && e.event.Data?
    requires u in Advanced(Before(s, run, |run|), e).rx.sources
    ensures Quietly(s, run + [e], u)
  {
    forall j | 1 <= j <= |run| + 1 ensures !IsGone(s, run + [e], j, u) {
      PrefixStays(s, run, e, if j <= |run| then j else |run|);
      assert j <= |run| ==> !IsGone(s, run, j, u);
    }
  }

  lemma QuietOneLonger(s: Tracking, run: seq<Event>, e: Event, clock: nat, u: Handle)
    requires QuietUntil(s, run, clock, u) && e.Other? && e.event.Data? && clock <= e.event.now
    requires u in Advanced(Before(s, run, |run|), e).rx.sources
    ensures QuietUntil(s, run + [e], e.event.now, u)
    ensures Before(s, run + [e], |run + [e]|) == Advanced(Before(s, run, |run|), e)
  {
    Extended(s, run, e);
    QuietlyExtended(s, run, e, u);
  }

  /** Where the run stands: everything as at `t`, except that the sources in `fed` have new DMX. */
  ghost predicate StandsAt(t: Tracking, now: Tracking, fed: set<Handle>, clock: nat) {
    && R.SamplingSound(now.rx) && now.rx.sources.Keys == t.rx.sources.Keys
    && (forall h | h in t.rx.sources && h !in fed :: now.rx.sources[h] == t.rx.sources[h])
    && forall h | h in fed && h in t.rx.sources ::
         now.rx.sources[h].state != WaitingForPap && HasNewDmx(now.rx.sources[h], clock)
  }

  ghost predicate CanBeFed(t: Tracking, handles: set<Handle>) {
    forall h | h in handles :: h in t.rx.sources && !t.rx.sources[h].terminated
      && t.rx.sources[h].state != WaitingForPap
  }

  lemma StandsOneFurther(t: Tracking, now: Tracking, after: Tracking, fed: set<Handle>, last: Handle, clock: nat)
    requires StandsAt(t, now, fed, clock) && last in now.rx.sources
    requires OnlyChanges(now.rx, after.rx, last) && HasNewDmx(after.rx.sources[last], clock)
    requires after.rx.sources[last].state != WaitingForPap
    ensures StandsAt(t, after, fed + {last}, clock)
  {
  }

  /** The longer run has quietly given new DMX to everybody in `fed`. */
  ghost predicate Feeds(s: Tracking, run: seq<Event>, longer: seq<Event>, fed: set<Handle>, clock: nat, u: Handle) {
    run <= longer && QuietUntil(s, longer, clock, u)
      && StandsAt(Before(s, run, |run|), Before(s, longer, |longer|), fed, clock)
  }

  /** Everybody in `handles` sends DMX at the same time. */
  lemma {:induction false} FeedAll(s: Tracking, run: seq<Event>, handles: set<Handle>, clock: nat, u: Handle)
    returns (longer: seq<Event>)
    requires QuietUntil(s, run, clock, u) && u in Before(s, run, |run|).rx.sources && u !in handles
    requires R.SamplingSound(Before(s, run, |run|).rx) && CanBeFed(Before(s, run, |run|), handles)
    ensures Feeds(s, run, longer, handles, clock, u)
  {
    if h :| h in handles {
      CanBeFedApart(Before(s, run, |run|), handles, h);
      var fed := FeedAll(s, run, handles - {h}, clock, u);
      longer := FeedOne(s, run, fed, handles - {h}, h, clock, u);
    } else {
      longer := run;
      assert handles == {};
      NobodyFed(Before(s, run, |run|), clock);
    }
  }

  lemma NobodyFed(t: Tracking, clock: nat)
    requires R.SamplingSound(t.rx)
    ensures StandsAt(t, t, {}, clock)
  {
  }

  lemma CanBeFedApart(t: Tracking, handles: set<Handle>, h: Handle)
    requires CanBeFed(t, handles) && h in handles
    ensures CanBeFed(t, handles - {h}) && CanBeFed(t, {h}) && handles - {h} + {h} == handles
  {
  }

  lemma FeedOne(s: Tracking, run: seq<Event>, sofar: seq<Event>, fed: set<Handle>, last: Handle, clock: nat, u: Handle)
    returns (longer: seq<Event>)
    requires Feeds(s, run, sofar, fed, clock, u) && u != last && last !in fed
    requires CanBeFed(Before(s, run, |run|), {last}) && u in Before(s, run, |run|).rx.sources
    ensures Feeds(s, run, longer, fed + {last}, clock, u)
  {
    var now := Before(s, sofar, |sofar|);
    assert last in {last};
    var e := Heard(now, last, clock);
    QuietOneLonger(s, sofar, e, clock, u);
    StandsOneFurther(Before(s, run, |run|), now, Advanced(now, e), fed, last, clock);
    longer := sofar + [e];
  }

  // ---- The lists of a tick ----

  /** Every tick can sort its sources. */
  lemma SomeLists(sources: map<Handle, Source>, now: nat) returns (l: Lists)
    ensures Sorted(l, sources, now, 0x10000)
  {
    l := EMPTY;
    var candidate := Next(sources.Keys, 0);
    var bound: int := 0;
    while candidate.Some?
      invariant IsNext(sources.Keys, bound, candidate) && 0 <= bound && Sorted(l, sources, now, bound)
      decreases Remaining(candidate)
    {
      var h := candidate.value;
      SortedOneMore(l, sources, now, bound, h);
      l := Listed(l, h, Classify(sources[h], now));
      bound := h as int + 1;
      candidate := After(sources.Keys, h);
    }
    SortedAll(l, sources, now, bound);
  }

  /** Whoever a tick does not verify goes on being tracked as it is. */
  lemma UnverifiedStays(t: Tracking, clock: nat, e: Event, u: Handle)
    requires Regular(t, clock) && Possible(t, e) && e.Ticked? && clock <= e.now
    requires u in t.rx.sources && Unverified(t.rx.sources[u], e.now)
    ensures u in Advanced(t, e).rx.sources && Advanced(t, e).rx.sources[u] == t.rx.sources[u]
    ensures u !in e.lists.online && u !in Handles(e.lists.offline)
  {
    OnlineExactly(e.lists, t.rx.sources, e.now, u);
    HeldStep(t, e, u);
    assert !HeldOffline(t.sets, u);
  }

  // ---- The run that breaks the promise ----

  /** The unverified sources of tick `e` other than `u`. */
  ghost function OthersUnverified(e: Event, u: Handle): set<Handle>
    requires e.Ticked?
  {
    (set h | h in e.lists.unknown) - {u}
  }

  /** Event `k` reports the set while the source is still not accounted for. */
  ghost predicate LeavesBehind(s: Tracking, e: Event, i: nat, run: seq<Event>, k: nat, u: Handle) {
    GoesOn(s, e, run) && ReportsSet(s, run, 0, i, k) && u in s.rx.sources && !Accounted(s, run, k, u)
  }

  lemma UnknownCanBeFed(s: Tracking, clock: nat, e: Event, u: Handle)
    requires Regular(s, clock) && e.Ticked? && Possible(s, e) && clock <= e.now
    ensures CanBeFed(Advanced(s, e), OthersUnverified(e, u))
  {
    forall h | h in OthersUnverified(e, u)
      ensures h in Advanced(s, e).rx.sources
      ensures !Advanced(s, e).rx.sources[h].terminated && Advanced(s, e).rx.sources[h].state != WaitingForPap
    {
      assert h in e.lists.unknown;
      UnverifiedStays(s, clock, e, h);
    }
  }

  /** The source that opened the set is timed out, and stays so. */
  lemma OpenerIsTimedOut(s: Tracking, e: Event, i: nat, u: Handle)
    requires Possible(s, e) && Opens(s, e, i) && u in s.rx.sources && Unverified(s.rx.sources[u], e.now)
    ensures var o := e.lists.offline[i].handle;
      && o != u && o !in OthersUnverified(e, u)
      && (o in Advanced(s, e).rx.sources ==> Expired(Advanced(s, e).rx.sources[o].packetTimer, e.now))
  {
    assert Handles(e.lists.offline)[i] in Handles(e.lists.offline);
  }

  lemma FirstTickIsQuiet(s: Tracking, clock: nat, e: Event, u: Handle)
    requires Regular(s, clock) && Possible(s, e) && e.Ticked? && clock <= e.now
    requires u in s.rx.sources && Unverified(s.rx.sources[u], e.now)
    ensures QuietUntil(s, [e], e.now, u) && Before(s, [e], 1) == Advanced(s, e)
  {
    UnverifiedStays(s, clock, e, u);
    assert Before(s, [e], 0) == s;
    assert forall k | 0 <= k < 1 :: PossibleAt(s, [e], k);
  }

  /** If the packet timer would not last, DMX restarts it in time. */
  lemma Refresh(s: Tracking, run: seq<Event>, now: nat, limit: nat, u: Handle) returns (longer: seq<Event>)
    requires QuietUntil(s, run, now, u) && now <= limit && u in Before(s, run, |run|).rx.sources
    requires R.SamplingSound(Before(s, run, |run|).rx) && SourceRegular(Before(s, run, |run|).rx.sources[u])
    requires Unverified(Before(s, run, |run|).rx.sources[u], now)
    requires CanStaySilent(Before(s, run, |run|).rx.sources[u], now, limit)
    ensures run <= longer && QuietUntil(s, longer, limit, u)
    ensures OnlyChanges(Before(s, run, |run|).rx, Before(s, longer, |longer|).rx, u)
    ensures Unverified(Before(s, longer, |longer|).rx.sources[u], limit)
  {
    var t := Before(s, run, |run|);
    if Expired(t.rx.sources[u].packetTimer, limit) {
      var at :| now <= at <= limit && !Expired(t.rx.sources[u].papTimer, at) && limit <= at + SOURCE_LOSS_TIMEOUT;
      var e := Heard(t, u, at);
      QuietOneLonger(s, run, e, now, u);
      longer := run + [e];
    } else {
      longer := run;
      assert t.rx.sources == t.rx.sources[u := t.rx.sources[u]];
    }
  }

  lemma {:induction false} NobodyAges(x: TermSet, run: seq<Event>, until: nat)
    requires 1 <= until <= |run| && forall j | 1 <= j < until :: run[j].Other?
    ensures AgedSet(x, run, 1, until) == x
    decreases until
  {
    if until > 1 {
      NobodyAges(x, run, until - 1);
    }
  }

  lemma QuietLeavesPending(s: Tracking, run: seq<Event>, e: Event, i: nat, clock: nat, u: Handle)
    requires QuietUntil(s, run, clock, u) && run[0].Ticked? && Opens(s, run[0], i)
    requires !Settled(OpenedBy(s, run[0], i), run[0].now)
    ensures Opens(Before(s, run + [e], 0), (run + [e])[0], i) && PendingUntil(s, run + [e], 0, i, |run|)
    ensures AgedSet(OpenedBy(s, run[0], i), run + [e], 1, |run|) == OpenedBy(s, run[0], i)
  {
    var longer := run + [e];
    var x := OpenedBy(s, run[0], i);
    assert longer[0] == run[0] && Before(s, longer, 0) == s;
    assert forall j | 1 <= j < |run| :: longer[j] == run[j];
    NobodyAges(x, longer, |run|);
    assert run[0].lists.offline[i].handle in x.sources;
    forall j | 0 <= j < |run| ensures LeavesPending(s, longer, 0, i, j) {
      if j == 0 {
        assert JudgedAt(s, longer, 0, i, 0) == x;
      }
    }
  }

  /** The last tick finds everybody in the set online except for the source that opened it. */
  lemma LastTickSettles(x: TermSet, o: Handle, l: Lists, now: nat)
    requires o in x.sources && x.sources[o].offline && Expired(x.wait, now) && o !in l.online
    requires forall h | h in x.sources && h != o :: h in l.online
    ensures Settled(Aged(x, l), now) && Aged(x, l).sources != map[]
  {
    AgedExactly(x, l);
    assert o in Aged(x, l).sources;
  }

  ghost predicate NobodyElseLeft(s: Tracking, e: Event, i: nat, l: Lists)
    requires Opens(s, e, i)
  {
    var o := e.lists.offline[i].handle;
    o !in l.online && forall h | h in OpenedBy(s, e, i).sources && h != o :: h in l.online
  }

  lemma LastTickReports(s: Tracking, run: seq<Event>, i: nat, last: Event, u: Handle)
    requires last.Ticked? && QuietUntil(s, run, last.now, u) && Possible(Before(s, run, |run|), last)
    requires run[0].Ticked? && Opens(s, run[0], i) && !Settled(OpenedBy(s, run[0], i), run[0].now)
    requires EarliestReport(run[0].now, run[0].wait) <= last.now && NobodyElseLeft(s, run[0], i, last.lists)
    ensures GoesOn(s, run[0], run + [last]) && ReportsSet(s, run + [last], 0, i, |run|)
  {
    var longer, x := run + [last], OpenedBy(s, run[0], i);
    Extended(s, run, last);
    QuietLeavesPending(s, run, last, i, last.now, u);
    assert longer[|run|] == last && longer[0] == run[0];
    LastTickSettles(x, run[0].lists.offline[i].handle, last.lists, last.now);
    assert JudgedAt(s, longer, 0, i, |run|) == Aged(x, last.lists);
  }

  lemma NeverGone(s: Tracking, run: seq<Event>, last: Event, clock: nat, u: Handle, j: nat)
    requires QuietUntil(s, run, clock, u) && u in s.rx.sources && j <= |run| + 1
    requires u in Advanced(Before(s, run, |run|), last).rx.sources
    ensures !IsGone(s, run + [last], j, u)
  {
    PrefixStays(s, run, last, if j <= |run| then j else |run|);
    assert 0 < j <= |run| ==> !IsGone(s, run, j, u);
    assert (run + [last])[|run|] == last;
  }

  lemma NeverFound(run: seq<Event>, last: Event, u: Handle)
    requires last.Ticked? && run != [] && run[0].Ticked? && forall j | 1 <= j < |run| :: run[j].Other?
    requires u !in run[0].lists.online && u !in Handles(run[0].lists.offline)
    requires u !in last.lists.online && u !in Handles(last.lists.offline)
    ensures !FoundOnlineIn(run + [last], 0, |run| + 1, u) && !FoundOfflineIn(run + [last], 0, |run| + 1, u)
  {
    assert forall j | 0 < j < |run| :: (run + [last])[j] == run[j];
    assert (run + [last])[0] == run[0] && (run + [last])[|run|] == last;
  }

  lemma NeverAccounted(s: Tracking, run: seq<Event>, last: Event, clock: nat, u: Handle)
    requires last.Ticked? && QuietUntil(s, run, clock, u) && run[0].Ticked? && u in s.rx.sources
    requires u !in run[0].lists.online && u !in Handles(run[0].lists.offline)
    requires u !in last.lists.online && u !in Handles(last.lists.offline)
    requires u in Advanced(Before(s, run, |run|), last).rx.sources
    ensures !Accounted(s, run + [last], |run|, u)
  {
    NeverFound(run, last, u);
    forall j | 0 <= j <= |run| + 1 ensures !IsGone(s, run + [last], j, u) {
      NeverGone(s, run, last, clock, u, j);
    }
  }

  lemma FedIsOnline(t: Tracking, now: Tracking, fed: set<Handle>, clock: nat, l: Lists, h: Handle)
    requires StandsAt(t, now, fed, clock) && Sorted(l, now.rx.sources, clock, 0x10000) && h in fed && h in t.rx.sources
    ensures h in l.online
  {
    OnlineExactly(l, now.rx.sources, clock, h);
  }

  lemma UnfedStaysOffline(t: Tracking, now: Tracking, fed: set<Handle>, clock: nat, l: Lists, o: Handle)
    requires StandsAt(t, now, fed, clock) && Sorted(l, now.rx.sources, clock, 0x10000) && o !in fed
    requires o in t.rx.sources ==> Expired(t.rx.sources[o].packetTimer, clock)
    ensures o !in l.online
  {
    if o in now.rx.sources {
      OnlineExactly(l, now.rx.sources, clock, o);
    }
  }

  /** At the last tick the members are online again, the opener is still offline and `u` is still silent. */
  lemma LastTickFinds(s: Tracking, e: Event, i: nat, u: Handle, t: Tracking, now: Tracking, limit: nat, l: Lists)
    requires Possible(s, e) && Opens(s, e, i) && e.now <= limit && u in s.rx.sources
    requires Unverified(s.rx.sources[u], e.now)
    requires u !in OpenedBy(s, e, i).sources && u in Advanced(s, e).rx.sources
    requires OnlyChanges(Advanced(s, e).rx, t.rx, u)
    requires CanBeFed(Advanced(s, e), OthersUnverified(e, u))
    requires StandsAt(t, now, OthersUnverified(e, u), limit) && Sorted(l, now.rx.sources, limit, 0x10000)
    ensures NobodyElseLeft(s, e, i, l)
  {
    var o := e.lists.offline[i].handle;
    OpenerIsTimedOut(s, e, i, u);
    UnfedStaysOffline(t, now, OthersUnverified(e, u), limit, l, o);
    forall h | h in OpenedBy(s, e, i).sources && h != o ensures h in l.online {
      assert h in OthersUnverified(e, u);
      FedIsOnline(t, now, OthersUnverified(e, u), limit, l, h);
    }
  }

  lemma BreaksAtOnce(s: Tracking, clock: nat, e: Event, i: nat, u: Handle)
    requires Regular(s, clock) && Possible(s, e) && Opens(s, e, i) && clock <= e.now
    requires Settled(OpenedBy(s, e, i), e.now)
    requires u in s.rx.sources && Unverified(s.rx.sources[u], e.now)
    ensures LeavesBehind(s, e, i, [e], 0, u)
  {
    FirstTickIsQuiet(s, clock, e, u);
    UnverifiedStays(s, clock, e, u);
    assert Before(s, [e], 0) == s;
    assert e.lists.offline[i].handle in OpenedBy(s, e, i).sources;
    assert JudgedAt(s, [e], 0, i, 0) == OpenedBy(s, e, i);
  }

  /** Whoever can stay silent until the earliest report can be left behind by it. */
  lemma SilentIsLeftBehind(s: Tracking, clock: nat, e: Event, i: nat, u: Handle) returns (run: seq<Event>, k: nat)
    requires Regular(s, clock) && Possible(s, e) && Opens(s, e, i) && clock <= e.now
    requires u in s.rx.sources && Unverified(s.rx.sources[u], e.now) && u !in OpenedBy(s, e, i).sources
    requires CanStaySilent(s.rx.sources[u], e.now, EarliestReport(e.now, e.wait))
    ensures LeavesBehind(s, e, i, run, k, u)
  {
    if Settled(OpenedBy(s, e, i), e.now) {
      BreaksAtOnce(s, clock, e, i, u);
      run, k := [e], 0;
    } else {
      run, k := LeftBehindLater(s, clock, e, i, u);
    }
  }

  lemma LeftBehindLater(s: Tracking, clock: nat, e: Event, i: nat, u: Handle) returns (run: seq<Event>, k: nat)
    requires Regular(s, clock) && Possible(s, e) && Opens(s, e, i) && clock <= e.now
    requires !Settled(OpenedBy(s, e, i), e.now)
    requires u in s.rx.sources && Unverified(s.rx.sources[u], e.now) && u !in OpenedBy(s, e, i).sources
    requires CanStaySilent(s.rx.sources[u], e.now, EarliestReport(e.now, e.wait))
    ensures LeavesBehind(s, e, i, run, k, u)
  {
    var limit := EarliestReport(e.now, e.wait);
    FirstTickIsQuiet(s, clock, e, u);
    UnverifiedStays(s, clock, e, u);
    StepKeepsRegular(s, e, clock);
    UnknownCanBeFed(s, clock, e, u);
    var refreshed := Refresh(s, [e], e.now, limit, u);
    var t := Before(s, refreshed, |refreshed|);
    var fed := FeedAll(s, refreshed, OthersUnverified(e, u), limit, u);
    var now := Before(s, fed, |fed|);
    var l := SomeLists(now.rx.sources, limit);
    var last := Ticked(limit, 0, l);
    LastTickFinds(s, e, i, u, t, now, limit, l);
    RunStaysRegular(s, clock, fed, |fed|);
    UnverifiedStays(now, TimeOf(fed[|fed| - 1]), last, u);
    LastTickReports(s, fed, i, last, u);
    NeverAccounted(s, fed, last, limit, u);
    run, k := fed + [last], |fed|;
  }

  lemma RegularWaitsForAllIff(s: Tracking, start: nat, e: Event, i: nat)
    requires Regular(s, start) && Possible(s, e) && Opens(s, e, i) && start <= e.now
    ensures WaitsForAll(s, e, i) <==> OthersSureToShow(s, e, i)
  {
    if OthersSureToShow(s, e, i) {
      SureToShowSuffices(s, start, e, i);
    } else {
      var u: Handle :| u in s.rx.sources && Unverified(s.rx.sources[u], e.now) && u !in OpenedBy(s, e, i).sources
        && CanStaySilent(s.rx.sources[u], e.now, EarliestReport(e.now, e.wait));
      var run, k := SilentIsLeftBehind(s, start, e, i, u);
      assert GoesOn(s, e, run) && ReportsSet(s, run, 0, i, k) && u in s.rx.sources && !Accounted(s, run, k, u);
    }
  }

  /** Tick `e` comes after the run so far, in order of time. */
  ghost predicate ComesNext(s: Tracking, start: nat, run: seq<Event>, e: Event) {
    && PossibleRun(s, run) && TimedRun(run) && (run != [] ==> start <= TimeOf(run[0]))
    && Possible(Before(s, run, |run|), e) && ClockBefore(run, |run|, start) <= TimeOf(e)
  }

  /**
   The documented promise, exactly. Whatever a receiver has been through, the report of a set opened now is
   sure to wait until every source tracked at its opening is verified or gone if and only if every source
   outside the set that is still unverified now is sure to show up before the earliest report. It may fail
   for sources in earlier sets and for sources waiting for their PAP.
   */
  lemma OpenedWaitsForAllIff(settings: M.Settings, start: nat, listed: seq<Interface>, run: seq<Event>, e: Event,
          i: nat)
    requires ComesNext(Created(settings, start, listed), start, run, e)
    requires Opens(Before(Created(settings, start, listed), run, |run|), e, i)
    ensures var s := Before(Created(settings, start, listed), run, |run|);
      WaitsForAll(s, e, i) <==> OthersSureToShow(s, e, i)
  {
    CreatedIsRegular(settings, start, listed);
    RunStaysRegular(Created(settings, start, listed), start, run, |run|);
    RegularWaitsForAllIff(Before(Created(settings, start, listed), run, |run|), ClockBefore(run, |run|, start), e, i);
  }

  /** No source waits for its PAP and no unverified one is in an earlier set: then the report waits for all. */
  lemma NobodyWaitingIsEnough(settings: M.Settings, start: nat, listed: seq<Interface>, run: seq<Event>, e: Event,
          i: nat)
    requires ComesNext(Created(settings, start, listed), start, run, e)
    requires Opens(Before(Created(settings, start, listed), run, |run|), e, i)
    requires var s := Before(Created(settings, start, listed), run, |run|);
      Waiting(s.rx.sources, e.now) == {} && forall u | u in e.lists.unknown :: !Covers(FoundBy(s, e, i), u)
    ensures WaitsForAll(Before(Created(settings, start, listed), run, |run|), e, i)
  {
    var s := Before(Created(settings, start, listed), run, |run|);
    EverybodyJoins(s, e, i);
    OpenedWaitsForAllIff(settings, start, listed, run, e, i);
  }

  lemma EverybodyJoins(s: Tracking, e: Event, i: nat)
    requires Opens(s, e, i) && Possible(s, e) && Waiting(s.rx.sources, e.now) == {}
    requires forall u | u in e.lists.unknown :: !Covers(FoundBy(s, e, i), u)
    ensures OthersSureToShow(s, e, i)
  {
    forall u | u in s.rx.sources && Unverified(s.rx.sources[u], e.now) ensures u in OpenedBy(s, e, i).sources {
      assert u !in Waiting(s.rx.sources, e.now);
    }
  }
}
