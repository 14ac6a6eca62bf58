/** The receiver's callbacks and ticks, each refining its step on the value model. */
module Receiver {
  import opened Common
  import opened Interfaces
  import opened SourceTracking
  import opened StatusLists
  import opened SourceLoss
  import S = SamplingPeriod
  import M = ReceiverModel

  class SacnReceiver {
    const settings: M.Settings
    var netints: seq<Netint>
    var sampling: bool
    var notifiedSamplingStarted: bool
    var sampleTimer: Timer
    var samplingNetints: map<Netint, bool>
    var sources: map<Handle, TrackedSource>
    var suppressLimitExceeded: bool
    const termSets: TermSetList
    ghost var Repr: set<object>

    /** Sources are filed under their own handles, so no two of them are the same object. */
    ghost predicate Valid()
      reads this, Repr
    {
      this in Repr && termSets in Repr && WellKept(termSets.sets)
      && forall h | h in sources :: sources[h] in Repr && sources[h].handle == h
    }

    function Period(): S.Sampling
      reads `sampling, `notifiedSamplingStarted, `sampleTimer, `samplingNetints
    {
      S.Sampling(sampling, notifiedSamplingStarted, sampleTimer, samplingNetints)
    }

    ghost function Views(): map<Handle, Source>
      reads `sources, set h | h in sources :: sources[h]
    {
      map h | h in sources :: sources[h].View()
    }

    ghost function Model(): M.Receiver
      requires Valid()
      reads this, Repr
    {
      M.Receiver(settings, netints, Period(), Views(), suppressLimitExceeded)
    }

    // ---- Network interfaces ----

    method AddSamplingNetints(listed: seq<Interface>)
      modifies `samplingNetints
      ensures samplingNetints == M.Joined(old(samplingNetints), netints, sampling, listed)
    {
      for i := 0 to |listed|
        invariant samplingNetints == M.Joined(old(samplingNetints), netints, sampling, listed[..i])
      {
        ghost var sofar := M.Joined(old(samplingNetints), netints, sampling, listed[..i]);
        M.JoinedOneMore(old(samplingNetints), netints, sampling, listed, i);
        if listed[i].usable && listed[i].netint !in netints && listed[i].netint !in samplingNetints {
          samplingNetints := samplingNetints[listed[i].netint := sampling];
        }
      }
      assert listed[..|listed|] == listed;
    }

    method IsListed(listed: seq<Interface>, n: Netint) returns (found: bool)
      ensures found == M.Lists(listed, n)
    {
      found := false;
      var j := 0;
      while !found && j < |listed|
        invariant j <= |listed| && found == exists k :: 0 <= k < j && listed[k].netint == n
      {
        found := listed[j].netint == n;
        j := j + 1;
      }
    }

    method RemoveUnlistedNetints(listed: seq<Interface>)
      modifies `samplingNetints
      ensures samplingNetints == old(samplingNetints) - (set n | n in netints && !M.Lists(listed, n))
    {
      for i := 0 to |netints|
        invariant samplingNetints == old(samplingNetints) - (set n | n in netints[..i] && !M.Lists(listed, n))
      {
        assert netints[..i + 1] == netints[..i] + [netints[i]];
        var found := IsListed(listed, netints[i]);
        if !found {
          samplingNetints := samplingNetints - {netints[i]};
        }
      }
      assert netints[..|netints|] == netints;
    }

    method UpdateSamplingNetints(listed: seq<Interface>)
      modifies `samplingNetints
      ensures samplingNetints == M.Updated(old(samplingNetints), netints, sampling, listed)
    {
      AddSamplingNetints(listed);
      if sampling {
        RemoveUnlistedNetints(listed);
      }
    }

    /** Put every interface into the current period. */
    method AddAllNetintsToSamplingPeriod()
      modifies `samplingNetints
      ensures samplingNetints == M.AllCurrent(netints)
    {
      samplingNetints := map[];
      for i := 0 to |netints|
        invariant samplingNetints == M.AllCurrent(netints[..i])
      {
        assert netints[..i + 1] == netints[..i] + [netints[i]];
        if netints[i] !in samplingNetints {
          samplingNetints := samplingNetints[netints[i] := false];
        }
      }
      assert netints[..|netints|] == netints;
    }

    // ---- Sampling period ----

    method BeginSamplingPeriod(now: nat)
      modifies `sampling, `notifiedSamplingStarted, `sampleTimer
      ensures Period() == S.Begin(old(Period()), now)
    {
      if !sampling {
        sampling := true;
        notifiedSamplingStarted := false;
        sampleTimer := Timer(now, S.SAMPLE_TIME);
      }
    }

    /** Drop the interfaces of the current period, one at a time, until none is left. */
    method RemoveCurrentNetints()
      modifies `samplingNetints
      ensures S.Upcoming(samplingNetints) == old(S.Upcoming(samplingNetints))
      ensures forall n | n in samplingNetints :: samplingNetints[n]
    {
      while exists n :: n in samplingNetints && !samplingNetints[n]
        invariant S.Upcoming(samplingNetints) == old(S.Upcoming(samplingNetints))
        decreases |samplingNetints|
      {
        var n :| n in samplingNetints && !samplingNetints[n];
        assert samplingNetints.Keys == (samplingNetints.Keys - {n}) + {n};
        samplingNetints := samplingNetints - {n};
      }
    }

    /** Make the interfaces of the next period current. */
    method PromoteFutureNetints()
      requires forall n | n in samplingNetints :: samplingNetints[n]
      modifies `samplingNetints
      ensures samplingNetints == S.Upcoming(old(samplingNetints))
    {
      var rest := samplingNetints.Keys;
      while exists n :: n in rest
        invariant rest <= samplingNetints.Keys && samplingNetints.Keys == old(samplingNetints).Keys
        invariant forall n | n in samplingNetints :: samplingNetints[n] == (n in rest)
        decreases |rest|
      {
        var n :| n in rest;
        samplingNetints := samplingNetints[n := false];
        rest := rest - {n};
      }
    }

    method EndCurrentSamplingPeriod(now: nat)
      modifies `sampling, `notifiedSamplingStarted, `sampleTimer, `samplingNetints
      ensures Period() == S.EndPeriod(old(Period()), now)
    {
      RemoveCurrentNetints();
      sampling := false;
      assert samplingNetints.Keys == S.Upcoming(samplingNetints).Keys;
      if |samplingNetints| > 0 {
        PromoteFutureNetints();
        assert |S.Upcoming(old(samplingNetints))| > 0;
        BeginSamplingPeriod(now);
      } else {
        assert samplingNetints == map[];
      }
    }

    method TickSampling(now: nat) returns (notices: seq<S.Notice>)
      modifies `sampling, `notifiedSamplingStarted, `sampleTimer, `samplingNetints
      ensures (Period(), notices) == S.TickSampling(old(Period()), now)
    {
      notices := [];
      if sampling && Expired(sampleTimer, now) {
        EndCurrentSamplingPeriod(now);
        notices := [S.Ended];
      }
      if !notifiedSamplingStarted {
        notifiedSamplingStarted := true;
        notices := notices + [S.Started];
      }
      assert notices == S.TickSampling(old(Period()), now).1;
    }

    // ---- Construction ----

    constructor (settings: M.Settings, listed: seq<Interface>, now: nat)
      ensures Valid() && fresh(Repr) && termSets.sets == []
      ensures Model() == M.Created(settings, now, listed)
    {
      termSets := new TermSetList();
      this.settings := settings;
      netints, samplingNetints := [], map[];
      sampling, notifiedSamplingStarted, sampleTimer := false, false, Timer(0, 0);
      sources, suppressLimitExceeded := map[], false;
      new;
      Repr := {this, termSets};
      UpdateSamplingNetints(listed);
      netints := CollectUsable(listed);
      M.EverybodySamplesAtFirst(listed);
      BeginSamplingPeriod(now);
      assert Views() == map[];
    }

    // ---- Data packets ----

    /** File a new source. */
    method AddTrackedSource(h: Handle, from: Netint, p: Packet, now: nat)
      requires Valid() && h !in sources
      modifies `sources, `Repr
      ensures Valid() && fresh(Repr - old(Repr)) && old(Repr) <= Repr
      ensures Views() == old(Views())[h := NewSource(from, p, sampling, now)]
    {
      var source := new TrackedSource(h, from, p, sampling, now);
      sources := sources[h := source];
      Repr := Repr + {source};
    }

    predicate Room()
      reads `sources
    {
      settings.sourceCountMax == M.INFINITE_SOURCES || |sources| < settings.sourceCountMax
    }

    method ProcessNewSourceData(now: nat, h: Handle, from: Netint, p: Packet) returns (report: M.Report)
      requires Valid() && h !in sources && !p.terminated
      modifies `sources, `suppressLimitExceeded, `Repr
      ensures Valid() && fresh(Repr - old(Repr)) && old(Repr) <= Repr
      ensures (Model(), report) == M.FirstData(old(Model()), now, h, from, p)
    {
      report := M.NOTHING;
      if p.startCode != STARTCODE_DMX && p.startCode != STARTCODE_PRIORITY {
        return;
      }
      assert |sources| == |Views()| by {
        assert sources.Keys == Views().Keys;
        assert |sources.Keys| == |sources| && |Views().Keys| == |Views()|;
      }
      if Room() {
        AddTrackedSource(h, from, p, now);
        var notify := true;
        if p.startCode == STARTCODE_DMX && !sampling {
          notify := false;
        }
        if p.preview && settings.filterPreview {
          notify := false;
        }
        report := report.(data := notify, samplingData := notify && from in samplingNetints);
      } else {
        if !suppressLimitExceeded {
          suppressLimitExceeded := true;
          report := report.(limitExceeded := true);
        }
      }
    }

    method ProcessTrackedSourceData(now: nat, h: Handle, from: Netint, p: Packet) returns (notify: bool, papLost: bool)
      requires Valid() && h in sources
      modifies sources[h]
      ensures Valid()
      ensures var r := Receive(old(Views())[h], now, from, p, sampling, settings.filterPreview);
        Views() == old(Views())[h := r.source] && notify == r.notify && papLost == r.papLost
    {
      var source := sources[h];
      assert source.View() == Views()[h];
      var accepted;
      accepted, notify, papLost := source.ReceivePacket(now, from, p, sampling, settings.filterPreview);
    }

    method HandleDataPacket(now: nat, h: Handle, from: Netint, p: Packet) returns (report: M.Report)
      requires Valid()
      modifies `sources, `suppressLimitExceeded, `Repr, set o | o in sources.Keys :: sources[o]
      ensures Valid() && fresh(Repr - old(Repr)) && old(Repr) <= Repr
      ensures (Model(), report) == M.Step(old(Model()), M.Data(now, h, from, p))
    {
      report := M.NOTHING;
      if from in samplingNetints && samplingNetints[from] {
        return;
      }
      if h in sources {
        var notify, papLost := ProcessTrackedSourceData(now, h, from, p);
        report := report.(data := notify, samplingData := notify && from in samplingNetints, papLost := papLost);
      } else if !p.terminated {
        report := ProcessNewSourceData(now, h, from, p);
      }
    }

    // ---- Ticks ----

    method CheckSource(h: Handle, now: nat, lists: Lists) returns (longer: Lists)
      requires Valid() && h in sources
      modifies sources[h]
      ensures Valid() && Views() == old(Views())[h := Ticked(old(Views())[h], now)]
      ensures longer == Listed(lists, h, Classify(old(Views())[h], now))
    {
      var source := sources[h];
      assert source.View() == Views()[h];
      var status := source.CheckTimeouts(now);
      longer := Listed(lists, h, status);
    }

    /** Sort every source into the lists. */
    method CheckSources(now: nat) returns (lists: Lists)
      requires Valid()
      modifies set h | h in sources :: sources[h]
      ensures Valid() && Views() == M.TickedBelow(old(Views()), now, 0x10000)
      ensures Sorted(lists, old(Views()), now, 0x10000)
    {
      ghost var before := Views();
      lists := EMPTY;
      var keys := sources.Keys;
      assert keys == before.Keys;
      var candidate := Next(keys, 0);
      ghost var bound: int := 0;
      assert M.TickedBelow(before, now, 0) == before;
      while candidate.Some?
        invariant Valid() && IsNext(keys, bound, candidate) && 0 <= bound
        invariant Views() == M.TickedBelow(before, now, bound)
        invariant Sorted(lists, before, now, bound)
        decreases Remaining(candidate)
      {
        var h := candidate.value;
        SortedOneMore(lists, before, now, bound, h);
        M.TickedOneMore(before, now, bound, h);
        lists := CheckSource(h, now, lists);
        bound := h as int + 1;
        candidate := After(keys, h);
      }
      SortedAll(lists, before, now, bound);
      M.TickedAll(before, now, bound);
    }

    method RemoveSources(gone: seq<Handle>)
      requires Valid()
      modifies `sources
      ensures Valid() && Views() == old(Views()) - M.HandleSet(gone)
    {
      ghost var before := Views();
      for i := 0 to |gone|
        invariant Valid() && Views() == before - M.HandleSet(gone[..i])
      {
        M.OneMoreHandle(gone, i);
        sources := sources - {gone[i]};
        assert Views() == before - M.HandleSet(gone[..i]) - {gone[i]};
      }
      assert gone[..|gone|] == gone;
    }

    /** Remove the expired waiting sources, then the lost ones; losing any makes the source limit news again. */
    method RemoveErasedAndLost(toErase: seq<Handle>, lost: seq<Handle>)
      requires Valid()
      modifies `sources, `suppressLimitExceeded
      ensures Valid() && Views() == old(Views()) - M.HandleSet(toErase) - M.HandleSet(lost)
      ensures suppressLimitExceeded == (old(suppressLimitExceeded) && lost == [])
    {
      RemoveSources(toErase);
      if |lost| > 0 {
        RemoveSources(lost);
        suppressLimitExceeded := false;
      }
    }

    /** What a tick makes of the status lists: the termination sets, and who is reported lost. */
    method JudgeSources(lists: Lists, now: nat, wait: nat) returns (lost: seq<OfflineSource>)
      requires Valid()
      modifies termSets
      ensures Valid() && Views() == old(Views())
      ensures lost == Lost(Judged(old(termSets.sets), lists, now, wait), now)
      ensures termSets.sets == Unsettled(Judged(old(termSets.sets), lists, now, wait), now)
    {
      JudgedExactly(termSets.sets, lists, now, wait);
      UnsettledExactly(Judged(termSets.sets, lists, now, wait), now);
      termSets.MarkSourcesOffline(lists.offline, lists.unknown, now, wait);
      termSets.MarkSourcesOnline(lists.online);
      lost := termSets.GetExpiredSources(now);
    }

    method ProcessReceiverSources(now: nat, wait: nat) returns (lists: Lists, lost: seq<OfflineSource>)
      requires Valid()
      modifies `sources, `suppressLimitExceeded, termSets, set h | h in sources :: sources[h]
      ensures Valid() && Views() == M.SourcesKept(old(Views()), now, Handles(lost))
      ensures suppressLimitExceeded == (old(suppressLimitExceeded) && lost == [])
      ensures Sorted(lists, old(Views()), now, 0x10000)
      ensures lost == Lost(Judged(old(termSets.sets), lists, now, wait), now)
      ensures termSets.sets == Unsettled(Judged(old(termSets.sets), lists, now, wait), now)
    {
      ghost var before := Views();
      lists := CheckSources(now);
      lost := JudgeSources(lists, now, wait);
      assert Views() == M.TickedBelow(before, now, 0x10000);
      M.KeptAfterRemovals(before, now, lists, Handles(lost));
      RemoveErasedAndLost(lists.toErase, Handles(lost));
    }

    method Tick(now: nat, wait: nat) returns (report: M.Report, lists: Lists, lost: seq<OfflineSource>)
      requires Valid()
      modifies this, termSets, set h | h in sources :: sources[h]
      ensures Valid() && Repr == old(Repr)
      ensures (Model(), report) == M.Step(old(Model()), M.Tick(now, Handles(lost)))
      ensures Sorted(lists, old(Views()), now, 0x10000)
      ensures lost == Lost(Judged(old(termSets.sets), lists, now, wait), now)
      ensures termSets.sets == Unsettled(Judged(old(termSets.sets), lists, now, wait), now)
    {
      ghost var was := Model();
      var notices := TickSampling(now);
      assert Views() == was.sources;
      lists, lost := ProcessReceiverSources(now, wait);
      report := M.NOTHING.(notices := notices);
      M.TickInParts(was, now, Handles(lost));
    }

    // ---- Network and universe changes ----

    method MarkTerminated(h: Handle, now: nat)
      requires Valid() && h in sources
      modifies sources[h]
      ensures Valid() && Views() == old(Views())[h := Terminate(old(Views())[h], now)]
    {
      var source := sources[h];
      assert source.View() == Views()[h];
      source.MarkTerminated(now);
    }

    method TerminateIfRemoved(h: Handle, now: nat)
      requires Valid() && h in sources
      modifies sources[h]
      ensures Valid()
      ensures Views() == if old(Views())[h].netint in netints then old(Views())
              else old(Views())[h := Terminate(old(Views())[h], now)]
    {
      var found := false;
      var i := 0;
      while !found && i < |netints|
        invariant i <= |netints| && found == (sources[h].netint in netints[..i])
      {
        assert netints[..i + 1] == netints[..i] + [netints[i]];
        found := sources[h].netint == netints[i];
        i := i + 1;
      }
      assert netints[..|netints|] == netints;
      if !found {
        MarkTerminated(h, now);
      }
    }

    method TerminateSourcesOnRemovedNetints(now: nat)
      requires Valid()
      modifies set h | h in sources :: sources[h]
      ensures Valid() && Views() == M.TerminatedOff(old(Views()), netints, now)
    {
      ghost var before := Views();
      var keys := sources.Keys;
      assert keys == before.Keys;
      var candidate := Next(keys, 0);
      ghost var bound: int := 0;
      assert M.TerminatedBelow(before, netints, now, 0) == before;
      while candidate.Some?
        invariant Valid() && IsNext(keys, bound, candidate) && 0 <= bound
        invariant Views() == M.TerminatedBelow(before, netints, now, bound)
        decreases Remaining(candidate)
      {
        var h := candidate.value;
        M.TerminatedOneMore(before, netints, now, bound, h);
        TerminateIfRemoved(h, now);
        bound := h as int + 1;
        candidate := After(keys, h);
      }
      M.TerminatedAll(before, netints, now, bound);
    }

    /** Take over the new interfaces. */
    method ReplaceNetints(listed: seq<Interface>)
      modifies `netints, `samplingNetints
      ensures netints == Usable(listed)
      ensures samplingNetints == M.Updated(old(samplingNetints), old(netints), sampling, listed)
    {
      UpdateSamplingNetints(listed);
      netints := CollectUsable(listed);
    }

    method ApplyReset(now: nat, used: seq<Interface>)
      requires Valid()
      modifies this, set o | o in sources.Keys :: sources[o]
      ensures Valid() && Repr == old(Repr)
      ensures Model() == M.WithInterfaces(old(Model()), now, used)
    {
      ghost var was := Model();
      ReplaceNetints(used);
      assert Views() == was.sources;
      TerminateSourcesOnRemovedNetints(now);
      ghost var sources' := Views();
      BeginSamplingPeriod(now);
      assert Views() == sources';
    }

    method ResetNetworking(now: nat, listed: seq<Interface>, noNetints: bool) returns (result: Common.Status)
      requires Valid()
      modifies this, set o | o in sources.Keys :: sources[o]
      ensures Valid() && Repr == old(Repr)
      ensures result == ResetOutcome(listed, noNetints)
      ensures Model() == M.Step(old(Model()), M.NetworkReset(now, listed, noNetints)).0
    {
      NothingUsable(listed);
      if !noNetints && !exists i :: 0 <= i < |listed| && listed[i].usable {
        return ErrNoNetints;
      }
      ApplyReset(now, if noNetints then [] else listed);
      return Ok;
    }

    method ChangeUniverse(now: nat)
      requires Valid()
      modifies this, termSets
      ensures Valid() && Repr == old(Repr) && termSets.sets == []
      ensures Model() == M.Step(old(Model()), M.UniverseChange(now)).0
    {
      suppressLimitExceeded := false;
      termSets.Clear();
      sources := map[];
      AddAllNetintsToSamplingPeriod();
      BeginSamplingPeriod(now);
      assert Views() == map[];
    }
  }
}
