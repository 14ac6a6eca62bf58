/** The merge receiver's callbacks, each refining its step on the value model. */
module MergeReceiver {
  import opened Common
  import opened MergeSpec
  import opened MergerModel
  import opened DmxMerger
  import opened MergeReceiverModel

  /** One tracked source. */
  class InternalSource {
    const handle: Handle
    var sampling: bool
    var papActive: bool
    var levelsActive: bool
    var universePriority: byte

    constructor (handle: Handle, sampling: bool)
      ensures this.handle == handle && Info() == SourceInfo(sampling, false, false, 0)
    {
      this.handle := handle;
      this.sampling := sampling;
      papActive, levelsActive, universePriority := false, false, 0;
    }

    function Info(): SourceInfo
      reads this
    {
      SourceInfo(sampling, papActive, levelsActive, universePriority)
    }

    method Note(p: Packet)
      modifies this
      ensures Info() == Noted(old(Info()), p)
    {
      if p.startCode == STARTCODE_PRIORITY {
        papActive := true;
      } else if p.startCode == STARTCODE_DMX {
        levelsActive := true;
      }
      universePriority := p.priority;
    }
  }

  class MergeReceiver {
    const live: MergerState
    const trial: MergerState
    const usePap: bool
    var sources: map<Handle, InternalSource>
    var sampling: bool
    ghost var Repr: set<object>

    /** The two mergers and the tracked sources share no memory. */
    ghost predicate Separated()
      reads this, Repr
    {
      && {this, live, trial} <= Repr && live.Repr <= Repr && trial.Repr <= Repr
      && this !in live.Repr && this !in trial.Repr && live.Repr !! trial.Repr
      && INVALID_SOURCE !in sources
      && forall h | h in sources ::
           sources[h] in Repr && sources[h].handle == h && sources[h] !in live.Repr && sources[h] !in trial.Repr
    }

    ghost predicate Valid()
      reads this, Repr
    {
      Separated() && live.Valid() && trial.Valid() && live.config == trial.config
    }

    ghost function Infos(): map<Handle, SourceInfo>
      reads `sources, set h | h in sources :: sources[h]
    {
      map h | h in sources :: sources[h].Info()
    }

    ghost function Model(): (rx: Receiver)
      requires Valid()
      reads this, Repr
      ensures WellFormedReceiver(rx)
    {
      Receiver(live.Model(), trial.Model(), Infos(), sampling, usePap)
    }

    constructor (config: Config, usePap: bool)
      requires !config.tracksPapActive && !config.tracksUniversePriority
      ensures Valid() && fresh(Repr)
      ensures Model() == Receiver(Initial(config), Initial(config), map[], true, usePap)
    {
      live := new MergerState(config);
      trial := new MergerState(config);
      this.usePap := usePap;
      sources := map[];
      sampling := true;
      new;
      Repr := {this, live, trial} + live.Repr + trial.Repr;
    }

    /** What stays as it was while one of the mergers works. */
    twostate predicate OnlyWorked(merger: MergerState)
      reads this, Repr, merger
    {
      && sources == old(sources) && sampling == old(sampling)
      && Repr == old(Repr) + merger.Repr && fresh(merger.Repr - old(merger.Repr))
      && forall o | o in old(Repr) && o !in old(merger.Repr) && o != this :: unchanged(o)
    }

    twostate lemma TrialWorked()
      requires old(Valid()) && trial.Valid() && OnlyWorked(trial)
      ensures Valid() && Model() == old(Model()).(trial := trial.Model())
    {
      assert Infos() == old(Infos());
    }

    twostate lemma LiveWorked()
      requires old(Valid()) && live.Valid() && OnlyWorked(live)
      ensures Valid() && Model() == old(Model()).(live := live.Model())
    {
      assert Infos() == old(Infos());
    }

    method OnTrial(op: Op) returns (result: Status)
      requires Valid()
      modifies Repr
      ensures Valid() && fresh(Repr - old(Repr)) && old(Repr) <= Repr && unchanged(`sources)
      ensures Model() == old(Model()).(trial := Step(old(Model()).trial, op))
      ensures result == Outcome(old(Model()).trial, op)
    {
      result := trial.Perform(op);
      Repr := Repr + trial.Repr;
      TrialWorked();
    }

    method OnLive(op: Op) returns (result: Status)
      requires Valid()
      modifies Repr
      ensures Valid() && fresh(Repr - old(Repr)) && old(Repr) <= Repr && unchanged(`sources)
      ensures Model() == old(Model()).(live := Step(old(Model()).live, op))
      ensures result == Outcome(old(Model()).live, op)
    {
      result := live.Perform(op);
      Repr := Repr + live.Repr;
      LiveWorked();
    }

    /** The merger a sampling flag stands for. */
    method OnMerger(onTrial: bool, op: Op) returns (result: Status)
      requires Valid()
      modifies Repr
      ensures Valid() && fresh(Repr - old(Repr)) && old(Repr) <= Repr && unchanged(`sources)
      ensures Model() == MergeReceiverModel.OnMerger(old(Model()), onTrial, op)
    {
      if onTrial {
        result := OnTrial(op);
      } else {
        result := OnLive(op);
      }
    }

    method IsActiveSource(h: Handle) returns (active: bool)
      requires Valid() && h in sources
      ensures h in Infos() && active == IsActive(Infos()[h])
    {
      var source := sources[h];
      active := !source.sampling && source.levelsActive;
    }

    static lemma OneMoreActive(infos: map<Handle, SourceInfo>, listed: seq<Handle>, h: Handle)
      requires h in infos
      ensures (if IsActive(infos[h]) then listed + [h] else listed) + ActiveFrom(infos, After(infos.Keys, h))
        == listed + ActiveFrom(infos, Some(h))
    {
    }

    /** Collect the active sources in handle order. */
    method ListActiveSources() returns (active: seq<Handle>)
      requires Valid()
      ensures active == ActiveSources(Infos())
    {
      active := [];
      ghost var infos := Infos();
      var keys := sources.Keys;
      assert infos.Keys == keys;
      var source := Next(keys, 0);
      while source.Some?
        invariant source.Some? ==> source.value in infos
        invariant active + ActiveFrom(infos, source) == ActiveSources(infos)
        decreases Remaining(source)
      {
        var isActive := IsActiveSource(source.value);
        OneMoreActive(infos, active, source.value);
        if isActive {
          active := active + [source.value];
        }
        source := After(keys, source.value);
      }
    }

    /** The notified part of the live outputs, and the sources behind them. */
    method Snapshot() returns (merged: Option<MergedData>)
      requires Valid()
      ensures merged == Some(MergeReceiverModel.Snapshot(Model()))
    {
      var active := ListActiveSources();
      merged := Some(MergedData(live.Slots()[..MaxSlots(live.config)], active));
    }

    // ---- The tree of tracked sources ----

    static method NewSource(h: Handle, isSampling: bool, p: Packet) returns (source: InternalSource)
      ensures fresh(source) && source.handle == h
      ensures source.Info() == Noted(SourceInfo(isSampling, false, false, 0), p)
    {
      source := new InternalSource(h, isSampling);
      source.Note(p);
    }

    method NoteSource(h: Handle, p: Packet)
      requires Valid() && h in sources
      modifies sources[h]
      ensures Valid()
      ensures Model() == old(Model()).(sources := old(Model()).sources[h := Noted(old(Model()).sources[h], p)])
    {
      sources[h].Note(p);
      SourceWritten(h);
    }

    method FileSource(source: InternalSource)
      requires Valid() && source !in Repr && source.handle != INVALID_SOURCE
      modifies `sources, `Repr
      ensures Valid() && Repr == old(Repr) + {source}
      ensures Model() == old(Model()).(sources := old(Model()).sources[source.handle := source.Info()])
    {
      sources := sources[source.handle := source];
      Repr := Repr + {source};
      assert Infos() == old(Infos())[source.handle := source.Info()];
    }

    method InsertSource(h: Handle, isSampling: bool, p: Packet)
      requires Valid() && h !in sources && h != INVALID_SOURCE
      modifies `sources, `Repr
      ensures Valid() && fresh(Repr - old(Repr)) && old(Repr) <= Repr
      ensures Model() == old(Model()).(sources :=
        old(Model()).sources[h := Noted(SourceInfo(isSampling, false, false, 0), p)])
    {
      var source := NewSource(h, isSampling, p);
      FileSource(source);
    }

    method DeleteSource(h: Handle)
      requires Valid() && h in sources
      modifies `sources
      ensures Valid()
      ensures Model() == old(Model()).(sources := old(Model()).sources - {h})
    {
      sources := sources - {h};
    }

    /** Writing to one tracked source changes what is known of it and nothing else. */
    twostate lemma SourceWritten(h: Handle)
      requires old(Valid()) && unchanged(this) && h in sources
      requires forall o | o in Repr && o != sources[h] :: unchanged(o)
      ensures Valid() && Model() == old(Model()).(sources := old(Model()).sources[h := sources[h].Info()])
    {
      forall k | k in sources && k != h ensures sources[k].Info() == old(sources[k].Info()) {
        assert sources[k].handle == k && sources[h].handle == h;
        assert unchanged(sources[k]);
      }
      assert Infos() == old(Infos())[h := sources[h].Info()];
    }

    method ClearSampling(h: Handle)
      requires Valid() && h in sources
      modifies sources[h]
      ensures Valid()
      ensures Model() == old(Model()).(sources :=
        old(Model()).sources[h := old(Model()).sources[h].(sampling := false)])
    {
      sources[h].sampling := false;
      SourceWritten(h);
    }

    method ClearPapActive(h: Handle)
      requires Valid() && h in sources
      modifies sources[h]
      ensures Valid()
      ensures Model() == old(Model()).(sources :=
        old(Model()).sources[h := old(Model()).sources[h].(papActive := false)])
    {
      sources[h].papActive := false;
      SourceWritten(h);
    }

    method ForgetSources()
      requires Valid()
      modifies `sources
      ensures Valid() && Model() == old(Model()).(sources := map[])
    {
      sources := map[];
    }

    method LeaveSampling()
      requires Valid()
      modifies `sampling
      ensures Valid() && Model() == old(Model()).(sampling := false)
    {
      sampling := false;
    }

    method HasSources() returns (some: bool)
      requires Valid()
      ensures some == (Model().sources != map[])
    {
      some := |sources| > 0;
      assert Model().sources.Keys == sources.Keys;
    }

    // ---- Callbacks ----

    method TrackSource(p: Packet)
      requires Valid() && p.source != INVALID_SOURCE
      modifies Repr
      ensures Valid() && fresh(Repr - old(Repr)) && old(Repr) <= Repr
      ensures Model() == Track(old(Model()), p)
    {
      if p.source in sources {
        NoteSource(p.source, p);
      } else {
        var added := OnMerger(p.isSampling, Op.AddSource(p.source));
        InsertSource(p.source, p.isSampling, p);
      }
    }

    method FeedLevels(onTrial: bool, h: Handle, levels: seq<byte>, priority: byte)
      requires Valid()
      modifies Repr
      ensures Valid() && fresh(Repr - old(Repr)) && old(Repr) <= Repr && unchanged(`sources)
      ensures Model() == Fed(old(Model()), onTrial, h, levels, priority)
    {
      var done := OnMerger(onTrial, Op.UpdateLevels(h, levels));
      done := OnMerger(onTrial, Op.UpdateUniversePriority(h, priority));
    }

    method FeedMerger(p: Packet) returns (merged: bool)
      requires Valid()
      modifies Repr
      ensures Valid() && fresh(Repr - old(Repr)) && old(Repr) <= Repr
      ensures Model() == Feed(old(Model()), p)
      ensures merged == (0 < |p.values| <= MaxSlots(live.config)
        && (p.startCode == STARTCODE_DMX || (p.startCode == STARTCODE_PRIORITY && usePap)))
    {
      merged := false;
      if 0 < |p.values| <= MaxSlots(live.config) {
        if p.startCode == STARTCODE_DMX {
          FeedLevels(p.isSampling, p.source, p.values, p.priority);
          merged := true;
        } else if p.startCode == STARTCODE_PRIORITY && usePap {
          var updated := OnMerger(p.isSampling, Op.UpdatePap(p.source, p.values));
          merged := true;
        }
      }
    }

    method UniverseData(p: Packet) returns (merged: Option<MergedData>)
      requires Valid() && p.source != INVALID_SOURCE
      modifies Repr
      ensures Valid() && fresh(Repr - old(Repr)) && old(Repr) <= Repr
      ensures Model() == React(old(Model()), Event.UniverseData(p))
      ensures merged == Notification(old(Model()), Event.UniverseData(p))
    {
      TrackSource(p);
      var newMergeOccurred := FeedMerger(p);
      merged := None;
      if newMergeOccurred && !p.isSampling {
        merged := Snapshot();
      }
    }

    /** Forget one lost source; false when it was not tracked or still sampling. */
    method LoseSource(h: Handle) returns (liveMergeOccurred: bool)
      requires Valid()
      modifies Repr
      ensures Valid() && fresh(Repr - old(Repr)) && old(Repr) <= Repr
      ensures Model() == LoseOne(old(Model()), h)
      ensures liveMergeOccurred <==> h in old(Model()).sources && !old(Model()).sources[h].sampling
    {
      liveMergeOccurred := false;
      if h in sources {
        ghost var info := sources[h].Info();
        var isSampling := sources[h].sampling;
        var removed := OnMerger(isSampling, Op.RemoveSource(h));
        liveMergeOccurred := !isSampling;
        DeleteSource(h);
      }
    }

    method SourcesLost(lost: seq<Handle>) returns (merged: Option<MergedData>)
      requires Valid()
      modifies Repr
      ensures Valid() && fresh(Repr - old(Repr)) && old(Repr) <= Repr
      ensures Model() == React(old(Model()), Event.SourcesLost(lost))
      ensures merged == Notification(old(Model()), Event.SourcesLost(lost))
    {
      ghost var rx := Model();
      var liveMergeOccurred := false;
      for i := 0 to |lost|
        invariant Valid() && fresh(Repr - old(Repr)) && old(Repr) <= Repr
        invariant Model() == Lose(rx, lost[..i])
        invariant liveMergeOccurred <==> exists h :: h in lost[..i] && h in rx.sources && !rx.sources[h].sampling
      {
        LosingOneMore(rx, lost, i);
        var occurred := LoseSource(lost[i]);
        if !liveMergeOccurred {
          liveMergeOccurred := occurred;
        }
      }
      assert lost[..|lost|] == lost;
      merged := None;
      if liveMergeOccurred {
        merged := Snapshot();
      }
    }

    static lemma LosingOneMore(rx: Receiver, lost: seq<Handle>, i: nat)
      requires WellFormedReceiver(rx) && i < |lost|
      ensures Lose(rx, lost[..i + 1]) == LoseOne(Lose(rx, lost[..i]), lost[i])
      ensures forall h | h in Lose(rx, lost[..i]).sources ::
        h in rx.sources && Lose(rx, lost[..i]).sources[h] == rx.sources[h]
      ensures forall h | h in rx.sources && h !in lost[..i] :: h in Lose(rx, lost[..i]).sources
    {
      assert lost[..i + 1][..i] == lost[..i];
      LosingKeepsInfo(rx, lost[..i]);
    }

    static lemma {:induction false} LosingKeepsInfo(rx: Receiver, lost: seq<Handle>)
      requires WellFormedReceiver(rx)
      ensures forall h | h in Lose(rx, lost).sources :: h in rx.sources && Lose(rx, lost).sources[h] == rx.sources[h]
      ensures forall h | h in rx.sources && h !in lost :: h in Lose(rx, lost).sources
      decreases |lost|
    {
      if lost != [] {
        LosingKeepsInfo(rx, lost[..|lost| - 1]);
      }
    }

    method SamplingPeriodStarted()
      requires Valid()
      modifies `sampling
      ensures Valid() && Model() == React(old(Model()), Event.SamplingStarted)
    {
      sampling := true;
    }

    method SourcePapLost(h: Handle) returns (merged: Option<MergedData>)
      requires Valid()
      modifies Repr
      ensures Valid() && fresh(Repr - old(Repr)) && old(Repr) <= Repr
      ensures Model() == React(old(Model()), Event.PapLost(h))
      ensures merged == Notification(old(Model()), Event.PapLost(h))
    {
      merged := None;
      if usePap && h in sources {
        ClearPapActive(h);
        var isSampling := sources[h].sampling;
        var removed := OnMerger(isSampling, Op.RemovePap(h));
        if !isSampling {
          merged := Snapshot();
        }
      }
    }

    /** What the sampling merger stores about one of its sources: levels, universe priority, active PAP. */
    lemma TrialSourceIsMigrated(h: Handle)
      requires Valid() && h in trial.sources
      ensures h in Model().trial.records
      ensures var state := trial.sources[h];
        && state.levelCount <= |state.levels| && state.levelCount <= |state.addressPriority|
        && Migrate(Model(), h) == Rebuilt(Model(), h, state.levels[..state.levelCount], state.universePriority,
             if state.usingUniversePriority then None else Some(state.addressPriority[..state.levelCount]))
    {
      assert trial.sources[h].Record() == Model().trial.records[h];
    }

    /** Build a source in the live merger, then remove it from the sampling merger. */
    method RebuildSource(h: Handle, levels: seq<byte>, priority: byte, pap: Option<seq<byte>>)
      requires Valid()
      modifies Repr
      ensures Valid() && fresh(Repr - old(Repr)) && old(Repr) <= Repr && unchanged(`sources)
      ensures Model() == Rebuilt(old(Model()), h, levels, priority, pap)
    {
      var done := OnMerger(false, Op.AddSource(h));
      FeedLevels(false, h, levels, priority);
      if pap.Some? {
        done := OnMerger(false, Op.UpdatePap(h, pap.value));
      }
      done := OnMerger(true, Op.RemoveSource(h));
    }

    /** Copy a sampling source's merge data to the live merger. */
    method MigrateSource(h: Handle)
      requires Valid() && h in trial.sources
      modifies Repr
      ensures Valid() && fresh(Repr - old(Repr)) && old(Repr) <= Repr && unchanged(`sources)
      ensures h in old(Model()).trial.records && Model() == Migrate(old(Model()), h)
    {
      TrialSourceIsMigrated(h);
      var state := trial.sources[h];
      var pap := if state.usingUniversePriority then None else Some(state.addressPriority[..state.levelCount]);
      RebuildSource(h, state.levels[..state.levelCount], state.universePriority, pap);
    }

    method EndSamplingOfSource(h: Handle)
      requires Valid() && h in sources
      modifies Repr
      ensures Valid() && fresh(Repr - old(Repr)) && old(Repr) <= Repr && unchanged(`sources)
      ensures Model() == EndSamplingOf(old(Model()), h)
    {
      assert Model().trial.records.Keys == trial.sources.Keys;
      if sources[h].sampling {
        if h in trial.sources {
          MigrateSource(h);
        }
      }
      ClearSampling(h);
    }

    method EndSamplingOfAll()
      requires Valid()
      modifies Repr
      ensures Valid() && fresh(Repr - old(Repr)) && old(Repr) <= Repr && unchanged(`sources)
      ensures Model() == EndSamplingFrom(old(Model()), Next(old(Model()).sources.Keys, 0))
    {
      var keys := sources.Keys;
      assert Model().sources.Keys == keys;
      var source := Next(keys, 0);
      ghost var ended := EndSamplingFrom(Model(), source);
      while source.Some?
        invariant Valid() && fresh(Repr - old(Repr)) && old(Repr) <= Repr && sources == old(sources)
        invariant source.Some? ==> source.value in Model().sources
        invariant EndSamplingFrom(Model(), source) == ended
        decreases Remaining(source)
      {
        assert Model().sources.Keys == keys;
        EndSamplingOfSource(source.value);
        assert Model().sources.Keys == keys;
        source := After(keys, source.value);
      }
    }

    lemma SamplingEndedMeans(rx: Receiver)
      requires WellFormedReceiver(rx)
      ensures var ended := EndSamplingFrom(rx.(sampling := false), Next(rx.sources.Keys, 0));
        && React(rx, Event.SamplingEnded) == ended
        && Notification(rx, Event.SamplingEnded) ==
             if rx.sources != map[] then Some(MergeReceiverModel.Snapshot(ended)) else None
    {
    }

    method SamplingPeriodEnded() returns (merged: Option<MergedData>)
      requires Valid()
      modifies Repr
      ensures Valid() && fresh(Repr - old(Repr)) && old(Repr) <= Repr
      ensures Model() == React(old(Model()), Event.SamplingEnded)
      ensures merged == Notification(old(Model()), Event.SamplingEnded)
    {
      var some := HasSources();
      SamplingEndedMeans(Model());
      EndSampling();
      merged := None;
      if some {
        merged := Snapshot();
      }
    }

    method EndSampling()
      requires Valid()
      modifies Repr
      ensures Valid() && fresh(Repr - old(Repr)) && old(Repr) <= Repr
      ensures Model() == EndSamplingFrom(old(Model()).(sampling := false), Next(old(Model()).sources.Keys, 0))
    {
      LeaveSampling();
      EndSamplingOfAll();
    }

    method ClearSource(h: Handle) returns (result: Status)
      requires Valid()
      modifies Repr
      ensures Valid() && fresh(Repr - old(Repr)) && old(Repr) <= Repr && unchanged(`sources)
      ensures (Model(), result) == ClearOne(old(Model()), h)
    {
      result := OnLive(Op.RemoveSource(h));
      if result != Ok {
        result := OnTrial(Op.RemoveSource(h));
      }
    }

    /** Clearing the sources from `candidate` on, unless it has already failed, leads to `goal`. */
    ghost predicate Clearing(rx: Receiver, candidate: Option<Handle>, result: Status, goal: (Receiver, Status))
      requires WellFormedReceiver(rx) && (candidate.Some? ==> candidate.value in rx.sources)
    {
      goal == if result == Ok then ClearFrom(rx, candidate) else (rx, result)
    }

    lemma ClearedOne(rx: Receiver, h: Handle, rx': Receiver, result: Status, goal: (Receiver, Status))
      requires WellFormedReceiver(rx) && h in rx.sources && (rx', result) == ClearOne(rx, h)
      requires Clearing(rx, Some(h), Ok, goal)
      ensures rx'.sources == rx.sources && WellFormedReceiver(rx')
      ensures Clearing(rx', After(rx.sources.Keys, h), result, goal)
    {
    }

    method ClearMergers() returns (result: Status)
      requires Valid()
      modifies Repr
      ensures Valid() && fresh(Repr - old(Repr)) && old(Repr) <= Repr && unchanged(`sources)
      ensures (Model(), result) == ClearFrom(old(Model()), Next(old(Model()).sources.Keys, 0))
    {
      result := Ok;
      var keys := sources.Keys;
      assert Model().sources.Keys == keys;
      var source := Next(keys, 0);
      ghost var cleared := ClearFrom(Model(), source);
      while source.Some? && result == Ok
        invariant Valid() && fresh(Repr - old(Repr)) && old(Repr) <= Repr && sources == old(sources)
        invariant Model().sources.Keys == keys && (source.Some? ==> source.value in keys)
        invariant Clearing(Model(), source, result, cleared)
        decreases Remaining(source)
      {
        ghost var was := Model();
        result := ClearSource(source.value);
        ClearedOne(was, source.value, Model(), result, cleared);
        source := After(keys, source.value);
      }
    }

    method ChangeUniverse(universe: nat, receiverResult: Status) returns (result: Status)
      requires Valid()
      modifies Repr
      ensures Valid() && fresh(Repr - old(Repr)) && old(Repr) <= Repr
      ensures (Model(), result) == MoveToUniverse(old(Model()), universe, receiverResult)
    {
      if !(MIN_UNIVERSE <= universe <= MAX_UNIVERSE) {
        return ErrInvalid;
      }
      if receiverResult != Ok {
        return receiverResult;
      }
      result := ClearMergers();
      if result == Ok {
        ForgetSources();
      }
    }
  }
}
