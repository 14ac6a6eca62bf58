/** What every callback of the merge receiver keeps, and what the end of a sampling period moves. */
module MergeReceiverProofs {
  import opened Common
  import opened MergeSpec
  import opened MergerModel
  import opened MergeReceiverModel

  /** Levels and universe priority always arrive together, and counts are 16-bit values. */
  ghost predicate FedTogether(records: Records) {
    forall h | h in records :: records[h].levelCount < 0x10000
      && (records[h].levelCount > 0 ==> !records[h].universePriorityUninitialized)
  }

  ghost predicate WithinLimit(m: Merger) {
    m.config.sourceCountMax == 0 || |m.records| <= m.config.sourceCountMax
  }

  /** A merger in a state the merge receiver can bring it to. */
  ghost predicate MergerSound(m: Merger) {
    WithinLimit(m) && Consistent(m) && FedTogether(m.records)
  }

  /** The tracked sources that belong in the sampling merger, or in the live one. */
  ghost function Members(sources: map<Handle, SourceInfo>, sampling: bool): set<Handle> {
    set h | h in sources && sources[h].sampling == sampling
  }

  /** Each tracked source is in exactly one merger: the one its sampling flag says. */
  ghost predicate Split(rx: Receiver) {
    && rx.live.records.Keys == Members(rx.sources, false)
    && rx.trial.records.Keys == Members(rx.sources, true)
  }

  ghost predicate MergersSound(rx: Receiver) {
    WellFormedReceiver(rx) && MergerSound(rx.live) && MergerSound(rx.trial)
  }

  ghost predicate Sound(rx: Receiver) {
    MergersSound(rx) && Split(rx)
  }

  /**
   No source is in a merger that its flag does not say. A source that found its merger full is in neither,
   because the result of adding it is ignored.
   */
  ghost predicate Placed(rx: Receiver) {
    && MergersSound(rx)
    && rx.live.records.Keys <= Members(rx.sources, false)
    && rx.trial.records.Keys <= Members(rx.sources, true)
  }

  /** The tracked sources that no merger has. */
  ghost function Refused(rx: Receiver): set<Handle> {
    rx.sources.Keys - rx.live.records.Keys - rx.trial.records.Keys
  }

  lemma HomesAreDisjoint(live: set<Handle>, trial: set<Handle>, sources: map<Handle, SourceInfo>)
    requires live <= Members(sources, false) && trial <= Members(sources, true)
    ensures live !! trial && live + trial <= sources.Keys
    ensures live == Members(sources, false) && trial == Members(sources, true) <==> sources.Keys - live - trial == {}
  {
    if sources.Keys - live - trial == {} {
      forall h | h in sources ensures h in live || h in trial {
        assert h !in sources.Keys - live - trial;
      }
      assert forall h | h in Members(sources, false) :: h in live;
      assert forall h | h in Members(sources, true) :: h in trial;
    } else {
      var h :| h in sources && h !in live && h !in trial;
      assert h in Members(sources, sources[h].sampling);
    }
  }

  lemma SoundIffNobodyRefused(rx: Receiver)
    requires Placed(rx)
    ensures Sound(rx) <==> Refused(rx) == {}
    ensures rx.live.records.Keys !! rx.trial.records.Keys
    ensures rx.live.records.Keys + rx.trial.records.Keys <= rx.sources.Keys
  {
    HomesAreDisjoint(rx.live.records.Keys, rx.trial.records.Keys, rx.sources);
  }

  /** Each of the two mergers could take in all tracked sources. */
  ghost predicate Roomy(rx: Receiver) {
    rx.live.config.sourceCountMax == 0 || |rx.sources| <= rx.live.config.sourceCountMax
  }

  /** And one source more. */
  ghost predicate RoomForOne(rx: Receiver) {
    rx.live.config.sourceCountMax == 0 || |rx.sources| < rx.live.config.sourceCountMax
  }

  function KeysAfter(m: Merger, op: Op): set<Handle> {
    if op.AddSource? && op.source != INVALID_SOURCE && HasRoom(m) then m.records.Keys + {op.source}
    else if op.RemoveSource? then m.records.Keys - {op.source}
    else m.records.Keys
  }

  /** Which sources an operation leaves in a merger. */
  lemma StepKeys(m: Merger, op: Op)
    requires WellFormed(m)
    ensures Step(m, op).records.Keys == KeysAfter(m, op)
  {
  }

  lemma StepKeepsLimit(m: Merger, op: Op)
    requires WellFormed(m) && WithinLimit(m)
    ensures WithinLimit(Step(m, op))
  {
    StepKeys(m, op);
    if op.AddSource? && op.source != INVALID_SOURCE && HasRoom(m) {
      assert |Step(m, op).records| == |Step(m, op).records.Keys| && |m.records| == |m.records.Keys|;
    } else {
      NoMoreKeys(Step(m, op).records, m.records);
    }
  }

  lemma StepKeepsSound(m: Merger, op: Op)
    requires MergerSound(m) && !op.UpdateLevels?
    ensures MergerSound(Step(m, op))
  {
    StepKeepsConsistent(m, op);
    StepKeepsLimit(m, op);
  }

  lemma FeedingKeepsSound(m: Merger, h: Handle, levels: seq<byte>, priority: byte)
    requires MergerSound(m)
    ensures MergerSound(Step(Step(m, UpdateLevels(h, levels)), UpdateUniversePriority(h, priority)))
  {
    var fed := Step(m, UpdateLevels(h, levels));
    StepKeepsConsistent(m, UpdateLevels(h, levels));
    StepKeepsLimit(m, UpdateLevels(h, levels));
    StepKeepsConsistent(fed, UpdateUniversePriority(h, priority));
    StepKeepsLimit(fed, UpdateUniversePriority(h, priority));
    FeedingKeepsTogether(m, h, levels, priority);
  }

  lemma FeedingKeepsTogether(m: Merger, h: Handle, levels: seq<byte>, priority: byte)
    requires WellFormed(m) && FedTogether(m.records)
    ensures FedTogether(Step(Step(m, UpdateLevels(h, levels)), UpdateUniversePriority(h, priority)).records)
  {
  }

  lemma FeedingKeepsKeys(m: Merger, h: Handle, levels: seq<byte>, priority: byte)
    requires WellFormed(m)
    ensures Step(Step(m, UpdateLevels(h, levels)), UpdateUniversePriority(h, priority)).records.Keys == m.records.Keys
  {
    StepKeys(m, UpdateLevels(h, levels));
    StepKeys(Step(m, UpdateLevels(h, levels)), UpdateUniversePriority(h, priority));
  }

  // ---- Single callbacks ----

  function Home(rx: Receiver, sampling: bool): Merger {
    if sampling then rx.trial else rx.live
  }

  /** An operation on one merger leaves the other alone. */
  lemma OnMergerKeeps(rx: Receiver, sampling: bool, op: Op)
    requires MergersSound(rx) && !op.UpdateLevels?
    ensures MergersSound(OnMerger(rx, sampling, op))
    ensures Home(OnMerger(rx, sampling, op), sampling).records.Keys == KeysAfter(Home(rx, sampling), op)
    ensures Home(OnMerger(rx, sampling, op), !sampling) == Home(rx, !sampling)
  {
    StepKeepsSound(Home(rx, sampling), op);
    StepKeys(Home(rx, sampling), op);
  }

  ghost predicate SplitBy(rx: Receiver, sampling: bool) {
    Home(rx, sampling).records.Keys == Members(rx.sources, sampling)
  }

  lemma SplitByBoth(rx: Receiver, sampling: bool)
    ensures Split(rx) <==> SplitBy(rx, sampling) && SplitBy(rx, !sampling)
  {
  }

  /** Filing a source under a sampling flag makes it a member there and nowhere else. */
  lemma MembersAfterUpdate(sources: map<Handle, SourceInfo>, h: Handle, info: SourceInfo)
    ensures Members(sources[h := info], info.sampling) == Members(sources, info.sampling) + {h}
    ensures Members(sources[h := info], !info.sampling) == Members(sources, !info.sampling) - {h}
  {
  }

  /** New information about a tracked source, under the flag it has, moves nobody. */
  lemma MembersKept(sources: map<Handle, SourceInfo>, h: Handle, info: SourceInfo, sampling: bool)
    requires h in sources && info.sampling == sources[h].sampling
    ensures Members(sources[h := info], sampling) == Members(sources, sampling)
  {
  }

  /** Below the limit, either merger has room. */
  lemma RoomInBoth(rx: Receiver)
    requires Sound(rx) && RoomForOne(rx)
    ensures HasRoom(rx.live) && HasRoom(rx.trial)
  {
    NoMoreKeys(rx.live.records, rx.sources);
    NoMoreKeys(rx.trial.records, rx.sources);
  }

  lemma TrackKeepsSound(rx: Receiver, p: Packet)
    requires Sound(rx) && p.source != INVALID_SOURCE
    requires p.source in rx.sources || HasRoom(Home(rx, p.isSampling))
    ensures Sound(Track(rx, p))
  {
    if p.source in rx.sources {
      NotedIsSound(rx, p.source, Noted(rx.sources[p.source], p));
    } else {
      NewcomerIsSound(rx, p);
    }
  }

  lemma NotedIsSound(rx: Receiver, h: Handle, info: SourceInfo)
    requires Sound(rx) && h in rx.sources && info.sampling == rx.sources[h].sampling
    ensures Sound(rx.(sources := rx.sources[h := info]))
  {
    MembersKept(rx.sources, h, info, false);
    MembersKept(rx.sources, h, info, true);
  }

  lemma AddedIsSplit(rx: Receiver, h: Handle, info: SourceInfo, added: Receiver)
    requires Split(rx) && h !in rx.sources && added.sources == rx.sources[h := info]
    requires Home(added, info.sampling).records.Keys == Home(rx, info.sampling).records.Keys + {h}
    requires Home(added, !info.sampling) == Home(rx, !info.sampling)
    ensures Split(added)
  {
    MembersAfterUpdate(rx.sources, h, info);
    assert Members(rx.sources, !info.sampling) - {h} == Members(rx.sources, !info.sampling);
    SplitByBoth(rx, info.sampling);
    SplitByBoth(added, info.sampling);
  }

  lemma NewcomerIsSound(rx: Receiver, p: Packet)
    requires Sound(rx) && p.source != INVALID_SOURCE && p.source !in rx.sources && HasRoom(Home(rx, p.isSampling))
    ensures Sound(Track(rx, p))
  {
    var info := Noted(SourceInfo(p.isSampling, false, false, 0), p);
    AddedIsSound(rx, p.source, info);
    TrackedNewcomer(rx, p);
  }

  lemma TrackedNewcomer(rx: Receiver, p: Packet)
    requires WellFormedReceiver(rx) && p.source != INVALID_SOURCE && p.source !in rx.sources
    ensures Track(rx, p) == OnMerger(rx, p.isSampling, AddSource(p.source)).(
      sources := rx.sources[p.source := Noted(SourceInfo(p.isSampling, false, false, 0), p)])
  {
  }

  lemma AddedIsSound(rx: Receiver, h: Handle, info: SourceInfo)
    requires Sound(rx) && h != INVALID_SOURCE && h !in rx.sources && HasRoom(Home(rx, info.sampling))
    ensures Sound(OnMerger(rx, info.sampling, AddSource(h)).(sources := rx.sources[h := info]))
  {
    var sampling := info.sampling;
    var added := OnMerger(rx, sampling, AddSource(h)).(sources := rx.sources[h := info]);
    OnMergerKeeps(rx, sampling, AddSource(h));
    AddedIsSplit(rx, h, info, added);
  }

  lemma FedKeepsSound(rx: Receiver, sampling: bool, h: Handle, levels: seq<byte>, priority: byte)
    requires Sound(rx)
    ensures Sound(Fed(rx, sampling, h, levels, priority))
  {
    FeedingKeepsSound(Home(rx, sampling), h, levels, priority);
    FeedingKeepsKeys(Home(rx, sampling), h, levels, priority);
    SplitByBoth(rx, sampling);
    SplitByBoth(Fed(rx, sampling, h, levels, priority), sampling);
  }

  lemma FeedKeepsSound(rx: Receiver, p: Packet)
    requires Sound(rx)
    ensures Sound(Feed(rx, p))
  {
    if p.startCode == STARTCODE_DMX {
      FedKeepsSound(rx, p.isSampling, p.source, p.values, p.priority);
    } else {
      UpdateKeepsSound(rx, p.isSampling, UpdatePap(p.source, p.values));
    }
  }

  /** An operation that neither adds nor removes a source moves nobody. */
  lemma UpdateKeepsSound(rx: Receiver, sampling: bool, op: Op)
    requires Sound(rx) && !op.UpdateLevels? && !op.AddSource? && !op.RemoveSource?
    ensures Sound(OnMerger(rx, sampling, op))
  {
    OnMergerKeeps(rx, sampling, op);
    SplitByBoth(rx, sampling);
    SplitByBoth(OnMerger(rx, sampling, op), sampling);
  }

  lemma LoseOneKeepsSound(rx: Receiver, h: Handle)
    requires Sound(rx)
    ensures Sound(LoseOne(rx, h))
  {
    if h in rx.sources {
      var sampling := rx.sources[h].sampling;
      OnMergerKeeps(rx, sampling, RemoveSource(h));
      MembersAfterRemoval(rx.sources, h);
      SplitByBoth(rx, sampling);
      SplitByBoth(LoseOne(rx, h), sampling);
    }
  }

  lemma MembersAfterRemoval(sources: map<Handle, SourceInfo>, h: Handle)
    requires h in sources
    ensures Members(sources - {h}, sources[h].sampling) == Members(sources, sources[h].sampling) - {h}
    ensures Members(sources - {h}, !sources[h].sampling) == Members(sources, !sources[h].sampling)
  {
  }

  lemma {:induction false} LoseKeepsSound(rx: Receiver, lost: seq<Handle>)
    requires Sound(rx)
    ensures Sound(Lose(rx, lost))
    decreases |lost|
  {
    if lost != [] {
      LoseKeepsSound(rx, lost[..|lost| - 1]);
      LoseOneKeepsSound(Lose(rx, lost[..|lost| - 1]), lost[|lost| - 1]);
    }
  }

  lemma LosePapKeepsSound(rx: Receiver, h: Handle)
    requires Sound(rx)
    ensures Sound(LosePap(rx, h))
  {
    if rx.usePap && h in rx.sources {
      var info := rx.sources[h].(papActive := false);
      MembersKept(rx.sources, h, info, false);
      MembersKept(rx.sources, h, info, true);
      UpdateKeepsSound(rx.(sources := rx.sources[h := info]), info.sampling, RemovePap(h));
    }
  }

  // ---- The end of a sampling period ----

  /** The record a source gets in the live merger, rebuilt from its record in the sampling merger. */
  function Migrated(r: SourceRecord, n: nat): SourceRecord
    requires r.levelCount <= |r.levels| && r.levelCount <= |r.addressPriority| && r.levelCount <= n
  {
    var fed := WithUniversePriority(WithLevels(FreshRecord(n), r.levels[..r.levelCount]), r.universePriority);
    if r.usingUniversePriority then fed else WithPap(fed, r.addressPriority[..r.levelCount])
  }

  /** Two records that put the same levels and the same effective priorities into a merge. */
  ghost predicate SameInput(a: SourceRecord, b: SourceRecord, n: nat) {
    && |a.addressPriority| == |b.addressPriority| == n
    && a.levels == b.levels && a.levelCount == b.levelCount
    && a.universePriority == b.universePriority && a.usingUniversePriority == b.usingUniversePriority
    && forall i | 0 <= i < n :: EffectivePriority(a, i) == EffectivePriority(b, i)
  }

  lemma MigrationKeepsInput(r: SourceRecord, n: nat)
    requires RecordOk(r, n) && (r.levelCount > 0 ==> !r.universePriorityUninitialized)
    ensures RecordOk(Migrated(r, n), n) && SameInput(r, Migrated(r, n), n)
    ensures !Migrated(r, n).universePriorityUninitialized
  {
    assert r.levels == Padded(r.levels[..r.levelCount], n);
  }

  /** The stored PAP itself survives exactly when none of it lies beyond the level count. */
  lemma MigrationKeepsStoredPapIff(r: SourceRecord, n: nat)
    requires RecordOk(r, n) && !r.usingUniversePriority
    ensures Migrated(r, n).addressPriority == r.addressPriority
      <==> forall i | r.levelCount <= i < n :: r.addressPriority[i] == 0
  {
    var kept := Padded(r.addressPriority[..r.levelCount], n);
    if forall i | r.levelCount <= i < n :: r.addressPriority[i] == 0 {
      assert kept == r.addressPriority;
    }
    assert forall i | r.levelCount <= i < n :: kept[i] == 0;
  }

  lemma AddedRecord(m: Merger, h: Handle)
    requires WellFormed(m) && HasRoom(m) && h !in m.records && h != INVALID_SOURCE
    ensures Step(m, AddSource(h)).records == m.records[h := FreshRecord(m.config.slotCount)]
  {
  }

  lemma LevelsRecord(m: Merger, h: Handle, levels: seq<byte>)
    requires WellFormed(m) && h in m.records && |levels| <= m.config.slotCount && |levels| < 0x10000
    ensures Step(m, UpdateLevels(h, levels)).records == m.records[h := WithLevels(m.records[h], levels)]
  {
    assert Truncated(levels) == levels;
  }

  lemma PriorityRecord(m: Merger, h: Handle, u: byte)
    requires WellFormed(m) && h in m.records
    ensures Step(m, UpdateUniversePriority(h, u)).records == m.records[h := WithUniversePriority(m.records[h], u)]
  {
  }

  lemma PapRecord(m: Merger, h: Handle, pap: seq<byte>)
    requires WellFormed(m) && h in m.records && |pap| <= m.config.slotCount && |pap| < 0x10000
    ensures Step(m, UpdatePap(h, pap)).records == m.records[h := WithPap(m.records[h], pap)]
  {
    assert Truncated(pap) == pap;
  }

  lemma Overwritten(records: Records, h: Handle, first: SourceRecord, second: SourceRecord)
    ensures records[h := first][h] == first && records[h := first][h := second] == records[h := second]
  {
  }

  /** A newcomer fed levels and universe priority. */
  lemma NewcomerRecord(m: Merger, h: Handle, levels: seq<byte>, u: byte)
    requires WellFormed(m) && HasRoom(m) && h !in m.records && h != INVALID_SOURCE
    requires |levels| <= m.config.slotCount && |levels| < 0x10000
    ensures var n := m.config.slotCount;
      var b := Step(Step(m, AddSource(h)), UpdateLevels(h, levels));
      Step(b, UpdateUniversePriority(h, u)).records
        == m.records[h := WithUniversePriority(WithLevels(FreshRecord(n), levels), u)]
  {
    var blank := FreshRecord(m.config.slotCount);
    var a := Step(m, AddSource(h));
    AddedRecord(m, h);
    LevelsRecord(a, h, levels);
    Overwritten(m.records, h, blank, WithLevels(blank, levels));
    PriorityRecord(Step(a, UpdateLevels(h, levels)), h, u);
    Overwritten(m.records, h, WithLevels(blank, levels), WithUniversePriority(WithLevels(blank, levels), u));
  }

  lemma MigratedRecord(m: Merger, h: Handle, r: SourceRecord)
    requires WellFormed(m) && HasRoom(m) && h !in m.records && h != INVALID_SOURCE
    requires RecordOk(r, m.config.slotCount) && r.levelCount < 0x10000
    ensures var n := m.config.slotCount;
      var a := Step(m, AddSource(h));
      var b := Step(a, UpdateLevels(h, r.levels[..r.levelCount]));
      var c := Step(b, UpdateUniversePriority(h, r.universePriority));
      var d := if r.usingUniversePriority then c else Step(c, UpdatePap(h, r.addressPriority[..r.levelCount]));
      d.records == m.records[h := Migrated(r, n)]
  {
    var n, pap, levels := m.config.slotCount, r.addressPriority[..r.levelCount], r.levels[..r.levelCount];
    var c := Step(Step(Step(m, AddSource(h)), UpdateLevels(h, levels)), UpdateUniversePriority(h, r.universePriority));
    var fed := WithUniversePriority(WithLevels(FreshRecord(n), levels), r.universePriority);
    NewcomerRecord(m, h, levels, r.universePriority);
    if !r.usingUniversePriority {
      PapRecord(c, h, pap);
      Overwritten(m.records, h, fed, WithPap(fed, pap));
    }
  }

  /** Moving one source: the live merger gains its rebuilt record, the sampling merger loses it. */
  lemma MigrateMoves(rx: Receiver, h: Handle)
    requires WellFormedReceiver(rx) && MergerSound(rx.live) && MergerSound(rx.trial)
    requires h in rx.trial.records && h !in rx.live.records && HasRoom(rx.live)
    ensures var rx' := Migrate(rx, h);
      && rx'.live.records == rx.live.records[h := Migrated(rx.trial.records[h], rx.live.config.slotCount)]
      && rx'.trial.records == rx.trial.records - {h}
      && MergerSound(rx'.live) && MergerSound(rx'.trial)
  {
    var r := rx.trial.records[h];
    var levels := r.levels[..r.levelCount];
    MigratedRecord(rx.live, h, r);
    var a := Step(rx.live, AddSource(h));
    var b := Step(a, UpdateLevels(h, levels));
    var c := Step(b, UpdateUniversePriority(h, r.universePriority));
    StepKeepsSound(rx.live, AddSource(h));
    FeedingKeepsSound(a, h, levels, r.universePriority);
    StepKeepsSound(c, UpdatePap(h, r.addressPriority[..r.levelCount]));
    StepKeepsSound(rx.trial, RemoveSource(h));
  }

  /** Nothing that is sent for a source reaches a merger that has neither the source nor room for it. */
  lemma ShutOut(m: Merger, op: Op)
    requires WellFormed(m) && op.source !in m.records && (op.AddSource? ==> !HasRoom(m))
    ensures Step(m, op) == m
  {
  }

  lemma RebuiltOutside(m: Merger, h: Handle, levels: seq<byte>, priority: byte, pap: seq<byte>)
    requires WellFormed(m) && h !in m.records && !HasRoom(m)
    ensures Step(m, AddSource(h)) == m && Step(m, UpdateLevels(h, levels)) == m
    ensures Step(m, UpdateUniversePriority(h, priority)) == m && Step(m, UpdatePap(h, pap)) == m
  {
    ShutOut(m, AddSource(h));
    ShutOut(m, UpdateLevels(h, levels));
    ShutOut(m, UpdateUniversePriority(h, priority));
    ShutOut(m, UpdatePap(h, pap));
  }

  /** With no room for it in the live merger, the source only leaves the sampling merger. */
  lemma MigrateWithoutRoom(rx: Receiver, h: Handle)
    requires MergersSound(rx) && h in rx.trial.records && h !in rx.live.records && !HasRoom(rx.live)
    ensures var rx' := Migrate(rx, h);
      rx'.live == rx.live && rx'.trial.records == rx.trial.records - {h} && MergerSound(rx'.trial)
  {
    var r := rx.trial.records[h];
    RebuiltOutside(rx.live, h, r.levels[..r.levelCount], r.universePriority, r.addressPriority[..r.levelCount]);
    StepKeepsSound(rx.trial, RemoveSource(h));
  }

  function Below(keys: set<Handle>, h: Handle): set<Handle> {
    set k | k in keys && k < h
  }

  /** The moving sources that find room in handle order, when `count` sources have come before them. */
  ghost function FirstOf(moving: Records, count: nat, limit: nat): Records {
    map h | h in moving && (limit == 0 || count + |Below(moving.Keys, h)| < limit) :: moving[h]
  }

  /** The records that the end of the sampling period moves. */
  ghost function Fitting(rx: Receiver): Records {
    FirstOf(rx.trial.records, |rx.live.records|, rx.live.config.sourceCountMax)
  }

  lemma FirstFitsIffRoom(moving: Records, count: nat, limit: nat, h: Handle)
    requires h in moving && forall k | k in moving :: h <= k
    ensures h in FirstOf(moving, count, limit) <==> limit == 0 || count < limit
  {
    assert Below(moving.Keys, h) == {};
  }

  lemma BelowAfterMove(keys: set<Handle>, h: Handle, k: Handle)
    requires h in keys && h < k
    ensures |Below(keys - {h}, k)| == |Below(keys, k)| - 1
  {
    assert Below(keys, k) == Below(keys - {h}, k) + {h};
  }

  /** Moving the first source, or finding no room for it, changes nothing about who fits after it. */
  lemma FittingAfterMove(moving: Records, count: nat, limit: nat, h: Handle)
    requires h in moving && forall k | k in moving :: h <= k
    ensures FirstOf(moving - {h}, if limit == 0 || count < limit then count + 1 else count, limit)
      == FirstOf(moving, count, limit) - {h}
  {
    var rest := moving - {h};
    assert rest.Keys == moving.Keys - {h};
    forall k | k in rest ensures |Below(rest.Keys, k)| == |Below(moving.Keys, k)| - 1 {
      BelowAfterMove(moving.Keys, h, k);
    }
  }

  /** What the end of sampling does to one source keeps everybody placed and moves nobody else. */
  ghost predicate Moved(rx: Receiver, h: Handle, rx': Receiver)
    requires WellFormedReceiver(rx) && h in rx.sources
  {
    && Placed(rx') && rx'.live.config == rx.live.config
    && rx'.sources == rx.sources[h := rx.sources[h].(sampling := false)]
    && rx'.live.records == (if h in Fitting(rx)
         then rx.live.records[h := Migrated(rx.trial.records[h], rx.live.config.slotCount)] else rx.live.records)
    && rx'.trial.records == rx.trial.records - {h}
  }

  /** Clearing the flag of a source that has left the sampling merger. */
  lemma FlagFollows(rx: Receiver, h: Handle, moved: Receiver)
    requires Placed(rx) && MergersSound(moved) && h in rx.sources && moved.sources == rx.sources
    requires moved.live.records.Keys <= rx.live.records.Keys + {h}
    requires moved.trial.records.Keys == rx.trial.records.Keys - {h}
    ensures Placed(moved.(sources := moved.sources[h := rx.sources[h].(sampling := false)]))
  {
    MembersAfterUpdate(rx.sources, h, rx.sources[h].(sampling := false));
  }

  lemma SamplingSourceMoves(rx: Receiver, h: Handle)
    requires Placed(rx) && h in rx.trial.records && forall k | k in rx.trial.records :: h <= k
    ensures Moved(rx, h, EndSamplingOf(rx, h))
  {
    assert h in Members(rx.sources, true) && h !in Members(rx.sources, false);
    FirstFitsIffRoom(rx.trial.records, |rx.live.records|, rx.live.config.sourceCountMax, h);
    if HasRoom(rx.live) {
      MigrateMoves(rx, h);
    } else {
      MigrateWithoutRoom(rx, h);
    }
    var moved := Migrate(rx, h);
    FlagFollows(rx, h, moved);
    assert EndSamplingOf(rx, h) == moved.(sources := rx.sources[h := rx.sources[h].(sampling := false)]);
  }

  lemma EndSamplingOfMoves(rx: Receiver, h: Handle)
    requires Placed(rx) && h in rx.sources && forall k | k in rx.trial.records :: h <= k
    ensures Moved(rx, h, EndSamplingOf(rx, h))
  {
    if h in rx.trial.records {
      SamplingSourceMoves(rx, h);
    } else {
      LiveSourceStays(rx, h, EndSamplingOf(rx, h));
    }
  }

  lemma LiveSourceStays(rx: Receiver, h: Handle, after: Receiver)
    requires Placed(rx) && h in rx.sources && h !in rx.trial.records
    requires after == rx.(sources := rx.sources[h := rx.sources[h].(sampling := false)])
    ensures Moved(rx, h, after)
  {
    assert rx.trial.records - {h} == rx.trial.records;
    FlagFollows(rx, h, rx);
  }

  /** The joining records as the live merger rebuilds them. */
  ghost function RebuiltAll(joining: Records, n: nat): Records {
    map h | h in joining && RecordOk(joining[h], n) :: Migrated(joining[h], n)
  }

  lemma RebuiltOneByOne(live: Records, joining: Records, h: Handle, n: nat)
    requires RecordsOk(joining, n)
    ensures h in joining ==>
      live[h := Migrated(joining[h], n)] + RebuiltAll(joining - {h}, n) == live + RebuiltAll(joining, n)
    ensures h !in joining ==> joining - {h} == joining
  {
    if h in joining {
      assert RebuiltAll(joining, n) == RebuiltAll(joining - {h}, n)[h := Migrated(joining[h], n)];
    }
  }

  ghost predicate FlagsCleared(before: map<Handle, SourceInfo>, bound: int, after: map<Handle, SourceInfo>) {
    && after.Keys == before.Keys
    && forall h | h in before :: after[h] == if h >= bound then before[h].(sampling := false) else before[h]
  }

  lemma {:induction false} EndSamplingClearsFlags(rx: Receiver, candidate: Option<Handle>, bound: int)
    requires WellFormedReceiver(rx) && IsNext(rx.sources.Keys, bound, candidate)
    ensures FlagsCleared(rx.sources, bound, EndSamplingFrom(rx, candidate).sources)
    decreases Remaining(candidate)
  {
    if candidate.Some? {
      var h := candidate.value;
      var next := EndSamplingOf(rx, h);
      assert next.sources.Keys == rx.sources.Keys;
      EndSamplingClearsFlags(next, After(rx.sources.Keys, h), h + 1);
    }
  }

  /** Nobody in the sampling merger comes before the next source. */
  lemma NextIsFirst(moving: set<Handle>, keys: set<Handle>, bound: int, candidate: Option<Handle>)
    requires moving <= keys && IsNext(keys, bound, candidate) && forall h | h in moving :: h >= bound
    ensures candidate.None? ==> moving == {}
    ensures candidate.Some? ==> forall h | h in moving :: candidate.value <= h
  {
  }

  /** The live records once everybody who fits has moved. */
  ghost function Grown(live: Records, moving: Records, limit: nat, n: nat): Records {
    live + RebuiltAll(FirstOf(moving, |live|, limit), n)
  }

  ghost function AllGrown(rx: Receiver): Records {
    Grown(rx.live.records, rx.trial.records, rx.live.config.sourceCountMax, rx.live.config.slotCount)
  }

  /** Whether the first source moves, finds no room, or is live already, the same others fit after it. */
  lemma FittingMoves(live: Records, moving: Records, limit: nat, h: Handle, live': Records)
    requires live.Keys !! moving.Keys && forall k | k in moving :: h <= k
    requires live'.Keys == if h in FirstOf(moving, |live|, limit) then live.Keys + {h} else live.Keys
    ensures FirstOf(moving - {h}, |live'|, limit) == FirstOf(moving, |live|, limit) - {h}
  {
    assert |live'| == |live'.Keys| && |live| == |live.Keys|;
    if h in moving {
      FirstFitsIffRoom(moving, |live|, limit, h);
      FittingAfterMove(moving, |live|, limit, h);
    } else {
      assert moving - {h} == moving && FirstOf(moving, |live|, limit) - {h} == FirstOf(moving, |live|, limit);
    }
  }

  /** One source's move followed by the moves of all later ones. */
  lemma MovesCompose(live: Records, moving: Records, limit: nat, n: nat, h: Handle, live': Records)
    requires RecordsOk(moving, n) && live.Keys !! moving.Keys && forall k | k in moving :: h <= k
    requires live' == if h in FirstOf(moving, |live|, limit) then live[h := Migrated(moving[h], n)] else live
    ensures Grown(live', moving - {h}, limit, n) == Grown(live, moving, limit, n)
  {
    FittingMoves(live, moving, limit, h, live');
    RebuiltOneByOne(live, FirstOf(moving, |live|, limit), h, n);
  }

  /** The sources before `bound` have left the sampling merger. */
  ghost predicate MovedBelow(rx: Receiver, bound: int) {
    Placed(rx) && forall k | k in rx.trial.records :: k >= bound
  }

  lemma FirstOnTrial(rx: Receiver, h: Handle, bound: int)
    requires MovedBelow(rx, bound) && IsNext(rx.sources.Keys, bound, Some(h))
    ensures forall k | k in rx.trial.records :: h <= k
  {
    SoundIffNobodyRefused(rx);
    NextIsFirst(rx.trial.records.Keys, rx.sources.Keys, bound, Some(h));
  }

  lemma OneMoreGrown(rx: Receiver, h: Handle, next: Receiver)
    requires Placed(rx) && h in rx.sources && Moved(rx, h, next) && forall k | k in rx.trial.records :: h <= k
    ensures AllGrown(next) == AllGrown(rx)
  {
    SoundIffNobodyRefused(rx);
    MovesCompose(rx.live.records, rx.trial.records, rx.live.config.sourceCountMax, rx.live.config.slotCount, h,
                 next.live.records);
  }

  lemma OthersComeLater(before: Records, h: int, after: Records)
    requires after.Keys == before.Keys - {h} && forall k | k in before :: h <= k
    ensures forall k | k in after :: k >= h + 1
  {
  }

  lemma OneMoreMoved(rx: Receiver, h: Handle, next: Receiver)
    requires Placed(rx) && h in rx.sources && Moved(rx, h, next) && forall k | k in rx.trial.records :: h <= k
    ensures MovedBelow(next, h + 1) && AllGrown(next) == AllGrown(rx)
    ensures next.sources.Keys == rx.sources.Keys && next.live.config == rx.live.config
  {
    OneMoreGrown(rx, h, next);
    OthersComeLater(rx.trial.records, h, next.trial.records);
  }

  lemma NobodyMoves(live: Records, moving: Records, limit: nat, n: nat)
    requires moving.Keys == {}
    ensures Grown(live, moving, limit, n) == live
  {
    assert FirstOf(moving, |live|, limit) == map[];
  }

  lemma NobodyIsNext(rx: Receiver, bound: int)
    requires MovedBelow(rx, bound) && IsNext(rx.sources.Keys, bound, None)
    ensures AllGrown(rx) == rx.live.records
  {
    SoundIffNobodyRefused(rx);
    NextIsFirst(rx.trial.records.Keys, rx.sources.Keys, bound, None);
    NobodyMoves(rx.live.records, rx.trial.records, rx.live.config.sourceCountMax, rx.live.config.slotCount);
  }

  lemma {:induction false} EndSamplingMovesRecords(rx: Receiver, candidate: Option<Handle>, bound: int)
    requires MovedBelow(rx, bound) && IsNext(rx.sources.Keys, bound, candidate)
    ensures var after := EndSamplingFrom(rx, candidate);
      Placed(after) && after.live.config == rx.live.config && after.live.records == AllGrown(rx)
    decreases Remaining(candidate)
  {
    if candidate.Some? {
      var h := candidate.value;
      FirstOnTrial(rx, h, bound);
      EndSamplingOfMoves(rx, h);
      var next := EndSamplingOf(rx, h);
      OneMoreMoved(rx, h, next);
      EndSamplingMovesRecords(next, After(rx.sources.Keys, h), h + 1);
    } else {
      NobodyIsNext(rx, bound);
    }
  }

  lemma SameInputsSameWinner(stored: Records, rebuilt: Records, n: nat, slot: nat, o: SlotOutput)
    requires Sized(stored, n) && Sized(rebuilt, n) && slot < n && stored.Keys == rebuilt.Keys
    requires forall h | h in stored :: BidOf(stored[h], slot) == BidOf(rebuilt[h], slot)
    ensures Winner(rebuilt, n, slot, o) ==> Winner(stored, n, slot, o)
  {
  }

  /** The slots are the from-scratch merge of both sets of records together. */
  ghost predicate MergesBoth(live: Records, joining: Records, n: nat, slots: seq<SlotOutput>) {
    live.Keys !! joining.Keys && Sized(live + joining, n) && Winners(live + joining, n, slots)
  }

  ghost predicate Emptied(m: Merger) {
    m.records == map[] && m.slots == seq(m.config.slotCount, _ => UNSOURCED)
  }

  /** Live records are untouched; the joining ones keep their levels and effective priorities; there are no others. */
  ghost predicate RecordsMoved(live: Records, joining: Records, after: Records, n: nat) {
    && after.Keys == live.Keys + joining.Keys
    && (forall h | h in live :: after[h] == live[h])
    && (forall h | h in joining :: SameInput(joining[h], after[h], n))
  }

  lemma RebuiltKeepsInput(live: Records, joining: Records, n: nat)
    requires RecordsOk(joining, n) && FedTogether(joining) && live.Keys !! joining.Keys
    ensures RecordsMoved(live, joining, live + RebuiltAll(joining, n), n)
  {
    forall h | h in joining ensures SameInput(joining[h], RebuiltAll(joining, n)[h], n) {
      MigrationKeepsInput(joining[h], n);
    }
  }

  /**
   When a sampling period ends, the sampling sources that find room, in handle order, are in the live merger with
   the input they had, every live source is untouched, the live outputs are the from-scratch merge of the old live
   sources and the moved ones together, and the sampling merger is empty with all of its slots unsourced.
   */
  lemma EndOfSamplingMovesWhoeverFits(rx: Receiver)
    requires Placed(rx)
    ensures var rx' := React(rx, SamplingEnded);
      var live, joining, n := rx.live.records, Fitting(rx), rx.live.config.slotCount;
      && Placed(rx') && rx'.live.config == rx.live.config
      && FlagsCleared(rx.sources, 0, rx'.sources)
      && rx'.live.records == AllGrown(rx) && RecordsMoved(live, joining, rx'.live.records, n)
      && MergesBoth(live, joining, n, rx'.live.slots)
      && Emptied(rx'.trial)
  {
    EndOfSamplingMoves(rx);
    var rx' := React(rx, SamplingEnded);
    FittingIsDisjoint(rx);
    RebuiltKeepsInput(rx.live.records, Fitting(rx), rx.live.config.slotCount);
    MergeOfBoth(rx.live.records, Fitting(rx), rx'.live, rx.live.config.slotCount);
    NobodyIsSampling(rx');
  }

  lemma FittingIsDisjoint(rx: Receiver)
    requires Placed(rx)
    ensures rx.live.records.Keys !! Fitting(rx).Keys && FedTogether(Fitting(rx))
    ensures RecordsOk(Fitting(rx), rx.live.config.slotCount)
  {
    SoundIffNobodyRefused(rx);
  }

  lemma EndOfSamplingMoves(rx: Receiver)
    requires Placed(rx)
    ensures var rx' := React(rx, SamplingEnded);
      && Placed(rx') && rx'.live.config == rx.live.config && FlagsCleared(rx.sources, 0, rx'.sources)
      && rx'.live.records == AllGrown(rx)
  {
    var start := rx.(sampling := false);
    EndSamplingClearsFlags(start, Next(rx.sources.Keys, 0), 0);
    EndSamplingMovesRecords(start, Next(rx.sources.Keys, 0), 0);
  }

  lemma NobodyIsSampling(rx: Receiver)
    requires Placed(rx) && forall h | h in rx.sources :: !rx.sources[h].sampling
    ensures Emptied(rx.trial)
  {
    assert Members(rx.sources, true) == {};
    assert rx.trial.records.Keys == {};
    NoSourcesNoOutput(rx.trial);
  }

  lemma EverybodyFits(moving: Records, count: nat, limit: nat)
    requires limit == 0 || count + |moving| <= limit
    ensures FirstOf(moving, count, limit) == moving
  {
    forall h | h in moving ensures |Below(moving.Keys, h)| < |moving| {
      assert h !in Below(moving.Keys, h);
      FewerElements(Below(moving.Keys, h), moving.Keys, h);
    }
  }

  lemma FewerElements(small: set<Handle>, large: set<Handle>, h: Handle)
    requires small <= large && h in large && h !in small
    ensures |small| < |large|
  {
    assert large == small + (large - small) && h in large - small;
    assert |large| == |small| + |large - small|;
  }

  lemma RoomySoundFits(rx: Receiver)
    requires Sound(rx) && Roomy(rx)
    ensures Fitting(rx) == rx.trial.records
    ensures rx.live.records.Keys + rx.trial.records.Keys == rx.sources.Keys
  {
    SoundIffNobodyRefused(rx);
    var live, trial := rx.live.records, rx.trial.records;
    assert live.Keys + trial.Keys == rx.sources.Keys && |live.Keys + trial.Keys| == |live.Keys| + |trial.Keys|;
    assert |rx.sources| == |rx.sources.Keys| && |live| == |live.Keys| && |trial| == |trial.Keys|;
    EverybodyFits(trial, |live|, rx.live.config.sourceCountMax);
  }

  /** With nobody refused and room for all, every sampling source moves. */
  lemma EndOfSamplingMovesEverything(rx: Receiver)
    requires Sound(rx) && Roomy(rx)
    ensures var rx' := React(rx, SamplingEnded);
      var live, trial, n := rx.live.records, rx.trial.records, rx.live.config.slotCount;
      && Sound(rx')
      && FlagsCleared(rx.sources, 0, rx'.sources)
      && rx'.live.records.Keys == rx.sources.Keys
      && rx'.live.records == live + RebuiltAll(trial, n) && RecordsMoved(live, trial, rx'.live.records, n)
      && MergesBoth(live, trial, n, rx'.live.slots)
      && Emptied(rx'.trial)
  {
    EndOfSamplingMovesWhoeverFits(rx);
    RoomySoundFits(rx);
    SoundIffNobodyRefused(React(rx, SamplingEnded));
  }

  /** Every tracked source ends up in the live merger exactly when none had been refused and there is room for all. */
  lemma EndOfSamplingMovesEverythingIff(rx: Receiver)
    requires Placed(rx)
    ensures React(rx, SamplingEnded).live.records.Keys == rx.sources.Keys <==> Refused(rx) == {} && Roomy(rx)
  {
    SoundIffNobodyRefused(rx);
    if Refused(rx) == {} && Roomy(rx) {
      EndOfSamplingMovesEverything(rx);
    } else {
      EndOfSamplingMoves(rx);
      LiveKeepsLimit(rx, React(rx, SamplingEnded));
    }
  }

  lemma LiveKeepsLimit(rx: Receiver, rx': Receiver)
    requires Placed(rx') && rx'.live.config == rx.live.config
    requires rx'.live.records.Keys <= rx.live.records.Keys + rx.trial.records.Keys
    ensures rx'.live.records.Keys == rx.sources.Keys ==> Refused(rx) == {} && Roomy(rx)
  {
    assert |rx'.live.records| == |rx'.live.records.Keys| && |rx.sources| == |rx.sources.Keys|;
  }

  lemma NoSourcesNoOutput(m: Merger)
    requires Consistent(m) && m.records == map[]
    ensures Emptied(m)
  {
    forall i | 0 <= i < m.config.slotCount ensures m.slots[i] == UNSOURCED {
      assert Winner(m.records, m.config.slotCount, i, m.slots[i]);
    }
  }

  lemma MergeOfBoth(live: Records, joining: Records, m: Merger, n: nat)
    requires RecordsOk(live, n) && RecordsOk(joining, n) && live.Keys !! joining.Keys
    requires Consistent(m) && m.config.slotCount == n
    requires RecordsMoved(live, joining, m.records, n)
    ensures MergesBoth(live, joining, n, m.slots)
  {
    var both := live + joining;
    forall i | 0 <= i < n ensures Winner(both, n, i, m.slots[i]) {
      forall h | h in both ensures BidOf(both[h], i) == BidOf(m.records[h], i) {
        assert h in joining ==> SameInput(joining[h], m.records[h], n);
      }
      SameInputsSameWinner(both, m.records, n, i, m.slots[i]);
    }
  }

  // ---- Universe change ----

  /** What clearing leaves of the records of both mergers. */
  datatype Rest = Rest(live: Records, trial: Records, status: Status)

  /** The loop over the tracked sources, as far as it concerns the records. */
  ghost function RestFrom(live: Records, trial: Records, keys: set<Handle>, candidate: Option<Handle>): Rest
    decreases Remaining(candidate)
  {
    if candidate.None? then Rest(live, trial, Ok)
    else if candidate.value !in live && candidate.value !in trial then Rest(live, trial, ErrInvalid)
    else RestFrom(live - {candidate.value}, trial - {candidate.value}, keys, After(keys, candidate.value))
  }

  lemma NothingToTake(records: Records, h: Handle)
    ensures h !in records ==> records - {h} == records
  {
  }

  lemma RemovalRecords(m: Merger, h: Handle)
    requires WellFormed(m) && h != INVALID_SOURCE
    ensures Step(m, RemoveSource(h)).records == m.records - {h}
    ensures Outcome(m, RemoveSource(h)) == if h in m.records then Ok else ErrInvalid
    ensures h !in m.records ==> Step(m, RemoveSource(h)) == m
  {
    NothingToTake(m.records, h);
  }

  /** Removing one source from whichever merger has it, if one does. */
  lemma ClearOneRemoves(rx: Receiver, h: Handle)
    requires Placed(rx) && h in rx.sources
    ensures var (next, status) := ClearOne(rx, h);
      && Placed(next)
      && next.live.records == rx.live.records - {h} && next.trial.records == rx.trial.records - {h}
      && status == if h !in rx.live.records && h !in rx.trial.records then ErrInvalid else Ok
  {
    SoundIffNobodyRefused(rx);
    StepKeepsSound(rx.live, RemoveSource(h));
    StepKeepsSound(rx.trial, RemoveSource(h));
    RemovalRecords(rx.live, h);
    RemovalRecords(rx.trial, h);
  }

  lemma {:induction false} ClearLeavesRest(rx: Receiver, candidate: Option<Handle>)
    requires Placed(rx) && (candidate.Some? ==> candidate.value in rx.sources)
    ensures var (cleared, status) := ClearFrom(rx, candidate);
      Placed(cleared) && Rest(cleared.live.records, cleared.trial.records, status)
        == RestFrom(rx.live.records, rx.trial.records, rx.sources.Keys, candidate)
    decreases Remaining(candidate)
  {
    if candidate.Some? {
      var h := candidate.value;
      ClearOneRemoves(rx, h);
      NothingToTake(rx.live.records, h);
      NothingToTake(rx.trial.records, h);
      if ClearOne(rx, h).1 == Ok {
        ClearLeavesRest(ClearOne(rx, h).0, After(rx.sources.Keys, h));
      }
    }
  }

  /** The records from `first` on; none without it. */
  ghost function KeptFrom(records: Records, first: Option<Handle>): Records {
    map h | h in records && first.Some? && h >= first.value :: records[h]
  }

  /** The loop removes the sources before `first`, and stops there. */
  ghost function StoppedAt(live: Records, trial: Records, first: Option<Handle>): Rest {
    Rest(KeptFrom(live, first), KeptFrom(trial, first), if first.None? then Ok else ErrInvalid)
  }

  lemma NextIsUnique(keys: set<Handle>, from: int, a: Option<Handle>, b: Option<Handle>)
    requires IsNext(keys, from, a) && IsNext(keys, from, b)
    ensures a == b
  {
  }

  lemma KeptFromTheRest(records: Records, h: Handle, first: Option<Handle>)
    requires first.Some? ==> first.value > h
    ensures KeptFrom(records - {h}, first) == KeptFrom(records, first)
  {
  }

  lemma AllKept(records: Records, first: Handle)
    requires forall k | k in records :: first <= k
    ensures KeptFrom(records, Some(first)) == records
  {
  }

  /** Once the least source has been taken out, the first one in neither merger is still the same. */
  lemma FirstRefusedStays(keys: set<Handle>, live: set<Handle>, trial: set<Handle>, bound: int, h: Handle)
    requires IsNext(keys, bound, Some(h)) && (h in live || h in trial)
    ensures var first := Next(keys - live - trial, bound);
      Next(keys - (live - {h}) - (trial - {h}), h + 1) == first && (first.Some? ==> first.value > h)
  {
    var before, after := keys - live - trial, keys - (live - {h}) - (trial - {h});
    var first := Next(before, bound);
    forall k | k in after && k >= h + 1 ensures k in before && k >= bound {
    }
    forall k | k in before && k >= bound ensures k in after && k >= h + 1 {
      assert k != h;
    }
    NextIsUnique(after, h + 1, first, Next(after, h + 1));
  }

  /** What is left to clear is tracked, and comes from `bound` on. */
  ghost predicate LeftFrom(records: Records, keys: set<Handle>, bound: int) {
    records.Keys <= set h | h in keys && h >= bound
  }

  lemma RestOfNobody(live: Records, trial: Records, keys: set<Handle>, bound: int)
    requires IsNext(keys, bound, None) && LeftFrom(live, keys, bound) && LeftFrom(trial, keys, bound)
    ensures Next(keys - live.Keys - trial.Keys, bound) == None && live == map[] && trial == map[]
  {
    assert live.Keys == {} && trial.Keys == {};
    NextIsUnique(keys - live.Keys - trial.Keys, bound, None, Next(keys - live.Keys - trial.Keys, bound));
  }

  /** Where the loop stops when it goes through what is left from `bound` on. */
  ghost function StopOf(live: Records, trial: Records, keys: set<Handle>, bound: int): Rest {
    StoppedAt(live, trial, Next(keys - live.Keys - trial.Keys, bound))
  }

  lemma StopStays(live: Records, trial: Records, keys: set<Handle>, bound: int, h: Handle)
    requires IsNext(keys, bound, Some(h)) && (h in live || h in trial)
    requires LeftFrom(live, keys, bound) && LeftFrom(trial, keys, bound)
    ensures LeftFrom(live - {h}, keys, h + 1) && LeftFrom(trial - {h}, keys, h + 1)
    ensures StopOf(live - {h}, trial - {h}, keys, h + 1) == StopOf(live, trial, keys, bound)
  {
    var first := Next(keys - live.Keys - trial.Keys, bound);
    assert (live - {h}).Keys == live.Keys - {h} && (trial - {h}).Keys == trial.Keys - {h};
    FirstRefusedStays(keys, live.Keys, trial.Keys, bound, h);
    KeptFromTheRest(live, h, first);
    KeptFromTheRest(trial, h, first);
  }

  lemma StopsHere(live: Records, trial: Records, keys: set<Handle>, bound: int, h: Handle)
    requires IsNext(keys, bound, Some(h)) && LeftFrom(live, keys, bound) && LeftFrom(trial, keys, bound)
    requires h !in live && h !in trial
    ensures StopOf(live, trial, keys, bound) == Rest(live, trial, ErrInvalid)
  {
    NextIsUnique(keys - live.Keys - trial.Keys, bound, Some(h), Next(keys - live.Keys - trial.Keys, bound));
    AllKept(live, h);
    AllKept(trial, h);
  }

  lemma {:induction false} RestStopsAtRefused(live: Records, trial: Records, keys: set<Handle>,
          candidate: Option<Handle>, bound: int)
    requires IsNext(keys, bound, candidate) && LeftFrom(live, keys, bound) && LeftFrom(trial, keys, bound)
    ensures RestFrom(live, trial, keys, candidate) == StopOf(live, trial, keys, bound)
    decreases Remaining(candidate)
  {
    if candidate.None? {
      RestOfNobody(live, trial, keys, bound);
    } else if candidate.value !in live && candidate.value !in trial {
      StopsHere(live, trial, keys, bound, candidate.value);
    } else {
      var h: int := candidate.value;
      var live', trial', next := live - {candidate.value}, trial - {candidate.value}, After(keys, candidate.value);
      StopStays(live, trial, keys, bound, candidate.value);
      RestStopsAtRefused(live', trial', keys, next, h + 1);
      RestGoesOn(live, trial, keys, candidate.value);
    }
  }

  lemma RestGoesOn(live: Records, trial: Records, keys: set<Handle>, h: Handle)
    requires h in live || h in trial
    ensures RestFrom(live, trial, keys, Some(h)) == RestFrom(live - {h}, trial - {h}, keys, After(keys, h))
  {
  }

  /**
   A universe change succeeds exactly when the universe is valid, the receiver accepts it, and every tracked source
   is in a merger; then both mergers are empty and nothing is tracked. Otherwise it either fails up front, leaving
   everything as it was, or stops at the first source that is in neither merger, with the earlier ones removed from
   the mergers and all of them still tracked.
   */
  lemma UniverseChangeClearsEverythingIff(rx: Receiver, universe: nat, receiverResult: Status)
    requires Placed(rx)
    ensures var (rx', status) := MoveToUniverse(rx, universe, receiverResult);
      var attempted := 1 <= universe <= 63999 && receiverResult == Ok;
      && Placed(rx') && rx'.live.config == rx.live.config
      && (status == Ok <==> attempted && Refused(rx) == {})
      && (status == Ok ==> Emptied(rx'.live) && Emptied(rx'.trial) && rx'.sources == map[])
      && (!attempted ==> rx' == rx && status == if 1 <= universe <= 63999 then receiverResult else ErrInvalid)
      && (attempted && status != Ok ==>
            && rx'.sources == rx.sources
            && Rest(rx'.live.records, rx'.trial.records, status)
               == StoppedAt(rx.live.records, rx.trial.records, Next(Refused(rx), 0)))
  {
    if MIN_UNIVERSE <= universe <= MAX_UNIVERSE && receiverResult == Ok {
      var (cleared, status) := ClearFrom(rx, Next(rx.sources.Keys, 0));
      ClearingStops(rx);
      ClearKeepsSources(rx, Next(rx.sources.Keys, 0));
      if status == Ok {
        NothingKept(rx, cleared);
      }
    }
  }

  lemma ClearingStops(rx: Receiver)
    requires Placed(rx)
    ensures var (cleared, status) := ClearFrom(rx, Next(rx.sources.Keys, 0));
      && Placed(cleared) && (status == Ok <==> Refused(rx) == {})
      && Rest(cleared.live.records, cleared.trial.records, status)
         == StoppedAt(rx.live.records, rx.trial.records, Next(Refused(rx), 0))
  {
    SoundIffNobodyRefused(rx);
    ClearLeavesRest(rx, Next(rx.sources.Keys, 0));
    RestStopsAtRefused(rx.live.records, rx.trial.records, rx.sources.Keys, Next(rx.sources.Keys, 0), 0);
    FirstExists(Refused(rx));
  }

  lemma FirstExists(keys: set<Handle>)
    ensures Next(keys, 0) == None <==> keys == {}
  {
    if h: Handle :| h in keys {
      assert h >= 0;
    }
  }

  lemma NothingKept(rx: Receiver, cleared: Receiver)
    requires Placed(cleared) && Rest(cleared.live.records, cleared.trial.records, Ok)
      == StoppedAt(rx.live.records, rx.trial.records, Next(Refused(rx), 0))
    ensures Emptied(cleared.live) && Emptied(cleared.trial)
  {
    assert cleared.live.records == map[] && cleared.trial.records == map[];
    NoSourcesNoOutput(cleared.live);
    NoSourcesNoOutput(cleared.trial);
  }

  /** With nobody refused, it fails only up front. */
  lemma UniverseChangeKeepsSound(rx: Receiver, universe: nat, receiverResult: Status)
    requires Sound(rx)
    ensures var (rx', status) := MoveToUniverse(rx, universe, receiverResult);
      && Sound(rx')
      && (status == Ok <==> MIN_UNIVERSE <= universe <= MAX_UNIVERSE && receiverResult == Ok)
      && (if status == Ok then rx'.sources == map[] else rx' == rx)
  {
    SoundIffNobodyRefused(rx);
    UniverseChangeClearsEverythingIff(rx, universe, receiverResult);
    SoundIffNobodyRefused(MoveToUniverse(rx, universe, receiverResult).0);
  }

  // ---- Every run ----

  /** A newcomer finds room in the merger it is sent to, and the sampling period ends with room for all. */
  ghost predicate Admitted(rx: Receiver, e: Event)
    requires WellFormedReceiver(rx)
  {
    && (e.UniverseData? && e.packet.source !in rx.sources ==> HasRoom(Home(rx, e.packet.isSampling)))
    && (e.SamplingEnded? ==> Roomy(rx))
  }

  lemma ReactKeepsSound(rx: Receiver, e: Event)
    requires Sound(rx) && Deliverable(e) && Admitted(rx, e)
    ensures Sound(React(rx, e))
  {
    match e
    case UniverseData(p) =>
      TrackKeepsSound(rx, p);
      FeedKeepsSound(Track(rx, p), p);
    case SourcesLost(lost) => LoseKeepsSound(rx, lost);
    case SamplingStarted =>
    case SamplingEnded => EndOfSamplingMovesEverything(rx);
    case PapLost(h) => LosePapKeepsSound(rx, h);
    case ChangeUniverse(universe, result) => UniverseChangeKeepsSound(rx, universe, result);
  }

  function InitialReceiver(config: Config, usePap: bool): Receiver {
    Receiver(Initial(config), Initial(config), map[], true, usePap)
  }

  ghost function RunEvents(rx: Receiver, events: seq<Event>): (rx': Receiver)
    requires WellFormedReceiver(rx) && forall e | e in events :: Deliverable(e)
    ensures WellFormedReceiver(rx')
    decreases |events|
  {
    if events == [] then rx else RunEvents(React(rx, events[0]), events[1..])
  }

  /** Every newcomer arrives while there are fewer tracked sources than the limit allows. */
  ghost predicate NewcomersBelowLimit(rx: Receiver, events: seq<Event>)
    requires WellFormedReceiver(rx) && forall e | e in events :: Deliverable(e)
    decreases |events|
  {
    events == [] ||
    (&& (events[0].UniverseData? && events[0].packet.source !in rx.sources ==> RoomForOne(rx))
     && NewcomersBelowLimit(React(rx, events[0]), events[1..]))
  }

  lemma {:induction false} LoseShrinks(rx: Receiver, lost: seq<Handle>)
    requires WellFormedReceiver(rx)
    ensures Lose(rx, lost).sources.Keys <= rx.sources.Keys && Lose(rx, lost).live.config == rx.live.config
    decreases |lost|
  {
    if lost != [] {
      LoseShrinks(rx, lost[..|lost| - 1]);
    }
  }

  lemma {:induction false} EndSamplingKeepsSources(rx: Receiver, candidate: Option<Handle>)
    requires WellFormedReceiver(rx) && (candidate.Some? ==> candidate.value in rx.sources)
    ensures EndSamplingFrom(rx, candidate).sources.Keys == rx.sources.Keys
    ensures EndSamplingFrom(rx, candidate).live.config == rx.live.config
    decreases Remaining(candidate)
  {
    if candidate.Some? {
      var next := EndSamplingOf(rx, candidate.value);
      assert next.sources.Keys == rx.sources.Keys;
      EndSamplingKeepsSources(next, After(rx.sources.Keys, candidate.value));
    }
  }

  lemma {:induction false} ClearKeepsSources(rx: Receiver, candidate: Option<Handle>)
    requires WellFormedReceiver(rx) && (candidate.Some? ==> candidate.value in rx.sources)
    ensures ClearFrom(rx, candidate).0.sources == rx.sources && ClearFrom(rx, candidate).0.live.config == rx.live.config
    decreases Remaining(candidate)
  {
    if candidate.Some? && ClearOne(rx, candidate.value).1 == Ok {
      ClearKeepsSources(ClearOne(rx, candidate.value).0, After(rx.sources.Keys, candidate.value));
    }
  }

  /** Only a newcomer adds to the tracked sources. */
  lemma ReactKeys(rx: Receiver, e: Event)
    requires WellFormedReceiver(rx) && Deliverable(e)
    ensures React(rx, e).live.config == rx.live.config
    ensures if e.UniverseData? then React(rx, e).sources.Keys == rx.sources.Keys + {e.packet.source}
            else React(rx, e).sources.Keys <= rx.sources.Keys
  {
    match e
    case UniverseData(p) =>
    case SourcesLost(lost) => LoseShrinks(rx, lost);
    case SamplingStarted =>
    case SamplingEnded => EndSamplingKeepsSources(rx.(sampling := false), Next(rx.sources.Keys, 0));
    case PapLost(h) =>
    case ChangeUniverse(universe, result) => ClearKeepsSources(rx, Next(rx.sources.Keys, 0));
  }

  lemma ReactKeepsRoomy(rx: Receiver, e: Event)
    requires WellFormedReceiver(rx) && Deliverable(e) && Roomy(rx)
    requires e.UniverseData? && e.packet.source !in rx.sources ==> RoomForOne(rx)
    ensures Roomy(React(rx, e))
  {
    ReactKeys(rx, e);
    var after := React(rx, e).sources;
    if after.Keys <= rx.sources.Keys {
      NoMoreKeys(after, rx.sources);
    } else {
      assert after.Keys == rx.sources.Keys + {e.packet.source};
      assert |after| == |after.Keys| && |rx.sources| == |rx.sources.Keys|;
    }
  }

  lemma {:induction false} RunKeepsSound(rx: Receiver, events: seq<Event>)
    requires Sound(rx) && Roomy(rx) && (forall e | e in events :: Deliverable(e)) && NewcomersBelowLimit(rx, events)
    ensures Sound(RunEvents(rx, events)) && Roomy(RunEvents(rx, events))
    decreases |events|
  {
    if events != [] {
      if events[0].UniverseData? && events[0].packet.source !in rx.sources {
        RoomInBoth(rx);
      }
      ReactKeepsSound(rx, events[0]);
      ReactKeepsRoomy(rx, events[0]);
      RunKeepsSound(React(rx, events[0]), events[1..]);
    }
  }

  /**
   In every run in which newcomers arrive below the limit, the sampling sources are exactly those in the
   sampling merger, the others exactly those in the live one, and only a tracked, non-sampling source can own
   a live slot.
   */
  lemma EverySourceIsWhereItsFlagSays(config: Config, usePap: bool, events: seq<Event>)
    requires (forall e | e in events :: Deliverable(e)) && NewcomersBelowLimit(InitialReceiver(config, usePap), events)
    ensures var rx := RunEvents(InitialReceiver(config, usePap), events);
      && rx.live.records.Keys == (set h | h in rx.sources && !rx.sources[h].sampling)
      && rx.trial.records.Keys == (set h | h in rx.sources && rx.sources[h].sampling)
      && forall i | 0 <= i < |rx.live.slots| :: rx.live.slots[i] == UNSOURCED
           || (rx.live.slots[i].owner in rx.sources && !rx.sources[rx.live.slots[i].owner].sampling)
  {
    var start := InitialReceiver(config, usePap);
    assert Members(start.sources, false) == {} && Members(start.sources, true) == {};
    assert Sound(start);
    RunKeepsSound(start, events);
    var rx := RunEvents(start, events);
    assert Members(rx.sources, false) == set h | h in rx.sources && !rx.sources[h].sampling;
    assert Members(rx.sources, true) == set h | h in rx.sources && rx.sources[h].sampling;
    forall i | 0 <= i < |rx.live.slots| ensures rx.live.slots[i] == UNSOURCED
      || (rx.live.slots[i].owner in rx.sources && !rx.sources[rx.live.slots[i].owner].sampling)
    {
      assert Winner(rx.live.records, rx.live.config.slotCount, i, rx.live.slots[i]);
      assert rx.live.slots[i].bid.priority > 0 ==> rx.live.slots[i].owner in Members(rx.sources, false);
    }
  }

  lemma AdditionTakesARoom(m: Merger, h: Handle)
    requires WellFormed(m) && h != INVALID_SOURCE && h !in m.records
    ensures Step(m, AddSource(h)).records.Keys == if HasRoom(m) then m.records.Keys + {h} else m.records.Keys
  {
  }

  /** With a source limit, a newcomer ends up where its flag says exactly when its merger has room for it. */
  lemma NewcomerNeedsRoom(rx: Receiver, p: Packet)
    requires WellFormedReceiver(rx) && Split(rx) && p.source != INVALID_SOURCE && p.source !in rx.sources
    ensures Split(Track(rx, p)) <==> HasRoom(if p.isSampling then rx.trial else rx.live)
  {
    var h := p.source;
    var m := if p.isSampling then rx.trial else rx.live;
    AdditionTakesARoom(m, h);
    RoomDecides(rx, h, Noted(SourceInfo(p.isSampling, false, false, 0), p));
  }

  lemma RoomDecides(rx: Receiver, h: Handle, info: SourceInfo)
    requires WellFormedReceiver(rx) && Split(rx) && h !in rx.sources
    ensures Members(rx.sources[h := info], !info.sampling) == Members(rx.sources, !info.sampling)
    ensures Members(rx.sources[h := info], info.sampling) == Members(rx.sources, info.sampling) + {h}
    ensures Members(rx.sources, info.sampling) + {h} != Members(rx.sources, info.sampling)
  {
    MembersAfterUpdate(rx.sources, h, info);
    assert h !in Members(rx.sources, info.sampling) && h in Members(rx.sources, info.sampling) + {h};
    assert Members(rx.sources, !info.sampling) - {h} == Members(rx.sources, !info.sampling);
  }

  lemma FeedingStoresData(m: Merger, h: Handle, levels: seq<byte>, priority: byte)
    requires MergerSound(m) && h != INVALID_SOURCE && |levels| <= MaxSlots(m.config)
    ensures var fed := Step(Step(m, UpdateLevels(h, levels)), UpdateUniversePriority(h, priority));
      if h in m.records
      then fed.records == m.records[h := WithUniversePriority(WithLevels(m.records[h], levels), priority)]
      else fed == m
  {
    assert Truncated(levels) == levels;
    if h in m.records {
      var fed := Step(m, UpdateLevels(h, levels));
      assert fed.records == m.records[h := WithLevels(m.records[h], levels)];
    }
  }

  /**
   The packet itself says which merger its levels go to. They reach the record of a tracked source exactly
   when that is the merger the source is in; otherwise neither merger changes.
   */
  lemma LevelsArriveIffRoutedToTheSource(rx: Receiver, p: Packet)
    requires Sound(rx) && p.source in rx.sources && p.startCode == STARTCODE_DMX
    requires 0 < |p.values| <= MaxSlots(rx.live.config)
    ensures var rx' := React(rx, UniverseData(p));
      var flag := rx.sources[p.source].sampling;
      var home, home' := if flag then rx.trial else rx.live, if flag then rx'.trial else rx'.live;
      && p.source in home.records
      && (if p.isSampling == flag
          then home'.records == home.records[p.source :=
                 WithUniversePriority(WithLevels(home.records[p.source], p.values), p.priority)]
          else rx'.live == rx.live && rx'.trial == rx.trial)
  {
    var flag := rx.sources[p.source].sampling;
    assert p.source in Members(rx.sources, flag) && p.source !in Members(rx.sources, !flag);
    FeedingStoresData(if p.isSampling then rx.trial else rx.live, p.source, p.values, p.priority);
  }

  // ---- PAP that arrives before levels ----

  const ONE_SLOT := Config(1, 0, false, false)

  ghost const NEW := InitialReceiver(ONE_SLOT, true)

  function PapOf(sampling: bool): Event {
    UniverseData(Packet(1, STARTCODE_PRIORITY, 100, sampling, [5]))
  }

  const DMX_OF_1 := UniverseData(Packet(1, STARTCODE_DMX, 100, false, [9]))

  const PAP_RECORD := WithPap(FreshRecord(1), [5])

  /** Source 1 with PAP and no levels, in the merger that its flag says. */
  ghost predicate HasPapOnly(rx: Receiver, sampling: bool) {
    && Sound(rx) && rx.live.config == ONE_SLOT && rx.usePap
    && rx.sources.Keys == {1} && rx.sources[1].sampling == sampling
    && Home(rx, sampling).records == map[1 := PAP_RECORD]
  }

  lemma RunOfTwo(rx: Receiver, first: Event, second: Event)
    requires WellFormedReceiver(rx) && Deliverable(first) && Deliverable(second)
    ensures RunEvents(rx, [first, second]) == React(React(rx, first), second)
  {
    var end := React(React(rx, first), second);
    assert [first, second][1..] == [second] && [second][1..] == [];
    assert RunEvents(end, []) == end && RunEvents(React(rx, first), [second]) == end;
  }

  lemma NewIsSound()
    ensures Sound(NEW) && Roomy(NEW)
  {
    assert Members(NEW.sources, false) == {} && Members(NEW.sources, true) == {};
  }

  lemma PapArrives(sampling: bool)
    ensures HasPapOnly(React(NEW, PapOf(sampling)), sampling)
  {
    NewIsSound();
    ReactKeepsSound(NEW, PapOf(sampling));
    var added := Home(Track(NEW, PapOf(sampling).packet), sampling);
    AddedRecord(Home(NEW, sampling), 1);
    PapRecord(added, 1, [5]);
    Overwritten(map[], 1, FreshRecord(1), PAP_RECORD);
  }

  lemma OnlySourceIsMoved(rx: Receiver)
    requires HasPapOnly(rx, true)
    ensures var after := React(rx, SamplingEnded);
      && Sound(after) && after.live.config == ONE_SLOT && after.usePap && after.sources.Keys == {1}
      && !after.sources[1].sampling && after.live.records == map[1 := Migrated(PAP_RECORD, 1)]
  {
    var start := rx.(sampling := false);
    assert Roomy(rx);
    ReactKeepsSound(rx, SamplingEnded);
    OnlyOneToEnd(rx);
    OnlyOneOnTrial(rx);
    MigrateMoves(start, 1);
  }

  lemma OnlyOneOnTrial(rx: Receiver)
    requires HasPapOnly(rx, true)
    ensures rx.live.records == map[] && rx.trial.records == map[1 := PAP_RECORD]
  {
    assert Members(rx.sources, false) == {} && rx.live.records.Keys == {};
  }

  lemma OnlyOneToEnd(rx: Receiver)
    requires WellFormedReceiver(rx) && rx.sources.Keys == {1}
    ensures React(rx, SamplingEnded) == EndSamplingOf(rx.(sampling := false), 1)
  {
    var start := rx.(sampling := false);
    assert Next(start.sources.Keys, 0) == Some(1) && After(start.sources.Keys, 1) == None;
    var ended := EndSamplingOf(start, 1);
    assert EndSamplingFrom(ended, None) == ended;
  }

  lemma DmxArrives(rx: Receiver, r: SourceRecord)
    requires Sound(rx) && rx.live.config == ONE_SLOT && rx.sources.Keys == {1} && !rx.sources[1].sampling
    requires rx.live.records == map[1 := r] && RecordOk(r, 1) && !r.usingUniversePriority
    ensures var priority := r.addressPriority[0];
      React(rx, DMX_OF_1).live.slots == [if priority == 0 then UNSOURCED else SlotOutput(Bid(priority, 9), 1)]
  {
    var after := React(rx, DMX_OF_1);
    ReactKeepsSound(rx, DMX_OF_1);
    var leveled := WithLevels(r, [9]);
    LevelsRecord(rx.live, 1, [9]);
    Overwritten(map[], 1, r, leveled);
    PriorityRecord(Step(rx.live, UpdateLevels(1, [9])), 1, 100);
    Overwritten(map[], 1, leveled, WithUniversePriority(leveled, 100));
    assert after.live.records == map[1 := WithUniversePriority(leveled, 100)];
    assert Winner(after.live.records, 1, 0, after.live.slots[0]);
  }

  /**
   PAP received in a sampling period before any levels is lost at its end: the source's level is not merged.
   Outside a sampling period the same packets merge it at priority 5.
   */
  lemma PapBeforeLevelsIsLost()
    ensures RunEvents(NEW, [PapOf(true), SamplingEnded, DMX_OF_1]).live.slots == [UNSOURCED]
    ensures RunEvents(NEW, [PapOf(false), DMX_OF_1]).live.slots == [SlotOutput(Bid(5, 9), 1)]
  {
    PapArrives(true);
    PapArrives(false);
    var sampled, live := React(NEW, PapOf(true)), React(NEW, PapOf(false));
    OnlySourceIsMoved(sampled);
    assert Migrated(PAP_RECORD, 1).addressPriority == [0] && PAP_RECORD.addressPriority == [5];
    DmxArrives(React(sampled, SamplingEnded), Migrated(PAP_RECORD, 1));
    DmxArrives(live, PAP_RECORD);
    RunOfTwo(NEW, PapOf(false), DMX_OF_1);
    RunOfTwo(sampled, SamplingEnded, DMX_OF_1);
    assert [PapOf(true), SamplingEnded, DMX_OF_1][1..] == [SamplingEnded, DMX_OF_1];
  }
}
