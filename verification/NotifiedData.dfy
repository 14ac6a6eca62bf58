/**
 What the data notified of each source says, without any merger: its last levels, the priority that came with them,
 and its last PAP unless that was lost. Here is when the merge receiver's outputs are the merge of just that.
 */
module NotifiedData {
  import opened Common
  import opened MergeSpec
  import opened MergerModel
  import opened MergeReceiverModel
  import opened MergeReceiverProofs

  /** Without PAP the priority decides; PAP is 0 in the slots it was not sent for. */
  datatype Told = Told(levels: seq<byte>, priority: byte, pap: Option<seq<byte>>)

  const SILENT := Told([], 0, None)

  /** What the source bids for a slot, going by what was told. */
  function ToldBid(t: Told, slot: nat): Bid {
    if slot >= |t.levels| then NO_BID
    else
      var priority: byte := if t.pap.None? then (if t.priority == 0 then 1 else t.priority)
                            else if slot < |t.pap.value| then t.pap.value[slot] else 0;
      if priority == 0 then NO_BID else Bid(priority, t.levels[slot])
  }

  datatype Heard = Heard(rx: Receiver, told: map<Handle, Told>)

  function ToldOf(told: map<Handle, Told>, h: Handle): Told {
    if h in told then told[h] else SILENT
  }

  /** Slots to which the data of a notification apply. */
  function Slots(rx: Receiver): nat {
    MaxSlots(rx.live.config)
  }

  function Updated(rx: Receiver, was: Told, p: Packet): Told {
    if !(0 < |p.values| <= Slots(rx)) then was
    else if p.startCode == STARTCODE_DMX then was.(levels := p.values, priority := p.priority)
    else if p.startCode == STARTCODE_PRIORITY && rx.usePap
    then was.(pap := Some(Padded(p.values, rx.live.config.slotCount)))
    else was
  }

  /** What is told after a callback; nothing about mergers or sampling periods. */
  function ToldAfter(s: Heard, e: Event): map<Handle, Told> {
    match e
    case UniverseData(p) => s.told[p.source := Updated(s.rx, ToldOf(s.told, p.source), p)]
    case SourcesLost(lost) => s.told - (set h | h in lost)
    case SamplingStarted => s.told
    case SamplingEnded => s.told
    case PapLost(h) => if s.rx.usePap && h in s.told then s.told[h := s.told[h].(pap := None)] else s.told
    case ChangeUniverse(universe, result) =>
      if MIN_UNIVERSE <= universe <= MAX_UNIVERSE && result == Ok then map[] else s.told
  }

  ghost function Follow(s: Heard, e: Event): Heard
    requires WellFormedReceiver(s.rx) && Deliverable(e)
  {
    Heard(React(s.rx, e), ToldAfter(s, e))
  }

  // ---- Records and what was told ----

  /** The record stores exactly what was told. */
  ghost predicate Remembers(r: SourceRecord, t: Told, n: nat) {
    && |t.levels| <= n && r.levelCount == |t.levels| && r.levels == Padded(t.levels, n)
    && (t.pap.None? <==> r.usingUniversePriority)
    && (t.pap.Some? ==> |t.pap.value| == n && r.addressPriority == t.pap.value)
    && (if t.levels == [] then t.priority == 0
        else r.universePriority == t.priority && !r.universePriorityUninitialized)
  }

  lemma RememberedBid(r: SourceRecord, t: Told, n: nat, slot: nat)
    requires RecordOk(r, n) && Remembers(r, t, n) && slot < n
    ensures BidOf(r, slot) == ToldBid(t, slot)
  {
    if slot < |t.levels| {
      assert t.pap.None? ==> r.addressPriority[slot] == ConvertedPriority(t.priority);
    }
  }

  lemma RememberedIsUnique(r: SourceRecord, t: Told, u: Told, n: nat)
    requires Remembers(r, t, n) && Remembers(r, u, n)
    ensures t == u
  {
    assert t.levels == Padded(t.levels, n)[..|t.levels|];
    assert u.levels == Padded(u.levels, n)[..|u.levels|];
  }

  lemma FreshIsSilent(n: nat)
    ensures Remembers(FreshRecord(n), SILENT, n)
  {
    assert Padded([], n) == Filled(0, n);
  }

  lemma LevelsRemembered(r: SourceRecord, t: Told, n: nat, levels: seq<byte>, priority: byte)
    requires RecordOk(r, n) && Remembers(r, t, n) && 0 < |levels| <= n
    ensures Remembers(WithUniversePriority(WithLevels(r, levels), priority),
                      t.(levels := levels, priority := priority), n)
  {
  }

  lemma PapRemembered(r: SourceRecord, t: Told, n: nat, pap: seq<byte>)
    requires RecordOk(r, n) && Remembers(r, t, n) && |pap| <= n
    ensures Remembers(WithPap(r, pap), t.(pap := Some(Padded(pap, n))), n)
  {
  }

  lemma PapForgotten(r: SourceRecord, t: Told, n: nat)
    requires RecordOk(r, n) && Remembers(r, t, n)
    ensures Remembers(WithoutPap(r), t.(pap := None), n)
  {
  }

  /** PAP that was told does not reach beyond the levels. */
  predicate PapWithinLevels(t: Told) {
    t.pap.Some? ==> forall i | |t.levels| <= i < |t.pap.value| :: t.pap.value[i] == 0
  }

  /** The copy made at the end of a sampling period remembers what was told exactly when no PAP is cut off. */
  lemma CopyRemembersIff(r: SourceRecord, t: Told, n: nat)
    requires RecordOk(r, n) && Remembers(r, t, n)
    ensures Remembers(Migrated(r, n), t, n) <==> PapWithinLevels(t)
  {
    MigrationKeepsInput(r, n);
    if !r.usingUniversePriority {
      MigrationKeepsStoredPapIff(r, n);
    }
  }

  // ---- Memory ----

  /** Every source in the merger is remembered. */
  ghost predicate KeepsTold(records: Records, told: map<Handle, Told>, n: nat) {
    forall h | h in records :: h in told && Remembers(records[h], told[h], n)
  }

  /** Every tracked source is in its merger, and remembered there. */
  ghost predicate Faithful(s: Heard) {
    && Sound(s.rx) && s.told.Keys == s.rx.sources.Keys
    && KeepsTold(s.rx.live.records, s.told, s.rx.live.config.slotCount)
    && KeepsTold(s.rx.trial.records, s.told, s.rx.live.config.slotCount)
  }

  /** The best bid told by any source outside sampling, and a source that told it. */
  ghost predicate ToldWinner(s: Heard, slot: nat, o: SlotOutput)
    requires s.told.Keys == s.rx.sources.Keys
  {
    && (forall h | h in s.rx.sources && !s.rx.sources[h].sampling :: !Beats(ToldBid(s.told[h], slot), o.bid))
    && (if o.bid.priority == 0 then o == UNSOURCED
        else o.owner in s.rx.sources && !s.rx.sources[o.owner].sampling && ToldBid(s.told[o.owner], slot) == o.bid)
  }

  ghost predicate MergesTold(s: Heard) {
    && s.told.Keys == s.rx.sources.Keys
    && forall i | 0 <= i < |s.rx.live.slots| :: ToldWinner(s, i, s.rx.live.slots[i])
  }

  /** Then each live slot is the merge of what the sources outside sampling were last told to send. */
  lemma FaithfulMergesTold(s: Heard)
    requires Faithful(s)
    ensures MergesTold(s)
  {
    var live, n := s.rx.live.records, s.rx.live.config.slotCount;
    forall i | 0 <= i < |s.rx.live.slots| ensures ToldWinner(s, i, s.rx.live.slots[i]) {
      assert Winner(live, n, i, s.rx.live.slots[i]);
      forall h | h in s.rx.sources && !s.rx.sources[h].sampling
        ensures h in live && BidOf(live[h], i) == ToldBid(s.told[h], i)
      {
        assert h in Members(s.rx.sources, false);
        RememberedBid(live[h], s.told[h], n, i);
      }
      assert forall h | h in live :: h in Members(s.rx.sources, false);
    }
  }

  lemma OverwrittenKeepsTold(records: Records, told: map<Handle, Told>, n: nat, h: Handle, r: SourceRecord, t: Told)
    requires KeepsTold(records, told, n) && Remembers(r, t, n)
    ensures KeepsTold(records[h := r], told[h := t], n)
  {
  }

  lemma OthersKeepTold(records: Records, told: map<Handle, Told>, n: nat, h: Handle, t: Told)
    requires KeepsTold(records, told, n) && h !in records
    ensures KeepsTold(records, told[h := t], n)
  {
  }

  lemma FewerKeepTold(records: Records, told: map<Handle, Told>, n: nat, gone: set<Handle>)
    requires KeepsTold(records, told, n)
    ensures KeepsTold(records - gone, told - gone, n)
  {
  }

  // ---- Data ----

  /** What a notification does to the merger that its flag names. */
  ghost function FedMerger(m: Merger, p: Packet, usePap: bool): Merger
    requires WellFormed(m)
  {
    if !(0 < |p.values| <= MaxSlots(m.config)) then m
    else if p.startCode == STARTCODE_DMX then
      Step(Step(m, UpdateLevels(p.source, p.values)), UpdateUniversePriority(p.source, p.priority))
    else if p.startCode == STARTCODE_PRIORITY && usePap then Step(m, UpdatePap(p.source, p.values))
    else m
  }

  lemma FeedIsFedMerger(rx: Receiver, p: Packet)
    requires WellFormedReceiver(rx)
    ensures Home(Feed(rx, p), p.isSampling) == FedMerger(Home(rx, p.isSampling), p, rx.usePap)
    ensures Home(Feed(rx, p), !p.isSampling) == Home(rx, !p.isSampling)
    ensures Feed(rx, p).sources == rx.sources && Feed(rx, p).usePap == rx.usePap
    ensures Feed(rx, p).live.config == rx.live.config
  {
  }

  lemma FedElsewhere(m: Merger, p: Packet, usePap: bool)
    requires WellFormed(m) && p.source !in m.records
    ensures FedMerger(m, p, usePap) == m
  {
  }

  lemma FedKeys(m: Merger, p: Packet, usePap: bool)
    requires WellFormed(m)
    ensures FedMerger(m, p, usePap).records.Keys == m.records.Keys
  {
    if p.startCode == STARTCODE_DMX {
      FeedingKeepsKeys(m, p.source, p.values, p.priority);
    } else {
      StepKeys(m, UpdatePap(p.source, p.values));
    }
  }

  lemma FedLevels(m: Merger, p: Packet, t: Told) returns (r: SourceRecord)
    requires MergerSound(m) && p.source in m.records && Remembers(m.records[p.source], t, m.config.slotCount)
    requires 0 < |p.values| <= MaxSlots(m.config) && p.startCode == STARTCODE_DMX
    ensures FedMerger(m, p, true).records == m.records[p.source := r]
    ensures Remembers(r, t.(levels := p.values, priority := p.priority), m.config.slotCount)
  {
    FeedingStoresData(m, p.source, p.values, p.priority);
    LevelsRemembered(m.records[p.source], t, m.config.slotCount, p.values, p.priority);
    r := WithUniversePriority(WithLevels(m.records[p.source], p.values), p.priority);
  }

  /** Data for a source of this merger are remembered. */
  lemma FedIsRemembered(rx: Receiver, m: Merger, p: Packet, t: Told) returns (r: SourceRecord)
    requires MergerSound(m) && m.config == rx.live.config
    requires p.source in m.records && Remembers(m.records[p.source], t, m.config.slotCount)
    ensures FedMerger(m, p, rx.usePap).records == m.records[p.source := r]
    ensures Remembers(r, Updated(rx, t, p), m.config.slotCount)
  {
    r := m.records[p.source];
    if 0 < |p.values| <= Slots(rx) && p.startCode == STARTCODE_DMX {
      r := FedLevels(m, p, t);
    } else if 0 < |p.values| <= Slots(rx) && p.startCode == STARTCODE_PRIORITY && rx.usePap {
      PapRecord(m, p.source, p.values);
      PapRemembered(r, t, m.config.slotCount, p.values);
      r := WithPap(r, p.values);
    } else {
      assert m.records[p.source := r] == m.records;
    }
  }

  /** The source is in the merger of its flag, and only there. */
  lemma HomeOf(s: Heard, h: Handle)
    requires Faithful(s) && h in s.rx.sources
    ensures var flag := s.rx.sources[h].sampling;
      && h in Home(s.rx, flag).records && h !in Home(s.rx, !flag).records
      && Remembers(Home(s.rx, flag).records[h], s.told[h], s.rx.live.config.slotCount)
  {
    assert h in Members(s.rx.sources, s.rx.sources[h].sampling);
    assert h !in Members(s.rx.sources, !s.rx.sources[h].sampling);
  }

  /** Memory in the one merger and in the other. */
  ghost predicate KeptInBoth(rx: Receiver, told: map<Handle, Told>, flag: bool) {
    KeepsTold(Home(rx, flag).records, told, rx.live.config.slotCount)
    && KeepsTold(Home(rx, !flag).records, told, rx.live.config.slotCount)
  }

  lemma KeptEitherWay(rx: Receiver, told: map<Handle, Told>, flag: bool)
    ensures KeptInBoth(rx, told, flag) <==> KeptInBoth(rx, told, false)
  {
  }

  /** Data sent to the right merger are remembered. */
  lemma RoutedIsRemembered(rx: Receiver, told: map<Handle, Told>, p: Packet)
    requires MergersSound(rx) && KeptInBoth(rx, told, p.isSampling)
    requires p.source in Home(rx, p.isSampling).records && p.source !in Home(rx, !p.isSampling).records
    requires p.source in told
    ensures KeptInBoth(Feed(rx, p), told[p.source := Updated(rx, told[p.source], p)], p.isSampling)
  {
    var home, n := Home(rx, p.isSampling), rx.live.config.slotCount;
    FeedIsFedMerger(rx, p);
    var r := FedIsRemembered(rx, home, p, told[p.source]);
    OverwrittenKeepsTold(home.records, told, n, p.source, r, Updated(rx, told[p.source], p));
    OthersKeepTold(Home(rx, !p.isSampling).records, told, n, p.source, Updated(rx, told[p.source], p));
  }

  // ---- Single callbacks ----

  /** Data of a known source go where the source is, or say nothing new. */
  ghost predicate Arrives(s: Heard, p: Packet) {
    p.source in s.rx.sources && p.source in s.told ==>
      p.isSampling == s.rx.sources[p.source].sampling || Updated(s.rx, s.told[p.source], p) == s.told[p.source]
  }

  /** No PAP reaches beyond its source's levels when the source is copied into the live merger. */
  ghost predicate NothingCutOff(s: Heard) {
    forall h | h in s.rx.sources && s.rx.sources[h].sampling && h in s.told :: PapWithinLevels(s.told[h])
  }

  /** Nothing that the callback brings or moves gets lost on the way. */
  ghost predicate Carried(s: Heard, e: Event) {
    && (e.UniverseData? ==> Arrives(s, e.packet))
    && (e.SamplingEnded? ==> NothingCutOff(s))
  }

  lemma NotingKeepsFaithful(s: Heard, h: Handle, info: SourceInfo)
    requires Faithful(s) && h in s.rx.sources && info.sampling == s.rx.sources[h].sampling
    ensures Faithful(s.(rx := s.rx.(sources := s.rx.sources[h := info])))
  {
    NotedIsSound(s.rx, h, info);
  }

  lemma RoutedKeepsFaithful(s: Heard, p: Packet)
    requires Faithful(s) && p.source in s.rx.sources && p.isSampling == s.rx.sources[p.source].sampling
    ensures Faithful(Heard(Feed(s.rx, p), s.told[p.source := Updated(s.rx, s.told[p.source], p)]))
  {
    HomeOf(s, p.source);
    KeptEitherWay(s.rx, s.told, p.isSampling);
    RoutedIsRemembered(s.rx, s.told, p);
    KeptEitherWay(Feed(s.rx, p), s.told[p.source := Updated(s.rx, s.told[p.source], p)], p.isSampling);
    FeedKeepsSound(s.rx, p);
    FeedIsFedMerger(s.rx, p);
  }

  /** Data sent to the other merger change nothing; what they say is not remembered. */
  lemma MisroutedIsDropped(s: Heard, p: Packet)
    requires Faithful(s) && p.source in s.rx.sources && p.isSampling != s.rx.sources[p.source].sampling
    ensures Feed(s.rx, p) == s.rx
    ensures var t := Updated(s.rx, s.told[p.source], p);
      Faithful(s.(told := s.told[p.source := t])) <==> t == s.told[p.source]
  {
    var t := Updated(s.rx, s.told[p.source], p);
    HomeOf(s, p.source);
    FedElsewhere(Home(s.rx, p.isSampling), p, s.rx.usePap);
    FeedIsFedMerger(s.rx, p);
    SameReceiver(s.rx, Feed(s.rx, p), p.isSampling);
    if t == s.told[p.source] {
      assert s.told[p.source := t] == s.told;
    } else if Faithful(s.(told := s.told[p.source := t])) {
      HomeOf(s.(told := s.told[p.source := t]), p.source);
      RememberedIsUnique(Home(s.rx, !p.isSampling).records[p.source], t, s.told[p.source], s.rx.live.config.slotCount);
    }
  }

  lemma SameReceiver(rx: Receiver, fed: Receiver, flag: bool)
    requires Home(fed, flag) == Home(rx, flag) && Home(fed, !flag) == Home(rx, !flag)
    requires fed.sources == rx.sources && fed.usePap == rx.usePap && fed.sampling == rx.sampling
    ensures fed == rx
  {
  }

  /** What a notification does, for a known source: its new information is noted, and its data are passed on. */
  lemma FollowsKnown(s: Heard, p: Packet, noted: Heard)
    requires WellFormedReceiver(s.rx) && p.source != INVALID_SOURCE && p.source in s.rx.sources && p.source in s.told
    requires noted == s.(rx := s.rx.(sources := s.rx.sources[p.source := Noted(s.rx.sources[p.source], p)]))
    ensures Follow(s, UniverseData(p))
      == Heard(Feed(noted.rx, p), noted.told[p.source := Updated(noted.rx, noted.told[p.source], p)])
    ensures Arrives(noted, p) == Arrives(s, p)
  {
  }

  lemma PassedOnIff(s: Heard, p: Packet)
    requires Faithful(s) && p.source in s.rx.sources
    ensures Faithful(Heard(Feed(s.rx, p), s.told[p.source := Updated(s.rx, s.told[p.source], p)])) <==> Arrives(s, p)
  {
    if p.isSampling == s.rx.sources[p.source].sampling {
      RoutedKeepsFaithful(s, p);
    } else {
      MisroutedIsDropped(s, p);
    }
  }

  lemma KnownSourceIff(s: Heard, p: Packet)
    requires Faithful(s) && p.source != INVALID_SOURCE && p.source in s.rx.sources
    ensures Faithful(Follow(s, UniverseData(p))) <==> Arrives(s, p)
  {
    var info := Noted(s.rx.sources[p.source], p);
    var noted := s.(rx := s.rx.(sources := s.rx.sources[p.source := info]));
    NotingKeepsFaithful(s, p.source, info);
    FollowsKnown(s, p, noted);
    PassedOnIff(noted, p);
  }

  lemma NewcomerIsFaithful(s: Heard, p: Packet)
    requires Faithful(s) && p.source != INVALID_SOURCE && p.source !in s.rx.sources
    requires HasRoom(Home(s.rx, p.isSampling))
    ensures Faithful(Heard(Track(s.rx, p), s.told[p.source := SILENT]))
    ensures p.source in Track(s.rx, p).sources && Track(s.rx, p).sources[p.source].sampling == p.isSampling
    ensures Track(s.rx, p).usePap == s.rx.usePap && Track(s.rx, p).live.config == s.rx.live.config
  {
    var h, home, n := p.source, Home(s.rx, p.isSampling), s.rx.live.config.slotCount;
    var tracked, told := Track(s.rx, p), s.told[p.source := SILENT];
    NewcomerIsSound(s.rx, p);
    TrackedNewcomer(s.rx, p);
    SplitIsHome(s.rx, h, p.isSampling);
    AddedRecord(home, h);
    FreshIsSilent(n);
    KeptEitherWay(s.rx, s.told, p.isSampling);
    OverwrittenKeepsTold(home.records, s.told, n, h, FreshRecord(n), SILENT);
    OthersKeepTold(Home(s.rx, !p.isSampling).records, s.told, n, h, SILENT);
    KeptEitherWay(tracked, told, p.isSampling);
  }

  lemma SplitIsHome(rx: Receiver, h: Handle, flag: bool)
    requires Sound(rx) && h !in rx.sources
    ensures h !in Home(rx, flag).records && h !in Home(rx, !flag).records
  {
    assert h !in Members(rx.sources, false) && h !in Members(rx.sources, true);
  }

  lemma FeedKeepsSplit(rx: Receiver, p: Packet)
    requires WellFormedReceiver(rx)
    ensures Split(Feed(rx, p)) <==> Split(rx)
  {
    FeedIsFedMerger(rx, p);
    FedKeys(Home(rx, p.isSampling), p, rx.usePap);
    SplitByBoth(rx, p.isSampling);
    SplitByBoth(Feed(rx, p), p.isSampling);
  }

  lemma FollowsNewcomer(s: Heard, p: Packet, tracked: Heard)
    requires WellFormedReceiver(s.rx) && p.source != INVALID_SOURCE && p.source !in s.told
    requires tracked == Heard(Track(s.rx, p), s.told[p.source := SILENT])
    requires tracked.rx.usePap == s.rx.usePap && tracked.rx.live.config == s.rx.live.config
    ensures Follow(s, UniverseData(p))
      == Heard(Feed(tracked.rx, p), tracked.told[p.source := Updated(tracked.rx, tracked.told[p.source], p)])
  {
  }

  lemma AdmittedIsFaithful(s: Heard, p: Packet)
    requires Faithful(s) && p.source != INVALID_SOURCE && p.source !in s.rx.sources
    requires HasRoom(Home(s.rx, p.isSampling))
    ensures Faithful(Follow(s, UniverseData(p)))
  {
    var tracked := Heard(Track(s.rx, p), s.told[p.source := SILENT]);
    NewcomerIsFaithful(s, p);
    FollowsNewcomer(s, p, tracked);
    RoutedKeepsFaithful(tracked, p);
  }

  lemma TurnedAwayIsNot(s: Heard, p: Packet)
    requires Faithful(s) && p.source != INVALID_SOURCE && p.source !in s.rx.sources
    requires !HasRoom(Home(s.rx, p.isSampling))
    ensures !Split(Follow(s, UniverseData(p)).rx)
  {
    NewcomerNeedsRoom(s.rx, p);
    FeedKeepsSplit(Track(s.rx, p), p);
  }

  lemma NewcomerIff(s: Heard, p: Packet)
    requires Faithful(s) && p.source != INVALID_SOURCE && p.source !in s.rx.sources
    ensures Faithful(Follow(s, UniverseData(p))) <==> HasRoom(Home(s.rx, p.isSampling))
  {
    if HasRoom(Home(s.rx, p.isSampling)) {
      AdmittedIsFaithful(s, p);
    } else {
      TurnedAwayIsNot(s, p);
    }
  }

  // ---- Lost sources, lost PAP ----

  lemma RemovedFromBoth(rx: Receiver, told: map<Handle, Told>, h: Handle, flag: bool, after: Receiver)
    requires MergersSound(rx) && KeptInBoth(rx, told, flag) && h != INVALID_SOURCE && h !in Home(rx, !flag).records
    requires Home(after, flag) == Step(Home(rx, flag), RemoveSource(h)) && Home(after, !flag) == Home(rx, !flag)
    requires after.live.config == rx.live.config
    ensures KeptInBoth(after, told - {h}, flag)
  {
    var n := rx.live.config.slotCount;
    RemovalRecords(Home(rx, flag), h);
    FewerKeepTold(Home(rx, flag).records, told, n, {h});
    FewerKeepTold(Home(rx, !flag).records, told, n, {h});
    NothingToTake(Home(rx, !flag).records, h);
  }

  lemma LosesFromHome(rx: Receiver, h: Handle, flag: bool)
    requires WellFormedReceiver(rx) && h in rx.sources && flag == rx.sources[h].sampling
    ensures var after := LoseOne(rx, h);
      && Home(after, flag) == Step(Home(rx, flag), RemoveSource(h)) && Home(after, !flag) == Home(rx, !flag)
      && after.sources == rx.sources - {h} && after.live.config == rx.live.config
  {
  }

  lemma OneLost(s: Heard, h: Handle, flag: bool, after: Receiver, told: map<Handle, Told>)
    requires Faithful(s) && h in s.rx.sources && flag == s.rx.sources[h].sampling
    requires after == LoseOne(s.rx, h) && told == s.told - {h}
    ensures Faithful(Heard(after, told))
  {
    HomeOf(s, h);
    KeptEitherWay(s.rx, s.told, flag);
    LosesFromHome(s.rx, h, flag);
    RemovedFromBoth(s.rx, s.told, h, flag, after);
    KeptEitherWay(after, told, flag);
    LoseOneKeepsSound(s.rx, h);
  }

  lemma LoseOneFaithful(s: Heard, h: Handle)
    requires Faithful(s)
    ensures Faithful(Heard(LoseOne(s.rx, h), s.told - {h}))
  {
    if h in s.rx.sources {
      OneLost(s, h, s.rx.sources[h].sampling, LoseOne(s.rx, h), s.told - {h});
    } else {
      assert s.told - {h} == s.told;
    }
  }

  ghost function AfterLosing(s: Heard, lost: seq<Handle>): Heard
    requires WellFormedReceiver(s.rx)
  {
    Heard(Lose(s.rx, lost), s.told - (set h | h in lost))
  }

  lemma LosingOneMore(s: Heard, lost: seq<Handle>, before: Heard)
    requires WellFormedReceiver(s.rx) && lost != [] && before == AfterLosing(s, lost[..|lost| - 1])
    ensures AfterLosing(s, lost) == Heard(LoseOne(before.rx, lost[|lost| - 1]), before.told - {lost[|lost| - 1]})
  {
    var front, last := lost[..|lost| - 1], lost[|lost| - 1];
    assert lost == front + [last];
    assert s.told - (set h | h in front) - {last} == s.told - (set h | h in lost);
  }

  lemma LosingNobody(s: Heard)
    requires WellFormedReceiver(s.rx)
    ensures AfterLosing(s, []) == s
  {
    assert s.told - {} == s.told;
  }

  lemma {:induction false} LoseFaithful(s: Heard, lost: seq<Handle>)
    requires Faithful(s)
    ensures Faithful(AfterLosing(s, lost))
    decreases |lost|
  {
    if lost == [] {
      LosingNobody(s);
    } else {
      var before := AfterLosing(s, lost[..|lost| - 1]);
      LoseFaithful(s, lost[..|lost| - 1]);
      LosingOneMore(s, lost, before);
      LoseOneFaithful(before, lost[|lost| - 1]);
    }
  }

  lemma RemovedPapRecord(m: Merger, h: Handle)
    requires WellFormed(m) && h in m.records
    ensures Step(m, RemovePap(h)).records == m.records[h := WithoutPap(m.records[h])]
  {
  }

  lemma PapRemovedFromBoth(rx: Receiver, told: map<Handle, Told>, h: Handle, flag: bool, after: Receiver,
          told': map<Handle, Told>)
    requires MergersSound(rx) && KeptInBoth(rx, told, flag) && h in told
    requires h in Home(rx, flag).records && h !in Home(rx, !flag).records
    requires after == OnMerger(rx, flag, RemovePap(h)) && told' == told[h := told[h].(pap := None)]
    ensures KeptInBoth(after, told', flag)
  {
    var home, n, t := Home(rx, flag), rx.live.config.slotCount, told[h].(pap := None);
    RemovedPapRecord(home, h);
    PapForgotten(home.records[h], told[h], n);
    OverwrittenKeepsTold(home.records, told, n, h, WithoutPap(home.records[h]), t);
    OthersKeepTold(Home(rx, !flag).records, told, n, h, t);
  }

  lemma SoundWithoutPap(rx: Receiver, h: Handle, flag: bool, after: Receiver)
    requires Sound(rx) && after == OnMerger(rx, flag, RemovePap(h))
    ensures Sound(after) && after.sources == rx.sources
  {
    UpdateKeepsSound(rx, flag, RemovePap(h));
  }

  lemma SameKeys(told: map<Handle, Told>, h: Handle, t: Told, keys: set<Handle>)
    requires h in told && told.Keys == keys
    ensures told[h := t].Keys == keys
  {
  }

  lemma KeptIsFaithful(rx: Receiver, told: map<Handle, Told>, flag: bool)
    requires Sound(rx) && told.Keys == rx.sources.Keys && KeptInBoth(rx, told, flag)
    ensures Faithful(Heard(rx, told))
  {
  }

  lemma PapRemoved(s: Heard, h: Handle, flag: bool, after: Receiver, told: map<Handle, Told>)
    requires Faithful(s) && h in s.rx.sources && flag == s.rx.sources[h].sampling
    requires after == OnMerger(s.rx, flag, RemovePap(h)) && told == s.told[h := s.told[h].(pap := None)]
    ensures Faithful(Heard(after, told))
  {
    HomeOf(s, h);
    KeptEitherWay(s.rx, s.told, flag);
    PapRemovedFromBoth(s.rx, s.told, h, flag, after, told);
    SoundWithoutPap(s.rx, h, flag, after);
    SameKeys(s.told, h, s.told[h].(pap := None), after.sources.Keys);
    KeptIsFaithful(after, told, flag);
  }

  lemma FollowsPapLoss(s: Heard, h: Handle, noted: Heard)
    requires WellFormedReceiver(s.rx) && s.rx.usePap && h in s.rx.sources && h in s.told
    requires noted == s.(rx := s.rx.(sources := s.rx.sources[h := s.rx.sources[h].(papActive := false)]))
    ensures Follow(s, PapLost(h)) == Heard(OnMerger(noted.rx, noted.rx.sources[h].sampling, RemovePap(h)),
                                           noted.told[h := noted.told[h].(pap := None)])
  {
  }

  lemma LosePapFaithful(s: Heard, h: Handle)
    requires Faithful(s) && s.rx.usePap && h in s.rx.sources
    ensures Faithful(Follow(s, PapLost(h)))
  {
    var info := s.rx.sources[h].(papActive := false);
    var noted := s.(rx := s.rx.(sources := s.rx.sources[h := info]));
    NotingKeepsFaithful(s, h, info);
    FollowsPapLoss(s, h, noted);
    PapRemoved(noted, h, info.sampling, Follow(s, PapLost(h)).rx, Follow(s, PapLost(h)).told);
  }

  // ---- The end of a sampling period, universe change ----

  lemma CopiesRememberIff(live: Records, moving: Records, told: map<Handle, Told>, n: nat)
    requires RecordsOk(moving, n) && live.Keys !! moving.Keys
    requires KeepsTold(live, told, n) && KeepsTold(moving, told, n)
    ensures KeepsTold(live + RebuiltAll(moving, n), told, n) <==> forall h | h in moving :: PapWithinLevels(told[h])
  {
    var after := live + RebuiltAll(moving, n);
    forall h | h in moving
      ensures h in after && after[h] == Migrated(moving[h], n)
      ensures Remembers(after[h], told[h], n) <==> PapWithinLevels(told[h])
    {
      CopyRemembersIff(moving[h], told[h], n);
    }
    assert forall h | h in live && h !in moving :: after[h] == live[h];
  }

  lemma CutOffOnTrial(s: Heard)
    requires Faithful(s)
    ensures NothingCutOff(s) <==> forall h | h in s.rx.trial.records :: PapWithinLevels(s.told[h])
  {
    forall h ensures h in s.rx.trial.records <==> h in s.rx.sources && s.rx.sources[h].sampling {
      assert h in s.rx.trial.records <==> h in Members(s.rx.sources, true);
    }
  }

  /** With everybody live, memory is a matter of the live merger. */
  lemma AllLiveIff(s: Heard, after: Receiver)
    requires Sound(after) && after.sources.Keys == s.told.Keys && after.trial.records == map[]
    ensures Faithful(Heard(after, s.told)) <==> KeepsTold(after.live.records, s.told, after.live.config.slotCount)
  {
  }

  lemma RoomyEndIff(s: Heard, after: Receiver)
    requires Faithful(s) && Roomy(s.rx) && after == React(s.rx, SamplingEnded)
    ensures Faithful(Heard(after, s.told)) <==> NothingCutOff(s)
  {
    EndOfSamplingMovesEverything(s.rx);
    EndOfSamplingKeepsConfig(s.rx, after);
    AllLiveIff(s, after);
    EverybodyCopiedIff(s);
  }

  lemma EverybodyCopiedIff(s: Heard)
    requires Faithful(s)
    ensures var n := s.rx.live.config.slotCount;
      KeepsTold(s.rx.live.records + RebuiltAll(s.rx.trial.records, n), s.told, n) <==> NothingCutOff(s)
  {
    SoundIffNobodyRefused(s.rx);
    CopiesRememberIff(s.rx.live.records, s.rx.trial.records, s.told, s.rx.live.config.slotCount);
    CutOffOnTrial(s);
  }

  lemma EndOfSamplingKeepsConfig(rx: Receiver, after: Receiver)
    requires Placed(rx) && after == React(rx, SamplingEnded)
    ensures after.live.config == rx.live.config && FlagsCleared(rx.sources, 0, after.sources)
  {
    EndOfSamplingMoves(rx);
  }

  lemma CrowdedEnd(rx: Receiver, after: Receiver)
    requires Sound(rx) && !Roomy(rx) && after == React(rx, SamplingEnded)
    ensures !Split(after)
  {
    EndOfSamplingMovesEverythingIff(rx);
    EndOfSamplingKeepsConfig(rx, after);
    assert Members(after.sources, false) == rx.sources.Keys;
  }

  lemma SamplingEndIff(s: Heard)
    requires Faithful(s)
    ensures Faithful(Follow(s, SamplingEnded)) <==> Roomy(s.rx) && NothingCutOff(s)
  {
    if Roomy(s.rx) {
      RoomyEndIff(s, React(s.rx, SamplingEnded));
    } else {
      CrowdedEnd(s.rx, React(s.rx, SamplingEnded));
    }
  }

  lemma NobodyToRemember(rx: Receiver)
    requires Sound(rx) && rx.sources == map[]
    ensures Faithful(Heard(rx, map[]))
  {
    assert Members(rx.sources, false) == {} && Members(rx.sources, true) == {};
  }

  lemma UniverseChangeFaithful(s: Heard, universe: nat, result: Status)
    requires Faithful(s)
    ensures Faithful(Follow(s, ChangeUniverse(universe, result)))
  {
    UniverseChangeKeepsSound(s.rx, universe, result);
    var (moved, status) := MoveToUniverse(s.rx, universe, result);
    if status == Ok {
      NobodyToRemember(moved);
    }
  }

  // ---- Every run ----

  /** Newcomers and the end of a sampling period find room, and nothing gets lost on the way. */
  ghost predicate Fine(s: Heard, e: Event)
    requires WellFormedReceiver(s.rx)
  {
    Admitted(s.rx, e) && Carried(s, e)
  }

  /** One callback keeps the memory exactly when it is fine. */
  lemma FaithfulAfterIff(s: Heard, e: Event)
    requires Faithful(s) && Deliverable(e)
    ensures Faithful(Follow(s, e)) <==> Fine(s, e)
  {
    match e
    case UniverseData(p) =>
      if p.source in s.rx.sources {
        KnownSourceIff(s, p);
      } else {
        NewcomerIff(s, p);
      }
    case SourcesLost(lost) => LoseFaithful(s, lost);
    case SamplingStarted => StartedIsFaithful(s);
    case SamplingEnded => SamplingEndIff(s);
    case PapLost(h) =>
      if s.rx.usePap && h in s.rx.sources {
        LosePapFaithful(s, h);
      } else {
        assert Follow(s, PapLost(h)) == s;
      }
    case ChangeUniverse(universe, result) => UniverseChangeFaithful(s, universe, result);
  }

  lemma StartedIsFaithful(s: Heard)
    requires Faithful(s)
    ensures Faithful(Follow(s, SamplingStarted))
  {
  }

  ghost function FollowAll(s: Heard, events: seq<Event>): (after: Heard)
    requires WellFormedReceiver(s.rx) && forall e | e in events :: Deliverable(e)
    ensures after.rx == RunEvents(s.rx, events)
    decreases |events|
  {
    if events == [] then s else FollowAll(Follow(s, events[0]), events[1..])
  }

  /** The merge receiver remembers what was told, before and after each of the callbacks. */
  ghost predicate FaithfulThroughout(s: Heard, events: seq<Event>)
    requires WellFormedReceiver(s.rx) && forall e | e in events :: Deliverable(e)
    decreases |events|
  {
    Faithful(s) && (events == [] || FaithfulThroughout(Follow(s, events[0]), events[1..]))
  }

  ghost predicate AllFine(s: Heard, events: seq<Event>)
    requires WellFormedReceiver(s.rx) && forall e | e in events :: Deliverable(e)
    decreases |events|
  {
    events == [] || (Fine(s, events[0]) && AllFine(Follow(s, events[0]), events[1..]))
  }

  lemma {:induction false} FaithfulWhileFine(s: Heard, events: seq<Event>)
    requires Faithful(s) && forall e | e in events :: Deliverable(e)
    ensures FaithfulThroughout(s, events) <==> AllFine(s, events)
    ensures FaithfulThroughout(s, events) ==> Faithful(FollowAll(s, events))
    decreases |events|
  {
    if events != [] {
      FaithfulAfterIff(s, events[0]);
      if Fine(s, events[0]) {
        FaithfulWhileFine(Follow(s, events[0]), events[1..]);
      }
    }
  }

  /** A new merge receiver, of whose sources nothing was told. */
  function Unheard(config: Config, usePap: bool): Heard {
    Heard(InitialReceiver(config, usePap), map[])
  }

  lemma UnheardIsFaithful(config: Config, usePap: bool)
    ensures Faithful(Unheard(config, usePap))
  {
    var rx := InitialReceiver(config, usePap);
    assert Members(rx.sources, false) == {} && Members(rx.sources, true) == {};
  }

  /**
   All along a run, every tracked source is in its merger with a record of exactly what the notified data say it
   sends, if and only if each newcomer and each end of a sampling period found room, no data of a source that is in
   one merger were marked for the other, and no PAP reached beyond its source's levels when a period ended. As long
   as that is so, each live slot is the from-scratch merge of what was notified of the sources outside sampling.
   */
  lemma MergedFromTheNotifiedIff(config: Config, usePap: bool, events: seq<Event>)
    requires forall e | e in events :: Deliverable(e)
    ensures var s := Unheard(config, usePap);
      && (FaithfulThroughout(s, events) <==> AllFine(s, events))
      && (AllFine(s, events) ==> MergesTold(FollowAll(s, events)))
  {
    UnheardIsFaithful(config, usePap);
    FaithfulWhileFine(Unheard(config, usePap), events);
    if AllFine(Unheard(config, usePap), events) {
      FaithfulMergesTold(FollowAll(Unheard(config, usePap), events));
    }
  }
}
