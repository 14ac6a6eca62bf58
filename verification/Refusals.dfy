/**
 Merge receivers whose mergers may be full: what every run keeps without any condition on newcomers, and what
 happens to sources that a full merger refused.
 */
module Refusals {
  import opened Common
  import opened MergeSpec
  import opened MergerModel
  import opened MergeReceiverModel
  import opened MergeReceiverProofs

  // ---- Every callback ----

  /** Both mergers are as they should be, holding only sources that belong there. */
  lemma StaysPlaced(rx: Receiver, rx': Receiver)
    requires Placed(rx) && MergersSound(rx') && rx'.sources.Keys == rx.sources.Keys
    requires forall h | h in rx.sources :: rx'.sources[h].sampling == rx.sources[h].sampling
    requires rx'.live.records.Keys <= rx.live.records.Keys && rx'.trial.records.Keys <= rx.trial.records.Keys
    ensures Placed(rx')
  {
    assert Members(rx'.sources, false) == Members(rx.sources, false);
    assert Members(rx'.sources, true) == Members(rx.sources, true);
  }

  lemma UpdateKeepsPlaced(rx: Receiver, sampling: bool, op: Op)
    requires Placed(rx) && !op.UpdateLevels? && !op.AddSource?
    ensures Placed(OnMerger(rx, sampling, op))
  {
    OnMergerKeeps(rx, sampling, op);
    StaysPlaced(rx, OnMerger(rx, sampling, op));
  }

  lemma FedKeepsPlaced(rx: Receiver, sampling: bool, h: Handle, levels: seq<byte>, priority: byte)
    requires Placed(rx)
    ensures Placed(Fed(rx, sampling, h, levels, priority))
  {
    FeedingKeepsSound(Home(rx, sampling), h, levels, priority);
    FeedingKeepsKeys(Home(rx, sampling), h, levels, priority);
    StaysPlaced(rx, Fed(rx, sampling, h, levels, priority));
  }

  lemma FeedKeepsPlaced(rx: Receiver, p: Packet)
    requires Placed(rx)
    ensures Placed(Feed(rx, p))
  {
    if p.startCode == STARTCODE_DMX {
      FedKeepsPlaced(rx, p.isSampling, p.source, p.values, p.priority);
    } else {
      UpdateKeepsPlaced(rx, p.isSampling, UpdatePap(p.source, p.values));
    }
  }

  lemma FiledUnderItsFlag(sources: map<Handle, SourceInfo>, h: Handle, info: SourceInfo, home: set<Handle>,
          other: set<Handle>, home': set<Handle>)
    requires h !in sources && home <= Members(sources, info.sampling) && other <= Members(sources, !info.sampling)
    requires home' <= home + {h}
    ensures home' <= Members(sources[h := info], info.sampling)
    ensures other <= Members(sources[h := info], !info.sampling)
  {
    MembersAfterUpdate(sources, h, info);
  }

  /** A newcomer is filed under its flag; whether or not there is room, it is in no other merger. */
  lemma NewcomerIsPlaced(rx: Receiver, h: Handle, info: SourceInfo)
    requires Placed(rx) && h != INVALID_SOURCE && h !in rx.sources
    ensures Placed(OnMerger(rx, info.sampling, AddSource(h)).(sources := rx.sources[h := info]))
  {
    var home, other := Home(rx, info.sampling), Home(rx, !info.sampling);
    StepKeepsSound(home, AddSource(h));
    StepKeys(home, AddSource(h));
    FiledUnderItsFlag(rx.sources, h, info, home.records.Keys, other.records.Keys,
                      Step(home, AddSource(h)).records.Keys);
  }

  lemma TrackKeepsPlaced(rx: Receiver, p: Packet)
    requires Placed(rx) && p.source != INVALID_SOURCE
    ensures Placed(Track(rx, p))
  {
    if p.source in rx.sources {
      StaysPlaced(rx, Track(rx, p));
    } else {
      NewcomerIsPlaced(rx, p.source, Noted(SourceInfo(p.isSampling, false, false, 0), p));
      TrackedNewcomer(rx, p);
    }
  }

  lemma LoseOneKeepsPlaced(rx: Receiver, h: Handle)
    requires Placed(rx)
    ensures Placed(LoseOne(rx, h))
  {
    if h in rx.sources {
      OnMergerKeeps(rx, rx.sources[h].sampling, RemoveSource(h));
      MembersAfterRemoval(rx.sources, h);
    }
  }

  lemma {:induction false} LoseKeepsPlaced(rx: Receiver, lost: seq<Handle>)
    requires Placed(rx)
    ensures Placed(Lose(rx, lost))
    decreases |lost|
  {
    if lost != [] {
      LoseKeepsPlaced(rx, lost[..|lost| - 1]);
      LoseOneKeepsPlaced(Lose(rx, lost[..|lost| - 1]), lost[|lost| - 1]);
    }
  }

  lemma LosePapKeepsPlaced(rx: Receiver, h: Handle)
    requires Placed(rx)
    ensures Placed(LosePap(rx, h))
  {
    if rx.usePap && h in rx.sources {
      var noted := rx.(sources := rx.sources[h := rx.sources[h].(papActive := false)]);
      StaysPlaced(rx, noted);
      UpdateKeepsPlaced(noted, rx.sources[h].sampling, RemovePap(h));
    }
  }

  lemma ReactKeepsPlaced(rx: Receiver, e: Event)
    requires Placed(rx) && Deliverable(e)
    ensures Placed(React(rx, e))
  {
    match e
    case UniverseData(p) =>
      TrackKeepsPlaced(rx, p);
      FeedKeepsPlaced(Track(rx, p), p);
    case SourcesLost(lost) => LoseKeepsPlaced(rx, lost);
    case SamplingStarted =>
    case SamplingEnded => EndOfSamplingMovesWhoeverFits(rx);
    case PapLost(h) => LosePapKeepsPlaced(rx, h);
    case ChangeUniverse(universe, result) => UniverseChangeClearsEverythingIff(rx, universe, result);
  }

  lemma {:induction false} RunKeepsPlaced(rx: Receiver, events: seq<Event>)
    requires Placed(rx) && forall e | e in events :: Deliverable(e)
    ensures Placed(RunEvents(rx, events))
    decreases |events|
  {
    if events != [] {
      ReactKeepsPlaced(rx, events[0]);
      RunKeepsPlaced(React(rx, events[0]), events[1..]);
    }
  }

  /**
   In every run, whatever the limit, only non-sampling tracked sources are in the live merger and only sampling ones
   in the sampling merger, and only a tracked, non-sampling source can own a live slot.
   */
  lemma NobodyIsMisplaced(config: Config, usePap: bool, events: seq<Event>)
    requires forall e | e in events :: Deliverable(e)
    ensures var rx := RunEvents(InitialReceiver(config, usePap), events);
      && Placed(rx)
      && (forall h | h in rx.live.records :: h in rx.sources && !rx.sources[h].sampling)
      && (forall h | h in rx.trial.records :: h in rx.sources && rx.sources[h].sampling)
      && forall i | 0 <= i < |rx.live.slots| :: rx.live.slots[i] == UNSOURCED
           || (rx.live.slots[i].owner in rx.sources && !rx.sources[rx.live.slots[i].owner].sampling)
  {
    var rx := RunEvents(InitialReceiver(config, usePap), events);
    RunKeepsPlaced(InitialReceiver(config, usePap), events);
    OwnersAreLive(rx);
    assert forall h | h in rx.live.records :: h in Members(rx.sources, false);
    assert forall h | h in rx.trial.records :: h in Members(rx.sources, true);
  }

  lemma OwnersAreLive(rx: Receiver)
    requires Placed(rx)
    ensures forall i | 0 <= i < |rx.live.slots| ::
      rx.live.slots[i] == UNSOURCED
      || (rx.live.slots[i].owner in rx.sources && !rx.sources[rx.live.slots[i].owner].sampling)
  {
    forall i | 0 <= i < |rx.live.slots| ensures rx.live.slots[i] == UNSOURCED
      || (rx.live.slots[i].owner in rx.sources && !rx.sources[rx.live.slots[i].owner].sampling)
    {
      assert Winner(rx.live.records, rx.live.config.slotCount, i, rx.live.slots[i]);
      assert rx.live.slots[i].bid.priority > 0 ==> rx.live.slots[i].owner in Members(rx.sources, false);
    }
  }

  // ---- Full mergers ----

  const ONE_SOURCE := Config(1, 1, false, false)

  ghost const EMPTY := InitialReceiver(ONE_SOURCE, true)

  function PapFrom(h: Handle, sampling: bool): Event {
    UniverseData(Packet(h, STARTCODE_PRIORITY, 100, sampling, [5]))
  }

  /** Which sources are tracked, and which of them each merger holds. */
  ghost predicate Holds(rx: Receiver, sources: set<Handle>, live: set<Handle>, trial: set<Handle>) {
    && Placed(rx) && rx.live.config == ONE_SOURCE
    && rx.sources.Keys == sources && rx.live.records.Keys == live && rx.trial.records.Keys == trial
  }

  lemma JoinsIfEmpty(m: Merger, h: Handle)
    requires m.config == ONE_SOURCE && h != INVALID_SOURCE
    ensures KeysAfter(m, AddSource(h)) == if m.records.Keys == {} then {h} else m.records.Keys
  {
    assert |m.records| == |m.records.Keys|;
  }

  lemma TrackedKeys(rx: Receiver, p: Packet, tracked: Receiver)
    requires WellFormedReceiver(rx) && p.source != INVALID_SOURCE && p.source !in rx.sources && tracked == Track(rx, p)
    ensures Home(tracked, p.isSampling).records.Keys == KeysAfter(Home(rx, p.isSampling), AddSource(p.source))
    ensures Home(tracked, !p.isSampling) == Home(rx, !p.isSampling)
    ensures tracked.sources.Keys == rx.sources.Keys + {p.source} && tracked.live.config == rx.live.config
  {
    TrackedNewcomer(rx, p);
    StepKeys(Home(rx, p.isSampling), AddSource(p.source));
  }

  lemma PapFedKeys(rx: Receiver, p: Packet, fed: Receiver)
    requires WellFormedReceiver(rx) && p.startCode == STARTCODE_PRIORITY && fed == Feed(rx, p)
    ensures Home(fed, p.isSampling).records.Keys == Home(rx, p.isSampling).records.Keys
    ensures Home(fed, !p.isSampling) == Home(rx, !p.isSampling)
    ensures fed.sources == rx.sources && fed.live.config == rx.live.config
  {
    StepKeys(Home(rx, p.isSampling), UpdatePap(p.source, p.values));
  }

  /** A newcomer joins its merger if that is empty. */
  lemma Arrives(rx: Receiver, p: Packet, sources: set<Handle>, live: set<Handle>, trial: set<Handle>)
    requires Holds(rx, sources, live, trial)
    requires p.source != INVALID_SOURCE && p.source !in sources && p.startCode == STARTCODE_PRIORITY
    ensures Holds(React(rx, UniverseData(p)), sources + {p.source},
                  if !p.isSampling && live == {} then {p.source} else live,
                  if p.isSampling && trial == {} then {p.source} else trial)
  {
    var tracked := Track(rx, p);
    ReactKeepsPlaced(rx, UniverseData(p));
    TrackedKeys(rx, p, tracked);
    JoinsIfEmpty(Home(rx, p.isSampling), p.source);
    PapFedKeys(tracked, p, Feed(tracked, p));
  }

  lemma FirstArrives(p: Packet)
    requires p.source == 1 && p.startCode == STARTCODE_PRIORITY && !p.isSampling
    ensures Holds(React(EMPTY, UniverseData(p)), {1}, {1}, {})
  {
    assert Holds(EMPTY, {}, {}, {});
    Arrives(EMPTY, p, {}, {}, {});
    assert {} + {1} == {1};
  }

  lemma SecondArrives(first: Receiver, p: Packet)
    requires Holds(first, {1}, {1}, {}) && p.source == 2 && p.startCode == STARTCODE_PRIORITY
    ensures Holds(React(first, UniverseData(p)), {1, 2}, {1}, if p.isSampling then {2} else {})
  {
    Arrives(first, p, {1}, {1}, {});
    assert {1} + {2} == {1, 2};
  }

  ghost function BothArrived(sampling: bool): Receiver {
    RunEvents(EMPTY, [PapFrom(1, false), PapFrom(2, sampling)])
  }

  lemma BothArrive(sampling: bool)
    ensures Holds(BothArrived(sampling), {1, 2}, {1}, if sampling then {2} else {})
  {
    FirstArrives(PapFrom(1, false).packet);
    SecondArrives(React(EMPTY, PapFrom(1, false)), PapFrom(2, sampling).packet);
    RunOfTwo(EMPTY, PapFrom(1, false), PapFrom(2, sampling));
  }

  lemma OneOfEachIsSound(rx: Receiver)
    requires Holds(rx, {1, 2}, {1}, {2})
    ensures Sound(rx) && !Roomy(rx)
  {
    SoundIffNobodyRefused(rx);
    assert |rx.sources| == |rx.sources.Keys| == 2;
  }

  /**
   With one source allowed, two arrive; the live merger refuses the second. A universe change that the receiver has
   already made then fails halfway: the first source is out of its merger, and both are still tracked.
   */
  lemma RefusedSourceStopsUniverseChange()
    ensures var rx := RunEvents(EMPTY, [PapFrom(1, false), PapFrom(2, false)]);
      var (rx', status) := MoveToUniverse(rx, 2, Ok);
      status == ErrInvalid && Holds(rx, {1, 2}, {1}, {}) && Holds(rx', {1, 2}, {}, {})
  {
    BothArrive(false);
    StopsAtTwo(BothArrived(false));
  }

  lemma StopsAtTwo(rx: Receiver)
    requires Holds(rx, {1, 2}, {1}, {})
    ensures MoveToUniverse(rx, 2, Ok).1 == ErrInvalid && Holds(MoveToUniverse(rx, 2, Ok).0, {1, 2}, {}, {})
  {
    assert Refused(rx) == {2};
    assert Next({2}, 0) == Some(2);
    UniverseChangeClearsEverythingIff(rx, 2, Ok);
    assert KeptFrom(rx.live.records, Some(2)) == map[] && KeptFrom(rx.trial.records, Some(2)) == map[];
  }

  lemma RunOfThree(rx: Receiver, a: Event, b: Event, c: Event)
    requires WellFormedReceiver(rx) && Deliverable(a) && Deliverable(b) && Deliverable(c)
    ensures RunEvents(rx, [a, b, c]) == React(RunEvents(rx, [a, b]), c)
  {
    RunOfTwo(rx, a, b);
    RunOfTwo(React(rx, a), b, c);
    assert [a, b, c][1..] == [b, c];
  }

  /** When the first of them is lost, there is room; but the end of a sampling period does not bring the second in. */
  lemma RefusedSourceStaysOut()
    ensures var before := RunEvents(EMPTY, [PapFrom(1, false), PapFrom(2, false), SourcesLost([1])]);
      Holds(before, {2}, {}, {}) && Roomy(before) && Holds(React(before, SamplingEnded), {2}, {}, {})
  {
    BothArrive(false);
    RunOfThree(EMPTY, PapFrom(1, false), PapFrom(2, false), SourcesLost([1]));
    FirstIsLost(BothArrived(false));
    NobodyJoins(React(BothArrived(false), SourcesLost([1])));
  }

  lemma FirstIsLost(rx: Receiver)
    requires Holds(rx, {1, 2}, {1}, {})
    ensures Holds(React(rx, SourcesLost([1])), {2}, {}, {})
  {
    assert [1][..0] == [] && Lose(rx, [1][..0]) == rx;
    assert React(rx, SourcesLost([1])) == LoseOne(rx, 1);
    LoseOneKeepsPlaced(rx, 1);
    assert 1 in rx.live.records.Keys && 1 in Members(rx.sources, false);
    StepKeys(rx.live, RemoveSource(1));
  }

  lemma NobodyJoins(rx: Receiver)
    requires Holds(rx, {2}, {}, {})
    ensures Roomy(rx) && Holds(React(rx, SamplingEnded), {2}, {}, {})
  {
    assert |rx.sources| == |rx.sources.Keys| == 1;
    EndOfSamplingMovesWhoeverFits(rx);
    assert Fitting(rx) == map[];
  }

  /** A sampling source is lost at the end of the period when a live one already fills the live merger. */
  lemma SamplingSourceIsLostAtTheEnd()
    ensures var before := RunEvents(EMPTY, [PapFrom(1, false), PapFrom(2, true)]);
      && Sound(before) && !Roomy(before) && Holds(before, {1, 2}, {1}, {2})
      && Holds(React(before, SamplingEnded), {1, 2}, {1}, {})
  {
    BothArrive(true);
    OneOfEachIsSound(BothArrived(true));
    SecondDoesNotFit(BothArrived(true));
  }

  lemma SecondDoesNotFit(rx: Receiver)
    requires Holds(rx, {1, 2}, {1}, {2})
    ensures Holds(React(rx, SamplingEnded), {1, 2}, {1}, {})
  {
    assert |rx.live.records| == |rx.live.records.Keys| == 1;
    EndOfSamplingMovesWhoeverFits(rx);
    assert Fitting(rx) == map[];
  }
}
