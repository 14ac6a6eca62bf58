/** When merged data are handed to the application, and how what it got last compares with the live outputs. */
module MergedNotices {
  import opened Common
  import opened MergeSpec
  import opened MergerModel
  import opened MergeReceiverModel
  import opened MergeReceiverProofs
  import opened Refusals
  import opened NotifiedData

  /** The live outputs of the 512 slots of a universe, or of all slots when there are fewer. */
  function Outputs(rx: Receiver): seq<SlotOutput> {
    if |rx.live.slots| <= 512 then rx.live.slots else rx.live.slots[..512]
  }

  /** Merged data that show the live outputs, and list the sources outside sampling that sent levels, in order. */
  ghost predicate Shows(d: MergedData, rx: Receiver) {
    && d.outputs == Outputs(rx)
    && (forall h: Handle :: h in d.active <==> h in rx.sources && !rx.sources[h].sampling && rx.sources[h].levelsActive)
    && forall i, j | 0 <= i < j < |d.active| :: d.active[i] < d.active[j]
  }

  lemma {:induction false} ActiveFromExactly(sources: map<Handle, SourceInfo>, candidate: Option<Handle>, bound: int)
    requires IsNext(sources.Keys, bound, candidate)
    ensures var list := ActiveFrom(sources, candidate);
      && (forall h: Handle :: h in list <==>
            h >= bound && h in sources && !sources[h].sampling && sources[h].levelsActive)
      && (forall i, j | 0 <= i < j < |list| :: list[i] < list[j])
    decreases Remaining(candidate)
  {
    if candidate.Some? {
      var h: int := candidate.value;
      var rest := ActiveFrom(sources, After(sources.Keys, candidate.value));
      ActiveFromExactly(sources, After(sources.Keys, candidate.value), h + 1);
      assert forall i | 0 <= i < |rest| :: rest[i] in rest;
      assert forall k: Handle | k in sources && k >= bound :: k == candidate.value || k >= h + 1;
    }
  }

  lemma SnapshotShows(rx: Receiver)
    requires |rx.live.slots| == rx.live.config.slotCount
    ensures Shows(Snapshot(rx), rx)
  {
    assert Footprint(rx.live) == Outputs(rx);
    ActiveFromExactly(rx.sources, Next(rx.sources.Keys, 0), 0);
  }

  // ---- What leaves the live outputs alone ----

  /** A newcomer bids for nothing yet. */
  lemma NewcomerChangesNoOutput(m: Merger, h: Handle)
    requires Consistent(m)
    ensures Step(m, AddSource(h)).slots == m.slots
  {
    if Outcome(m, AddSource(h)) == Ok {
      AdditionElectsTheSame(m.records, m.config.slotCount, h, m.slots);
    }
  }

  lemma TrackingChangesNoOutput(rx: Receiver, p: Packet)
    requires Placed(rx) && p.source != INVALID_SOURCE
    ensures Track(rx, p).live.slots == rx.live.slots && Track(rx, p).live.config == rx.live.config
    ensures Track(rx, p).usePap == rx.usePap
    ensures p.isSampling ==> Track(rx, p).live == rx.live
  {
    if p.source !in rx.sources {
      NewcomerChangesNoOutput(rx.live, p.source);
    }
  }

  /** Data that are not for the live merger. */
  predicate NotForLive(rx: Receiver, p: Packet) {
    || p.isSampling || |p.values| == 0 || |p.values| > rx.live.config.slotCount || |p.values| > 512
    || (p.startCode != 0x00 && p.startCode != 0xDD)
    || (p.startCode == 0xDD && !rx.usePap)
  }

  lemma OtherDataAreSilent(rx: Receiver, p: Packet)
    requires Placed(rx) && p.source != INVALID_SOURCE
    ensures NotForLive(rx, p) ==>
      Outputs(React(rx, UniverseData(p))) == Outputs(rx) && Notification(rx, UniverseData(p)) == None
    ensures !NotForLive(rx, p) ==> Notification(rx, UniverseData(p)).Some?
  {
    TrackingChangesNoOutput(rx, p);
  }

  lemma {:induction false} LosingSamplingSourcesIsSilent(rx: Receiver, lost: seq<Handle>)
    requires WellFormedReceiver(rx) && forall h | h in lost && h in rx.sources :: rx.sources[h].sampling
    ensures Lose(rx, lost).live == rx.live
    ensures forall h | h in Lose(rx, lost).sources :: h in rx.sources && Lose(rx, lost).sources[h] == rx.sources[h]
    decreases |lost|
  {
    if lost != [] {
      assert lost == lost[..|lost| - 1] + [lost[|lost| - 1]];
      LosingSamplingSourcesIsSilent(rx, lost[..|lost| - 1]);
    }
  }

  // ---- Handing over ----

  /** An event after which the live outputs may differ. */
  ghost predicate TouchesLive(rx: Receiver, e: Event) {
    match e
    case UniverseData(p) => !NotForLive(rx, p)
    case SourcesLost(lost) => exists h :: h in lost && h in rx.sources && !rx.sources[h].sampling
    case SamplingStarted => false
    case SamplingEnded => exists h :: h in rx.sources
    case PapLost(h) => rx.usePap && h in rx.sources && !rx.sources[h].sampling
    case ChangeUniverse(_, _) => false
  }

  lemma NobodyToEnd(rx: Receiver)
    requires WellFormedReceiver(rx) && rx.sources == map[]
    ensures React(rx, SamplingEnded).live == rx.live
  {
    assert Next(rx.sources.Keys, 0) == None;
  }

  lemma UntouchedOutputsStay(rx: Receiver, e: Event)
    requires Placed(rx) && Deliverable(e) && !e.ChangeUniverse? && !TouchesLive(rx, e)
    ensures Outputs(React(rx, e)) == Outputs(rx)
  {
    match e
    case UniverseData(p) => OtherDataAreSilent(rx, p);
    case SourcesLost(lost) => LosingSamplingSourcesIsSilent(rx, lost);
    case SamplingStarted =>
    case SamplingEnded =>
      assert rx.sources.Keys == {};
      NobodyToEnd(rx);
    case PapLost(h) =>
    case ChangeUniverse(_, _) =>
  }

  lemma HandedOverIffTouched(rx: Receiver, e: Event)
    requires Placed(rx) && Deliverable(e)
    ensures Notification(rx, e).Some? <==> TouchesLive(rx, e)
    ensures Notification(rx, e).Some? ==> Shows(Notification(rx, e).value, React(rx, e))
  {
    SnapshotShows(React(rx, e));
    assert rx.sources == map[] <==> !exists h :: h in rx.sources;
  }

  /** Whatever a callback changes in the live outputs is handed over, and what is handed over is current. */
  lemma ChangesAreHandedOver(rx: Receiver, e: Event)
    requires Placed(rx) && Deliverable(e) && !e.ChangeUniverse?
    ensures Outputs(React(rx, e)) != Outputs(rx) ==> Notification(rx, e).Some?
    ensures Notification(rx, e).Some? ==> Shows(Notification(rx, e).value, React(rx, e))
  {
    HandedOverIffTouched(rx, e);
    if !TouchesLive(rx, e) {
      UntouchedOutputsStay(rx, e);
    }
  }

  /** As documented: data of live sources are passed on at once, changed or not, and so is their loss. */
  lemma LiveSourcesAreHandedOver(rx: Receiver, e: Event)
    requires Placed(rx) && Deliverable(e)
    requires match e
      case UniverseData(p) =>
        && !p.isSampling && 0 < |p.values| <= 512 && |p.values| <= rx.live.config.slotCount
        && (p.startCode == 0x00 || (p.startCode == 0xDD && rx.usePap))
      case SourcesLost(lost) => exists h :: h in lost && h in rx.sources && !rx.sources[h].sampling
      case PapLost(h) => rx.usePap && h in rx.sources && !rx.sources[h].sampling
      case SamplingEnded => exists h :: h in rx.sources
      case _ => false
    ensures Notification(rx, e).Some? && Shows(Notification(rx, e).value, React(rx, e))
  {
    HandedOverIffTouched(rx, e);
  }

  /** Sources in a sampling period hand over nothing until it ends, and neither does a universe change. */
  lemma SamplingSourcesAreSilent(rx: Receiver, e: Event)
    requires Placed(rx) && Deliverable(e)
    requires match e
      case UniverseData(p) => p.isSampling || (p.startCode != 0x00 && p.startCode != 0xDD)
      case SourcesLost(lost) => forall h | h in lost && h in rx.sources :: rx.sources[h].sampling
      case PapLost(h) => h in rx.sources ==> rx.sources[h].sampling || !rx.usePap
      case SamplingEnded => false
      case _ => true
    ensures Notification(rx, e) == None
    ensures !e.ChangeUniverse? ==> Outputs(React(rx, e)) == Outputs(rx)
  {
    HandedOverIffTouched(rx, e);
    if !e.ChangeUniverse? {
      UntouchedOutputsStay(rx, e);
    }
  }

  /** As documented: a sampling period ends without handing over anything only when there are no active data. */
  lemma SilentEndMeansNoData(rx: Receiver)
    requires Placed(rx) && Notification(rx, SamplingEnded) == None
    ensures rx.sources == map[] && forall i | 0 <= i < |rx.live.slots| :: rx.live.slots[i] == UNSOURCED
  {
    HandedOverIffTouched(rx, SamplingEnded);
    assert rx.sources.Keys == {} && Members(rx.sources, false) == {};
    assert rx.live.records.Keys == {};
    NoSourcesNoOutput(rx.live);
  }

  // ---- Runs ----

  /** The outputs that the application was handed last, if it had `shown` before the run. */
  ghost function ShownAfter(rx: Receiver, events: seq<Event>, shown: seq<SlotOutput>): seq<SlotOutput>
    requires WellFormedReceiver(rx) && forall e | e in events :: Deliverable(e)
    decreases |events|
  {
    if events == [] then shown
    else
      var handed := Notification(rx, events[0]);
      ShownAfter(React(rx, events[0]), events[1..], if handed.Some? then handed.value.outputs else shown)
  }

  /** Some event of the run hands over merged data. */
  ghost predicate HandsOver(rx: Receiver, events: seq<Event>)
    requires WellFormedReceiver(rx) && forall e | e in events :: Deliverable(e)
    decreases |events|
  {
    events != [] && (Notification(rx, events[0]).Some? || HandsOver(React(rx, events[0]), events[1..]))
  }

  ghost predicate NoUniverseChange(events: seq<Event>) {
    forall e | e in events :: !e.ChangeUniverse?
  }

  /**
   From any state and whatever the application was shown before: without a universe change, at the end of a run it has
   been shown the live outputs exactly when something was handed over in the run or it had been shown them before.
   */
  lemma {:induction false} ShownIsCurrentIff(rx: Receiver, events: seq<Event>, shown: seq<SlotOutput>)
    requires Placed(rx) && (forall e | e in events :: Deliverable(e)) && NoUniverseChange(events)
    ensures ShownAfter(rx, events, shown) == Outputs(RunEvents(rx, events))
      <==> HandsOver(rx, events) || shown == Outputs(rx)
    decreases |events|
  {
    if events != [] {
      var e, handed := events[0], Notification(rx, events[0]);
      ReactKeepsPlaced(rx, e);
      ChangesAreHandedOver(rx, e);
      ShownIsCurrentIff(React(rx, e), events[1..], if handed.Some? then handed.value.outputs else shown);
    }
  }

  /** At the end of any run from creation without a universe change, the application has been shown the live outputs. */
  lemma LastHandedOverIsCurrent(config: Config, usePap: bool, events: seq<Event>)
    requires (forall e | e in events :: Deliverable(e)) && NoUniverseChange(events)
    ensures var rx := InitialReceiver(config, usePap);
      ShownAfter(rx, events, Outputs(rx)) == Outputs(RunEvents(rx, events))
  {
    ShownIsCurrentIff(InitialReceiver(config, usePap), events, Outputs(InitialReceiver(config, usePap)));
  }

  /**
   So, across sampling periods and as long as nothing notified gets lost on its way into the mergers, what the
   application was handed last is in every slot the merge of the data last notified of the sources outside sampling.
   */
  lemma LastHandedOverMergesTheNotified(config: Config, usePap: bool, events: seq<Event>)
    requires (forall e | e in events :: Deliverable(e)) && NoUniverseChange(events)
    requires AllFine(Unheard(config, usePap), events)
    ensures var s, rx := FollowAll(Unheard(config, usePap), events), InitialReceiver(config, usePap);
      var shown := ShownAfter(rx, events, Outputs(rx));
      s.told.Keys == s.rx.sources.Keys && forall i | 0 <= i < |shown| :: ToldWinner(s, i, shown[i])
  {
    LastHandedOverIsCurrent(config, usePap, events);
    MergedFromTheNotifiedIff(config, usePap, events);
  }

  /** A universe change hands over nothing, although all slots are unsourced once it has gone through. */
  lemma UniverseChangeIsNotHandedOver(rx: Receiver, universe: nat, result: Status)
    requires Placed(rx)
    ensures Notification(rx, ChangeUniverse(universe, result)) == None
    ensures MoveToUniverse(rx, universe, result).1 == Ok ==>
      forall i | 0 <= i < |Outputs(React(rx, ChangeUniverse(universe, result)))| ::
        Outputs(React(rx, ChangeUniverse(universe, result)))[i] == UNSOURCED
  {
    UniverseChangeClearsEverythingIff(rx, universe, result);
  }
}
