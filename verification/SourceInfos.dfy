/**
 What a merge receiver notes about each source it knows, told from the callbacks alone, and why every owner of a live
 slot is among the active sources that are handed over with it.
 */
module SourceInfos {
  import opened Common
  import opened MergeSpec
  import opened MergerModel
  import opened MergeReceiverModel
  import opened MergeReceiverProofs
  import opened Refusals
  import opened MergedNotices
  import Runs

  // ---- What each callback does to the tracked sources ----

  ghost function InfosAfter(rx: Receiver, e: Event): map<Handle, SourceInfo>
    requires WellFormedReceiver(rx)
  {
    var infos := rx.sources;
    match e
    case UniverseData(p) =>
      var info := if p.source in infos then infos[p.source] else SourceInfo(p.isSampling, false, false, 0);
      infos[p.source := Noted(info, p)]
    case SourcesLost(lost) => infos - (set h | h in lost)
    case SamplingStarted => infos
    case SamplingEnded => map h | h in infos :: infos[h].(sampling := false)
    case PapLost(h) => if rx.usePap && h in infos then infos[h := infos[h].(papActive := false)] else infos
    case ChangeUniverse(universe, result) => if MoveToUniverse(rx, universe, result).1 == Ok then map[] else infos
  }

  lemma {:induction false} LosingForgets(rx: Receiver, lost: seq<Handle>)
    requires WellFormedReceiver(rx)
    ensures Lose(rx, lost).sources == rx.sources - (set h | h in lost)
    ensures Lose(rx, lost).usePap == rx.usePap
    decreases |lost|
  {
    if lost != [] {
      var front, last := lost[..|lost| - 1], lost[|lost| - 1];
      assert lost == front + [last];
      LosingForgets(rx, front);
    }
  }

  lemma InfosChange(rx: Receiver, e: Event)
    requires WellFormedReceiver(rx) && Deliverable(e)
    ensures React(rx, e).sources == InfosAfter(rx, e)
  {
    match e
    case UniverseData(p) =>
    case SourcesLost(lost) => LosingForgets(rx, lost);
    case SamplingStarted =>
    case SamplingEnded => EndSamplingClearsFlags(rx.(sampling := false), Next(rx.sources.Keys, 0), 0);
    case PapLost(h) =>
    case ChangeUniverse(universe, result) => ClearKeepsSources(rx, Next(rx.sources.Keys, 0));
  }

  // ---- Runs ----

  ghost function Steps(): (Receiver, Event) -> Receiver {
    (rx: Receiver, e: Event) => if WellFormedReceiver(rx) && Deliverable(e) then React(rx, e) else rx
  }

  ghost function WellFormedOnes(): Receiver -> bool {
    (rx: Receiver) => WellFormedReceiver(rx)
  }

  predicate DataFrom(e: Event, h: Handle) {
    e.UniverseData? && e.packet.source == h
  }

  /** The source stays known: it is not lost, and no universe change goes through. */
  ghost predicate StaysKnown(rx: Receiver, e: Event, h: Handle) {
    && (e.SourcesLost? ==> h !in e.lost)
    && (e.ChangeUniverse? && WellFormedReceiver(rx) ==> MoveToUniverse(rx, e.universe, e.receiverResult).1 != Ok)
  }

  /** PAP is active for the source. */
  ghost function HasActivePap(h: Handle): Receiver -> bool {
    (rx: Receiver) => h in rx.sources && rx.sources[h].papActive
  }

  ghost function BringsPap(h: Handle): (Receiver, Event) -> bool {
    (rx: Receiver, e: Event) => DataFrom(e, h) && e.packet.startCode == 0xDD
  }

  ghost function KeepsPap(h: Handle): (Receiver, Event) -> bool {
    (rx: Receiver, e: Event) => StaysKnown(rx, e, h) && (e.PapLost? && e.source == h ==> !rx.usePap)
  }

  /** Levels are active for the source. */
  ghost function HasActiveLevels(h: Handle): Receiver -> bool {
    (rx: Receiver) => h in rx.sources && rx.sources[h].levelsActive
  }

  ghost function BringsLevels(h: Handle): (Receiver, Event) -> bool {
    (rx: Receiver, e: Event) => DataFrom(e, h) && e.packet.startCode == 0x00
  }

  ghost function KeepsKnown(h: Handle): (Receiver, Event) -> bool {
    (rx: Receiver, e: Event) => StaysKnown(rx, e, h)
  }

  /** The source is known with this universe priority. */
  ghost function HasPriority(h: Handle, priority: byte): Receiver -> bool {
    (rx: Receiver) => h in rx.sources && rx.sources[h].universePriority == priority
  }

  ghost function BringsPriority(h: Handle, priority: byte): (Receiver, Event) -> bool {
    (rx: Receiver, e: Event) => DataFrom(e, h) && e.packet.priority == priority
  }

  ghost function KeepsPriority(h: Handle, priority: byte): (Receiver, Event) -> bool {
    (rx: Receiver, e: Event) => StaysKnown(rx, e, h) && (DataFrom(e, h) ==> e.packet.priority == priority)
  }

  /** The source is in its sampling period. */
  ghost function IsSampling(h: Handle): Receiver -> bool {
    (rx: Receiver) => h in rx.sources && rx.sources[h].sampling
  }

  ghost function ComesSampling(h: Handle): (Receiver, Event) -> bool {
    (rx: Receiver, e: Event) => DataFrom(e, h) && e.packet.isSampling && h !in rx.sources
  }

  ghost function KeepsSampling(h: Handle): (Receiver, Event) -> bool {
    (rx: Receiver, e: Event) => StaysKnown(rx, e, h) && !e.SamplingEnded?
  }

  lemma InfoStep(rx: Receiver, e: Event, h: Handle, priority: byte)
    requires WellFormedReceiver(rx) && h != INVALID_SOURCE
    ensures var after := Steps()(rx, e);
      && WellFormedReceiver(after)
      && (HasActivePap(h)(after) <==> KeepsPap(h)(rx, e) && (HasActivePap(h)(rx) || BringsPap(h)(rx, e)))
      && (HasActiveLevels(h)(after) <==> KeepsKnown(h)(rx, e) && (HasActiveLevels(h)(rx) || BringsLevels(h)(rx, e)))
      && (HasPriority(h, priority)(after) <==>
            KeepsPriority(h, priority)(rx, e) && (HasPriority(h, priority)(rx) || BringsPriority(h, priority)(rx, e)))
      && (IsSampling(h)(after) <==> KeepsSampling(h)(rx, e) && (IsSampling(h)(rx) || ComesSampling(h)(rx, e)))
  {
    if Deliverable(e) {
      InfosChange(rx, e);
    }
  }

  /**
   Over every run of callbacks: PAP is active for a source exactly when PAP of it was notified and its loss was not
   since; levels are active exactly when DMX of it was notified; its universe priority is the one notified with its last
   data; it is sampling exactly when its first data were sampling data and no period has ended since. All of this is as
   of when the source was last lost, or the universe changed.
   */
  lemma InfoIsNotedIff(config: Config, usePap: bool, run: seq<Event>, k: nat, h: Handle, priority: byte)
    requires k <= |run| && h != INVALID_SOURCE
    ensures var first := InitialReceiver(config, usePap);
      var rx := Runs.StateAt(Steps(), first, run, k);
      && (HasActivePap(h)(rx) <==> Runs.HasHeldSince(Steps(), first, run, BringsPap(h), KeepsPap(h), k))
      && (HasActiveLevels(h)(rx) <==> Runs.HasHeldSince(Steps(), first, run, BringsLevels(h), KeepsKnown(h), k))
      && (HasPriority(h, priority)(rx)
          <==> Runs.HasHeldSince(Steps(), first, run, BringsPriority(h, priority), KeepsPriority(h, priority), k))
      && (IsSampling(h)(rx) <==> Runs.HasHeldSince(Steps(), first, run, ComesSampling(h), KeepsSampling(h), k))
  {
    var first := InitialReceiver(config, usePap);
    forall rx: Receiver, e: Event | WellFormedReceiver(rx)
      ensures WellFormedReceiver(Steps()(rx, e))
      ensures HasActivePap(h)(Steps()(rx, e)) <==> KeepsPap(h)(rx, e) && (HasActivePap(h)(rx) || BringsPap(h)(rx, e))
      ensures HasActiveLevels(h)(Steps()(rx, e)) <==>
        KeepsKnown(h)(rx, e) && (HasActiveLevels(h)(rx) || BringsLevels(h)(rx, e))
      ensures HasPriority(h, priority)(Steps()(rx, e)) <==>
        KeepsPriority(h, priority)(rx, e) && (HasPriority(h, priority)(rx) || BringsPriority(h, priority)(rx, e))
      ensures IsSampling(h)(Steps()(rx, e)) <==>
        KeepsSampling(h)(rx, e) && (IsSampling(h)(rx) || ComesSampling(h)(rx, e))
    {
      InfoStep(rx, e, h, priority);
    }
    Runs.LatchedMeansHeldSince(Steps(), first, run, WellFormedOnes(), HasActivePap(h), BringsPap(h), KeepsPap(h), k);
    Runs.LatchedMeansHeldSince(Steps(), first, run, WellFormedOnes(), HasActiveLevels(h), BringsLevels(h),
                               KeepsKnown(h), k);
    Runs.LatchedMeansHeldSince(Steps(), first, run, WellFormedOnes(), HasPriority(h, priority),
                               BringsPriority(h, priority), KeepsPriority(h, priority), k);
    Runs.LatchedMeansHeldSince(Steps(), first, run, WellFormedOnes(), IsSampling(h), ComesSampling(h),
                               KeepsSampling(h), k);
  }

  /** No sampling period is running. */
  ghost function IsQuiet(): Receiver -> bool {
    (rx: Receiver) => !rx.sampling
  }

  ghost function Ends(): (Receiver, Event) -> bool {
    (rx: Receiver, e: Event) => e.SamplingEnded?
  }

  ghost function StartsNone(): (Receiver, Event) -> bool {
    (rx: Receiver, e: Event) => !e.SamplingStarted?
  }

  lemma {:induction false} LosingKeepsPeriod(rx: Receiver, lost: seq<Handle>)
    requires WellFormedReceiver(rx)
    ensures Lose(rx, lost).sampling == rx.sampling
    decreases |lost|
  {
    if lost != [] {
      LosingKeepsPeriod(rx, lost[..|lost| - 1]);
    }
  }

  lemma {:induction false} EndingKeepsPeriod(rx: Receiver, candidate: Option<Handle>)
    requires WellFormedReceiver(rx) && (candidate.Some? ==> candidate.value in rx.sources)
    ensures EndSamplingFrom(rx, candidate).sampling == rx.sampling
    decreases Remaining(candidate)
  {
    if candidate.Some? {
      var next := EndSamplingOf(rx, candidate.value);
      assert next.sources.Keys == rx.sources.Keys;
      EndingKeepsPeriod(next, After(rx.sources.Keys, candidate.value));
    }
  }

  lemma {:induction false} ClearingKeepsPeriod(rx: Receiver, candidate: Option<Handle>)
    requires WellFormedReceiver(rx) && (candidate.Some? ==> candidate.value in rx.sources)
    ensures ClearFrom(rx, candidate).0.sampling == rx.sampling
    decreases Remaining(candidate)
  {
    if candidate.Some? && ClearOne(rx, candidate.value).1 == Ok {
      ClearingKeepsPeriod(ClearOne(rx, candidate.value).0, After(rx.sources.Keys, candidate.value));
    }
  }

  lemma ReactKeepsPeriod(rx: Receiver, e: Event)
    requires WellFormedReceiver(rx) && Deliverable(e)
    ensures React(rx, e).sampling == (e.SamplingStarted? || (rx.sampling && !e.SamplingEnded?))
  {
    match e
    case UniverseData(p) =>
    case SourcesLost(lost) => LosingKeepsPeriod(rx, lost);
    case SamplingStarted =>
    case SamplingEnded => EndingKeepsPeriod(rx.(sampling := false), Next(rx.sources.Keys, 0));
    case PapLost(h) =>
    case ChangeUniverse(universe, result) => ClearingKeepsPeriod(rx, Next(rx.sources.Keys, 0));
  }

  lemma PeriodStep(rx: Receiver, e: Event)
    requires WellFormedReceiver(rx)
    ensures WellFormedReceiver(Steps()(rx, e))
    ensures IsQuiet()(Steps()(rx, e)) <==> StartsNone()(rx, e) && (IsQuiet()(rx) || Ends()(rx, e))
  {
    if Deliverable(e) {
      ReactKeepsPeriod(rx, e);
    }
  }

  /** The receiver takes a period for running from its creation, and from each started to the next ended notice. */
  lemma PeriodIsNotedIff(config: Config, usePap: bool, run: seq<Event>, k: nat)
    requires k <= |run|
    ensures var first := InitialReceiver(config, usePap);
      IsQuiet()(Runs.StateAt(Steps(), first, run, k))
      <==> Runs.HasHeldSince(Steps(), first, run, Ends(), StartsNone(), k)
  {
    forall rx: Receiver, e: Event | WellFormedReceiver(rx)
      ensures WellFormedReceiver(Steps()(rx, e))
      ensures IsQuiet()(Steps()(rx, e)) <==> StartsNone()(rx, e) && (IsQuiet()(rx) || Ends()(rx, e))
    {
      PeriodStep(rx, e);
    }
    Runs.LatchedMeansHeldSince(Steps(), InitialReceiver(config, usePap), run, WellFormedOnes(), IsQuiet(), Ends(),
                               StartsNone(), k);
  }

  // ---- Owners are active ----

  /** Whoever has levels in a merger is known, and its levels are active. */
  ghost predicate LevelsNoted(records: Records, infos: map<Handle, SourceInfo>) {
    forall h | h in records && records[h].levelCount > 0 :: h in infos && infos[h].levelsActive
  }

  ghost predicate AllNoted(rx: Receiver) {
    LevelsNoted(rx.live.records, rx.sources) && LevelsNoted(rx.trial.records, rx.sources)
  }

  /** Only new levels can give a source levels. */
  lemma LevelsComeFromData(m: Merger, op: Op, h: Handle)
    requires WellFormed(m) && h in Step(m, op).records && Step(m, op).records[h].levelCount > 0
    ensures (h in m.records && m.records[h].levelCount > 0) || (op.UpdateLevels? && op.source == h)
  {
  }

  lemma UpdateKeepsNoted(m: Merger, op: Op, infos: map<Handle, SourceInfo>)
    requires WellFormed(m) && LevelsNoted(m.records, infos)
    requires op.UpdateLevels? && op.source in m.records ==> op.source in infos && infos[op.source].levelsActive
    ensures LevelsNoted(Step(m, op).records, infos)
  {
    forall h | h in Step(m, op).records && Step(m, op).records[h].levelCount > 0
      ensures h in infos && infos[h].levelsActive
    {
      LevelsComeFromData(m, op, h);
    }
  }

  lemma OnMergerKeepsNoted(rx: Receiver, onTrial: bool, op: Op)
    requires WellFormedReceiver(rx) && AllNoted(rx)
    requires op.UpdateLevels? ==> op.source in rx.sources && rx.sources[op.source].levelsActive
    ensures AllNoted(OnMerger(rx, onTrial, op))
  {
    UpdateKeepsNoted(Home(rx, onTrial), op, rx.sources);
  }

  lemma DataKeepNoted(rx: Receiver, p: Packet)
    requires WellFormedReceiver(rx) && AllNoted(rx) && p.source != INVALID_SOURCE
    ensures AllNoted(Feed(Track(rx, p), p))
  {
    var tracked := Track(rx, p);
    if p.source !in rx.sources {
      OnMergerKeepsNoted(rx, p.isSampling, AddSource(p.source));
    }
    assert AllNoted(tracked);
    if p.startCode == STARTCODE_DMX {
      OnMergerKeepsNoted(tracked, p.isSampling, UpdateLevels(p.source, p.values));
      OnMergerKeepsNoted(OnMerger(tracked, p.isSampling, UpdateLevels(p.source, p.values)), p.isSampling,
                         UpdateUniversePriority(p.source, p.priority));
    } else {
      OnMergerKeepsNoted(tracked, p.isSampling, UpdatePap(p.source, p.values));
    }
  }

  lemma LosingOneKeepsNoted(rx: Receiver, h: Handle)
    requires Placed(rx) && AllNoted(rx)
    ensures AllNoted(LoseOne(rx, h))
  {
    if h in rx.sources {
      var flag := rx.sources[h].sampling;
      RemovalRecords(Home(rx, flag), h);
      assert h !in Members(rx.sources, !flag);
    }
  }

  lemma {:induction false} LosingKeepsNoted(rx: Receiver, lost: seq<Handle>)
    requires Placed(rx) && AllNoted(rx)
    ensures AllNoted(Lose(rx, lost))
    decreases |lost|
  {
    if lost != [] {
      LosingKeepsNoted(rx, lost[..|lost| - 1]);
      LoseKeepsPlaced(rx, lost[..|lost| - 1]);
      LosingOneKeepsNoted(Lose(rx, lost[..|lost| - 1]), lost[|lost| - 1]);
    }
  }

  lemma MovedLevelsAreNoted(live: Records, joining: Records, after: Records, n: nat, infos: map<Handle, SourceInfo>,
          infos': map<Handle, SourceInfo>)
    requires RecordsMoved(live, joining, after, n) && FlagsCleared(infos, 0, infos')
    requires LevelsNoted(live, infos) && LevelsNoted(joining, infos)
    ensures LevelsNoted(after, infos')
  {
    forall h | h in after && after[h].levelCount > 0 ensures h in infos' && infos'[h].levelsActive {
      assert h in live || h in joining;
    }
  }

  lemma FittingIsNoted(rx: Receiver)
    requires Placed(rx) && AllNoted(rx)
    ensures LevelsNoted(Fitting(rx), rx.sources)
  {
  }

  lemma EndKeepsNoted(rx: Receiver, after: Receiver)
    requires Placed(rx) && AllNoted(rx) && after == React(rx, SamplingEnded)
    ensures AllNoted(after)
  {
    EndOfSamplingMovesWhoeverFits(rx);
    FittingIsNoted(rx);
    MovedLevelsAreNoted(rx.live.records, Fitting(rx), after.live.records, rx.live.config.slotCount, rx.sources,
                        after.sources);
  }

  lemma ChangeKeepsNoted(rx: Receiver, universe: nat, result: Status)
    requires Placed(rx) && AllNoted(rx)
    ensures AllNoted(React(rx, ChangeUniverse(universe, result)))
  {
    UniverseChangeClearsEverythingIff(rx, universe, result);
  }

  lemma ReactKeepsNoted(rx: Receiver, e: Event)
    requires Placed(rx) && AllNoted(rx) && Deliverable(e)
    ensures AllNoted(React(rx, e))
  {
    match e
    case UniverseData(p) => DataKeepNoted(rx, p);
    case SourcesLost(lost) => LosingKeepsNoted(rx, lost);
    case SamplingStarted =>
    case SamplingEnded => EndKeepsNoted(rx, React(rx, SamplingEnded));
    case PapLost(h) =>
      if rx.usePap && h in rx.sources {
        OnMergerKeepsNoted(rx.(sources := rx.sources[h := rx.sources[h].(papActive := false)]), rx.sources[h].sampling,
                           RemovePap(h));
      }
    case ChangeUniverse(universe, result) => ChangeKeepsNoted(rx, universe, result);
  }

  lemma {:induction false} RunKeepsNoted(rx: Receiver, events: seq<Event>)
    requires Placed(rx) && AllNoted(rx) && forall e | e in events :: Deliverable(e)
    ensures Placed(RunEvents(rx, events)) && AllNoted(RunEvents(rx, events))
    decreases |events|
  {
    if events != [] {
      ReactKeepsPlaced(rx, events[0]);
      ReactKeepsNoted(rx, events[0]);
      RunKeepsNoted(React(rx, events[0]), events[1..]);
    }
  }

  lemma OwnerHasLevels(rx: Receiver, i: nat)
    requires Placed(rx) && AllNoted(rx) && i < |rx.live.slots| && rx.live.slots[i].owner != INVALID_SOURCE
    ensures var owner := rx.live.slots[i].owner;
      owner in rx.sources && !rx.sources[owner].sampling && rx.sources[owner].levelsActive
  {
    var owner := rx.live.slots[i].owner;
    assert Winner(rx.live.records, rx.live.config.slotCount, i, rx.live.slots[i]);
    assert owner in Members(rx.sources, false);
  }

  lemma OwnersAreListed(rx: Receiver, d: MergedData)
    requires Placed(rx) && AllNoted(rx) && Shows(d, rx)
    ensures forall i | 0 <= i < |d.outputs| :: d.outputs[i].owner == INVALID_SOURCE || d.outputs[i].owner in d.active
  {
    forall i | 0 <= i < |d.outputs| && d.outputs[i].owner != INVALID_SOURCE ensures d.outputs[i].owner in d.active {
      OwnerHasLevels(rx, i);
    }
  }

  /** In every run, whatever is handed over lists the owner of each of its slots as active. */
  lemma OwnersAreActive(config: Config, usePap: bool, events: seq<Event>, e: Event)
    requires (forall e | e in events :: Deliverable(e)) && Deliverable(e)
    ensures var handed := Notification(RunEvents(InitialReceiver(config, usePap), events), e);
      handed.Some? ==> forall i | 0 <= i < |handed.value.outputs| ::
        handed.value.outputs[i].owner == INVALID_SOURCE || handed.value.outputs[i].owner in handed.value.active
  {
    var rx := RunEvents(InitialReceiver(config, usePap), events);
    RunKeepsNoted(InitialReceiver(config, usePap), events);
    HandedOverAfter(rx, e);
  }

  lemma HandedOverAfter(rx: Receiver, e: Event)
    requires Placed(rx) && AllNoted(rx) && Deliverable(e)
    ensures var handed := Notification(rx, e);
      handed.Some? ==> forall i | 0 <= i < |handed.value.outputs| ::
        handed.value.outputs[i].owner == INVALID_SOURCE || handed.value.outputs[i].owner in handed.value.active
  {
    ReactKeepsPlaced(rx, e);
    ReactKeepsNoted(rx, e);
    HandedOverIffTouched(rx, e);
    if Notification(rx, e).Some? {
      OwnersAreListed(React(rx, e), Notification(rx, e).value);
    }
  }
}
