/**
 The merge receiver as a value: a live merger whose outputs are notified, a sampling merger for sources
 still in their sampling period, and the tracked sources that say which of the two each one is in.
 */
module MergeReceiverModel {
  import opened Common
  import opened MergeSpec
  import opened MergerModel

  const STARTCODE_DMX: byte := 0x00
  const STARTCODE_PRIORITY: byte := 0xDD
  const DMX_ADDRESS_COUNT := 512
  const MIN_UNIVERSE := 1
  const MAX_UNIVERSE := 63999

  /** What the merge receiver remembers of a source besides its merger record. */
  datatype SourceInfo = SourceInfo(sampling: bool, papActive: bool, levelsActive: bool, universePriority: byte)

  datatype Receiver = Receiver(
    live: Merger,
    trial: Merger,                 // the sampling merger
    sources: map<Handle, SourceInfo>,
    sampling: bool,
    usePap: bool)

  /** A universe data notification; `values` is empty when its address count is not positive. */
  datatype Packet = Packet(source: Handle, startCode: byte, priority: byte, isSampling: bool, values: seq<byte>)

  datatype Event =
    | UniverseData(packet: Packet)
    | SourcesLost(lost: seq<Handle>)
    | SamplingStarted
    | SamplingEnded
    | PapLost(source: Handle)
    | ChangeUniverse(universe: nat, receiverResult: Status)

  function MaxSlots(config: Config): nat {
    Min(config.slotCount, DMX_ADDRESS_COUNT)
  }

  ghost predicate WellFormedReceiver(rx: Receiver) {
    && WellFormed(rx.live) && WellFormed(rx.trial) && rx.live.config == rx.trial.config
    && INVALID_SOURCE !in rx.sources
  }

  ghost function OnMerger(rx: Receiver, sampling: bool, op: Op): (rx': Receiver)
    requires WellFormedReceiver(rx)
    ensures WellFormedReceiver(rx') && rx'.sources == rx.sources
    ensures rx'.sampling == rx.sampling && rx'.usePap == rx.usePap && rx'.live.config == rx.live.config
  {
    if sampling then rx.(trial := Step(rx.trial, op)) else rx.(live := Step(rx.live, op))
  }

  // ---- Universe data ----

  function Noted(info: SourceInfo, p: Packet): SourceInfo {
    if p.startCode == STARTCODE_PRIORITY then info.(papActive := true, universePriority := p.priority)
    else if p.startCode == STARTCODE_DMX then info.(levelsActive := true, universePriority := p.priority)
    else info.(universePriority := p.priority)
  }

  ghost function Track(rx: Receiver, p: Packet): (rx': Receiver)
    requires WellFormedReceiver(rx) && p.source != INVALID_SOURCE
    ensures WellFormedReceiver(rx')
  {
    if p.source in rx.sources then rx.(sources := rx.sources[p.source := Noted(rx.sources[p.source], p)])
    else
      var added := OnMerger(rx, p.isSampling, AddSource(p.source));
      added.(sources := rx.sources[p.source := Noted(SourceInfo(p.isSampling, false, false, 0), p)])
  }

  /** Levels and universe priority, one after the other. */
  ghost function Fed(rx: Receiver, onTrial: bool, h: Handle, levels: seq<byte>, priority: byte): (rx': Receiver)
    requires WellFormedReceiver(rx)
    ensures WellFormedReceiver(rx') && rx'.sources == rx.sources
    ensures rx'.sampling == rx.sampling && rx'.usePap == rx.usePap && rx'.live.config == rx.live.config
  {
    OnMerger(OnMerger(rx, onTrial, UpdateLevels(h, levels)), onTrial, UpdateUniversePriority(h, priority))
  }

  ghost function Feed(rx: Receiver, p: Packet): (rx': Receiver)
    requires WellFormedReceiver(rx)
    ensures WellFormedReceiver(rx')
  {
    if !(0 < |p.values| <= MaxSlots(rx.live.config)) then rx
    else if p.startCode == STARTCODE_DMX then
      Fed(rx, p.isSampling, p.source, p.values, p.priority)
    else if p.startCode == STARTCODE_PRIORITY && rx.usePap then
      OnMerger(rx, p.isSampling, UpdatePap(p.source, p.values))
    else rx
  }

  // ---- Sources lost, PAP lost ----

  ghost function LoseOne(rx: Receiver, h: Handle): (rx': Receiver)
    requires WellFormedReceiver(rx)
    ensures WellFormedReceiver(rx')
  {
    if h !in rx.sources then rx else
      var removed := OnMerger(rx, rx.sources[h].sampling, RemoveSource(h));
      removed.(sources := rx.sources - {h})
  }

  ghost function Lose(rx: Receiver, lost: seq<Handle>): (rx': Receiver)
    requires WellFormedReceiver(rx)
    ensures WellFormedReceiver(rx')
    decreases |lost|
  {
    if lost == [] then rx else LoseOne(Lose(rx, lost[..|lost| - 1]), lost[|lost| - 1])
  }

  ghost function LosePap(rx: Receiver, h: Handle): (rx': Receiver)
    requires WellFormedReceiver(rx)
    ensures WellFormedReceiver(rx')
  {
    if !rx.usePap || h !in rx.sources then rx else
      var info := rx.sources[h];
      OnMerger(rx.(sources := rx.sources[h := info.(papActive := false)]), info.sampling, RemovePap(h))
  }

  // ---- Sampling ended ----

  /** Rebuild a source in the live merger from its record in the sampling merger, then remove it there. */
  ghost function Migrate(rx: Receiver, h: Handle): (rx': Receiver)
    requires WellFormedReceiver(rx) && h in rx.trial.records
    ensures WellFormedReceiver(rx') && rx'.sources == rx.sources
    ensures rx'.sampling == rx.sampling && rx'.usePap == rx.usePap && rx'.live.config == rx.live.config
  {
    var r := rx.trial.records[h];
    var pap := if r.usingUniversePriority then None else Some(r.addressPriority[..r.levelCount]);
    Rebuilt(rx, h, r.levels[..r.levelCount], r.universePriority, pap)
  }

  ghost function Rebuilt(rx: Receiver, h: Handle, levels: seq<byte>, priority: byte,
          pap: Option<seq<byte>>): (rx': Receiver)
    requires WellFormedReceiver(rx)
    ensures WellFormedReceiver(rx') && rx'.sources == rx.sources
    ensures rx'.sampling == rx.sampling && rx'.usePap == rx.usePap && rx'.live.config == rx.live.config
  {
    var fed := Fed(OnMerger(rx, false, AddSource(h)), false, h, levels, priority);
    var all := if pap.None? then fed else OnMerger(fed, false, UpdatePap(h, pap.value));
    OnMerger(all, true, RemoveSource(h))
  }

  ghost function EndSamplingOf(rx: Receiver, h: Handle): (rx': Receiver)
    requires WellFormedReceiver(rx) && h in rx.sources
    ensures WellFormedReceiver(rx') && rx'.sources == rx.sources[h := rx.sources[h].(sampling := false)]
  {
    var info := rx.sources[h];
    var moved := if info.sampling && h in rx.trial.records then Migrate(rx, h) else rx;
    moved.(sources := moved.sources[h := info.(sampling := false)])
  }

  ghost function EndSamplingFrom(rx: Receiver, candidate: Option<Handle>): (rx': Receiver)
    requires WellFormedReceiver(rx) && (candidate.Some? ==> candidate.value in rx.sources)
    ensures WellFormedReceiver(rx')
    decreases Remaining(candidate)
  {
    if candidate.None? then rx
    else EndSamplingFrom(EndSamplingOf(rx, candidate.value), After(rx.sources.Keys, candidate.value))
  }

  // ---- Universe change ----

  ghost function ClearOne(rx: Receiver, h: Handle): (cleared: (Receiver, Status))
    requires WellFormedReceiver(rx)
    ensures WellFormedReceiver(cleared.0) && cleared.0.sources == rx.sources
  {
    var live := Outcome(rx.live, RemoveSource(h));
    if live == Ok then (OnMerger(rx, false, RemoveSource(h)), Ok)
    else (OnMerger(rx, true, RemoveSource(h)), Outcome(rx.trial, RemoveSource(h)))
  }

  ghost function ClearFrom(rx: Receiver, candidate: Option<Handle>): (cleared: (Receiver, Status))
    requires WellFormedReceiver(rx) && (candidate.Some? ==> candidate.value in rx.sources)
    ensures WellFormedReceiver(cleared.0)
    decreases Remaining(candidate)
  {
    if candidate.None? then (rx, Ok) else
      var (next, status) := ClearOne(rx, candidate.value);
      if status != Ok then (next, status) else ClearFrom(next, After(rx.sources.Keys, candidate.value))
  }

  ghost function MoveToUniverse(rx: Receiver, universe: nat, receiverResult: Status): (moved: (Receiver, Status))
    requires WellFormedReceiver(rx)
    ensures WellFormedReceiver(moved.0)
  {
    if !(MIN_UNIVERSE <= universe <= MAX_UNIVERSE) then (rx, ErrInvalid)
    else if receiverResult != Ok then (rx, receiverResult)
    else
      var (cleared, status) := ClearFrom(rx, Next(rx.sources.Keys, 0));
      if status == Ok then (cleared.(sources := map[]), Ok) else (cleared, status)
  }

  // ---- Runs ----

  /** Notifications always name a real source. */
  ghost predicate Deliverable(e: Event) {
    e.UniverseData? ==> e.packet.source != INVALID_SOURCE
  }

  ghost function React(rx: Receiver, e: Event): (rx': Receiver)
    requires WellFormedReceiver(rx) && Deliverable(e)
    ensures WellFormedReceiver(rx')
  {
    match e
    case UniverseData(p) => Feed(Track(rx, p), p)
    case SourcesLost(lost) => Lose(rx, lost)
    case SamplingStarted => rx.(sampling := true)
    case SamplingEnded => EndSamplingFrom(rx.(sampling := false), Next(rx.sources.Keys, 0))
    case PapLost(h) => LosePap(rx, h)
    case ChangeUniverse(universe, result) => MoveToUniverse(rx, universe, result).0
  }

  // ---- Merged data notifications ----

  /** Whether an event ends with the live outputs being handed to the application. */
  ghost predicate Notifies(rx: Receiver, e: Event)
    requires WellFormedReceiver(rx)
  {
    match e
    case UniverseData(p) =>
      && !p.isSampling && 0 < |p.values| <= MaxSlots(rx.live.config)
      && (p.startCode == STARTCODE_DMX || (p.startCode == STARTCODE_PRIORITY && rx.usePap))
    case SourcesLost(lost) => exists h :: h in lost && h in rx.sources && !rx.sources[h].sampling
    case SamplingStarted => false
    case SamplingEnded => rx.sources != map[]
    case PapLost(h) => rx.usePap && h in rx.sources && !rx.sources[h].sampling
    case ChangeUniverse(universe, receiverResult) => false
  }

  function Footprint(m: Merger): seq<SlotOutput>
    requires |m.slots| == m.config.slotCount
  {
    m.slots[..MaxSlots(m.config)]
  }

  /** The merged data of a notification: the notified part of the live outputs, and the sources behind them. */
  datatype MergedData = MergedData(outputs: seq<SlotOutput>, active: seq<Handle>)

  predicate IsActive(info: SourceInfo) {
    !info.sampling && info.levelsActive
  }

  /** The active sources from `candidate` on, in handle order. */
  function ActiveFrom(sources: map<Handle, SourceInfo>, candidate: Option<Handle>): seq<Handle>
    requires candidate.Some? ==> candidate.value in sources
    decreases Remaining(candidate)
  {
    if candidate.None? then []
    else (if IsActive(sources[candidate.value]) then [candidate.value] else [])
         + ActiveFrom(sources, After(sources.Keys, candidate.value))
  }

  function ActiveSources(sources: map<Handle, SourceInfo>): seq<Handle> {
    ActiveFrom(sources, Next(sources.Keys, 0))
  }

  function Snapshot(rx: Receiver): MergedData
    requires |rx.live.slots| == rx.live.config.slotCount
  {
    MergedData(Footprint(rx.live), ActiveSources(rx.sources))
  }

  /** What an event hands to the application: the live outputs and active sources it ends with. */
  ghost function Notification(rx: Receiver, e: Event): Option<MergedData>
    requires WellFormedReceiver(rx) && Deliverable(e)
  {
    if Notifies(rx, e) then Some(Snapshot(React(rx, e))) else None
  }
}
