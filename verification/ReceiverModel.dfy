/** One receiver on one universe, as a value: its sources, its sampling period and what it reports. */
module ReceiverModel {
  import opened Common
  import opened Interfaces
  import opened SourceTracking
  import S = SamplingPeriod
  import StatusLists

  const INFINITE_SOURCES: nat := 0

  datatype Settings = Settings(filterPreview: bool, sourceCountMax: nat)

  datatype Receiver = Receiver(
    settings: Settings,
    netints: seq<Netint>,
    sampling: S.Sampling,
    sources: map<Handle, Source>,
    suppressed: bool)

  datatype Event =
    | Data(now: nat, handle: Handle, from: Netint, packet: Packet)
    | Tick(now: nat, lost: seq<Handle>)
    | NetworkReset(now: nat, listed: seq<Interface>, noNetints: bool)
    | UniverseChange(now: nat)

  /** What one event reports to the application. */
  datatype Report = Report(data: bool, samplingData: bool, papLost: bool, limitExceeded: bool, notices: seq<S.Notice>)

  const NOTHING := Report(false, false, false, false, [])

  // ---- Interfaces ----

  predicate Lists(listed: seq<Interface>, n: Netint) {
    exists i :: 0 <= i < |listed| && listed[i].netint == n
  }

  /** New interfaces join the sampling; they wait for the next period when one is running. */
  function Joined(sampling: map<Netint, bool>, current: seq<Netint>, active: bool,
          listed: seq<Interface>): map<Netint, bool> {
    var news := set i | 0 <= i < |listed| && listed[i].usable && listed[i].netint !in current :: listed[i].netint;
    map n | n in sampling.Keys + news :: if n in sampling then sampling[n] else active
  }

  /** Interfaces no longer listed leave a running period. */
  function Updated(sampling: map<Netint, bool>, current: seq<Netint>, active: bool,
          listed: seq<Interface>): map<Netint, bool> {
    var joined := Joined(sampling, current, active, listed);
    if active then joined - (set n | n in current && !Lists(listed, n)) else joined
  }

  function AllCurrent(netints: seq<Netint>): map<Netint, bool> {
    map n | n in netints :: false
  }

  // ---- Steps ----

  function Created(settings: Settings, now: nat, listed: seq<Interface>): Receiver {
    var netints := Usable(listed);
    Receiver(settings, netints, S.Created(now, AllCurrent(netints)), map[], false)
  }

  predicate IsFuture(rx: Receiver, n: Netint) {
    n in rx.sampling.netints && rx.sampling.netints[n]
  }

  predicate HasRoom(rx: Receiver) {
    rx.settings.sourceCountMax == INFINITE_SOURCES || |rx.sources| < rx.settings.sourceCountMax
  }

  predicate Tracked(startCode: byte) {
    startCode == STARTCODE_DMX || startCode == STARTCODE_PRIORITY
  }

  function DataReport(rx: Receiver, from: Netint, notify: bool, papLost: bool): Report {
    NOTHING.(data := notify, samplingData := notify && from in rx.sampling.netints, papLost := papLost)
  }

  /** A packet from a source that is not tracked yet. */
  function FirstData(rx: Receiver, now: nat, h: Handle, from: Netint, p: Packet): (Receiver, Report) {
    if p.terminated || !Tracked(p.startCode) then (rx, NOTHING)
    else if HasRoom(rx) then
      var notify := p.startCode == STARTCODE_PRIORITY || rx.sampling.active;
      (rx.(sources := rx.sources[h := NewSource(from, p, rx.sampling.active, now)]),
       DataReport(rx, from, notify && !(p.preview && rx.settings.filterPreview), false))
    else (rx.(suppressed := true), NOTHING.(limitExceeded := !rx.suppressed))
  }

  function HandleData(rx: Receiver, now: nat, h: Handle, from: Netint, p: Packet): (Receiver, Report) {
    if IsFuture(rx, from) then (rx, NOTHING)
    else if h in rx.sources then
      var r := Receive(rx.sources[h], now, from, p, rx.sampling.active, rx.settings.filterPreview);
      (rx.(sources := rx.sources[h := r.source]), DataReport(rx, from, r.notify, r.papLost))
    else FirstData(rx, now, h, from, p)
  }

  /** The sources that stay after a tick. */
  function SourcesKept(sources: map<Handle, Source>, now: nat, lost: seq<Handle>): map<Handle, Source> {
    map h | h in sources && Classify(sources[h], now) != Erased && h !in lost :: Ticked(sources[h], now)
  }

  function HandleTick(rx: Receiver, now: nat, lost: seq<Handle>): (Receiver, Report) {
    var ticked := S.TickSampling(rx.sampling, now);
    (rx.(sampling := ticked.0,
         sources := SourcesKept(rx.sources, now, lost),
         suppressed := rx.suppressed && lost == []),
     NOTHING.(notices := ticked.1))
  }

  /** Sources heard on an interface that is gone are terminated. */
  function TerminatedOff(sources: map<Handle, Source>, netints: seq<Netint>, now: nat): map<Handle, Source> {
    map h | h in sources :: if sources[h].netint in netints then sources[h] else Terminate(sources[h], now)
  }

  function WithInterfaces(rx: Receiver, now: nat, used: seq<Interface>): Receiver {
    var netints := Usable(used);
    var updated := Updated(rx.sampling.netints, rx.netints, rx.sampling.active, used);
    rx.(netints := netints,
        sampling := S.Begin(rx.sampling.(netints := updated), now),
        sources := TerminatedOff(rx.sources, netints, now))
  }

  function ResetNetworking(rx: Receiver, now: nat, listed: seq<Interface>, noNetints: bool): Receiver {
    if ResetOutcome(listed, noNetints) != Ok then rx else WithInterfaces(rx, now, if noNetints then [] else listed)
  }

  function MoveUniverse(rx: Receiver, now: nat): Receiver {
    rx.(sources := map[], suppressed := false,
      sampling := S.Begin(rx.sampling.(netints := AllCurrent(rx.netints)), now))
  }

  function Step(rx: Receiver, e: Event): (Receiver, Report) {
    match e
    case Data(now, h, from, p) => HandleData(rx, now, h, from, p)
    case Tick(now, lost) => HandleTick(rx, now, lost)
    case NetworkReset(now, listed, noNetints) => (ResetNetworking(rx, now, listed, noNetints), NOTHING)
    case UniverseChange(now) => (MoveUniverse(rx, now), NOTHING)
  }

  /** The receiver before event `k` of a run. */
  function Before(rx: Receiver, run: seq<Event>, k: nat): Receiver
    requires k <= |run|
  {
    if k == 0 then rx else Step(Before(rx, run, k - 1), run[k - 1]).0
  }

  function At(rx: Receiver, run: seq<Event>, k: nat): Report
    requires k < |run|
  {
    Step(Before(rx, run, k), run[k]).1
  }

  lemma TickInParts(rx: Receiver, now: nat, lost: seq<Handle>)
    ensures var ticked := S.TickSampling(rx.sampling, now);
      Step(rx, Tick(now, lost))
        == (Receiver(rx.settings, rx.netints, ticked.0, SourcesKept(rx.sources, now, lost),
                     rx.suppressed && lost == []),
            Report(false, false, false, false, ticked.1))
  {
  }

  // ---- Loops over interfaces and sources, one element at a time ----

  lemma JoinedOneMore(sampling: map<Netint, bool>, current: seq<Netint>, active: bool, listed: seq<Interface>, i: nat)
    requires i < |listed|
    ensures var n, sofar := listed[i].netint, Joined(sampling, current, active, listed[..i]);
      Joined(sampling, current, active, listed[..i + 1])
        == if listed[i].usable && n !in current && n !in sofar then sofar[n := active] else sofar
  {
    assert listed[..i + 1] == listed[..i] + [listed[i]];
  }

  lemma EverybodySamplesAtFirst(listed: seq<Interface>)
    ensures Joined(map[], [], false, listed) == AllCurrent(Usable(listed))
  {
    UsableExactly(listed);
    forall n ensures n in Joined(map[], [], false, listed) <==> n in Usable(listed) {
      if n in Usable(listed) {
        var i :| 0 <= i < |listed| && listed[i] == Interface(n, true);
        assert listed[i].netint == n && listed[i].usable;
      }
    }
  }

  /** `before`, with the sources below `bound` ticked. */
  ghost function TickedBelow(before: map<Handle, Source>, now: nat, bound: int): map<Handle, Source> {
    map h | h in before :: if h < bound then Ticked(before[h], now) else before[h]
  }

  lemma TickedOneMore(before: map<Handle, Source>, now: nat, bound: int, h: Handle)
    requires IsNext(before.Keys, bound, Some(h))
    ensures var sofar := TickedBelow(before, now, bound);
      sofar[h] == before[h] && TickedBelow(before, now, h + 1) == sofar[h := Ticked(before[h], now)]
  {
  }

  lemma TickedAll(before: map<Handle, Source>, now: nat, bound: int)
    requires IsNext(before.Keys, bound, None)
    ensures TickedBelow(before, now, bound) == TickedBelow(before, now, 0x10000)
  {
  }

  function HandleSet(handles: seq<Handle>): set<Handle> {
    set h | h in handles
  }

  lemma OneMoreHandle(handles: seq<Handle>, i: nat)
    requires i < |handles|
    ensures HandleSet(handles[..i + 1]) == HandleSet(handles[..i]) + {handles[i]}
  {
    assert handles[..i + 1] == handles[..i] + [handles[i]];
  }

  /** Removing the expired waiting sources and the lost ones leaves what a tick keeps. */
  lemma KeptAfterRemovals(before: map<Handle, Source>, now: nat, l: StatusLists.Lists, lost: seq<Handle>)
    requires StatusLists.Sorted(l, before, now, 0x10000)
    ensures TickedBelow(before, now, 0x10000) - HandleSet(l.toErase) - HandleSet(lost)
      == SourcesKept(before, now, lost)
  {
  }

  /** `before`, with the sources below `bound` terminated where their interface is gone. */
  ghost function TerminatedBelow(before: map<Handle, Source>, netints: seq<Netint>, now: nat,
          bound: int): map<Handle, Source> {
    map h | h in before ::
      if h < bound && before[h].netint !in netints then Terminate(before[h], now) else before[h]
  }

  lemma TerminatedOneMore(before: map<Handle, Source>, netints: seq<Netint>, now: nat, bound: int, h: Handle)
    requires IsNext(before.Keys, bound, Some(h))
    ensures var sofar := TerminatedBelow(before, netints, now, bound);
      && sofar[h] == before[h]
      && TerminatedBelow(before, netints, now, h + 1)
         == if before[h].netint in netints then sofar else sofar[h := Terminate(before[h], now)]
  {
  }

  lemma TerminatedAll(before: map<Handle, Source>, netints: seq<Netint>, now: nat, bound: int)
    requires IsNext(before.Keys, bound, None)
    ensures TerminatedBelow(before, netints, now, bound) == TerminatedOff(before, netints, now)
  {
  }
}
