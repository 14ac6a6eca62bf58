/**
 A receiver feeding a merge receiver: what the receiver reports about one event is what the merge receiver
 reacts to. Here is when both agree on which sources there are.
 */
module MergedUniverse {
  import opened Common
  import opened Interfaces
  import opened SourceTracking
  import S = SamplingPeriod
  import M = ReceiverModel
  import R = ReceiverRuns
  import G = MergeReceiverModel
  import P = MergeReceiverProofs
  import MergerModel
  import Runs

  /** `notified` names the tracked sources that data notifications have been about. */
  datatype Joint = Joint(rx: M.Receiver, merge: G.Receiver, notified: set<Handle>)

  /** An event at the receiver, with the parts of a packet or universe change that only the merge receiver looks at. */
  datatype Input = Input(cause: M.Event, priority: byte, values: seq<byte>, universe: nat)

  predicate Allowed(e: Input) {
    && (e.cause.Data? ==> e.cause.handle != INVALID_SOURCE)
    && (e.cause.UniverseChange? ==> G.MIN_UNIVERSE <= e.universe <= G.MAX_UNIVERSE)
  }

  type Event = e: Input | Allowed(e) witness Input(M.Tick(0, []), 0, [], 0)

  ghost predicate WellFormed(s: Joint) {
    G.WellFormedReceiver(s.merge)
  }

  type State = s: Joint | WellFormed(s) ghost witness
    Joint(M.Created(M.Settings(true, 0), 0, []), P.InitialReceiver(MergerModel.Config(0, 0, false, false), false), {})

  // ---- Callbacks ----

  function SamplingCallbacks(notices: seq<S.Notice>): (callbacks: seq<G.Event>)
    ensures forall c | c in callbacks :: c.SamplingStarted? || c.SamplingEnded?
  {
    seq(|notices|, i requires 0 <= i < |notices| => if notices[i].Started? then G.SamplingStarted else G.SamplingEnded)
  }

  function DataCallback(e: Event, report: M.Report): G.Event
    requires e.cause.Data?
  {
    G.UniverseData(G.Packet(e.cause.handle, e.cause.packet.startCode, e.priority, report.samplingData, e.values))
  }

  /** The callbacks into the merge receiver for one event, in the order they are made. */
  function Callbacks(e: Event, report: M.Report): (callbacks: seq<G.Event>)
    ensures forall c | c in callbacks :: G.Deliverable(c)
  {
    match e.cause
    case Data(_, h, _, _) =>
      (if report.papLost then [G.PapLost(h)] else []) + (if report.data then [DataCallback(e, report)] else [])
    case Tick(_, lost) => SamplingCallbacks(report.notices) + (if lost == [] then [] else [G.SourcesLost(lost)])
    case NetworkReset(_, _, _) => []
    case UniverseChange(_) => [G.ChangeUniverse(e.universe, Ok)]
  }

  // ---- Runs ----

  function NowNotified(s: State, e: M.Event, after: M.Receiver, report: M.Report): set<Handle> {
    set h | h in after.sources && (h in s.notified || (report.data && e.Data? && h == e.handle))
  }

  ghost function Advanced(s: State, e: Event): (s': State)
  {
    var (after, report) := M.Step(s.rx, e.cause);
    Joint(after, P.RunEvents(s.merge, Callbacks(e, report)), NowNotified(s, e.cause, after, report))
  }

  ghost function Before(s: State, run: seq<Event>, k: nat): State
    requires k <= |run|
  {
    Runs.StateAt(Advanced, s, run, k)
  }

  /** Both parts are created with the same limit; merge receivers filter preview data. */
  function Created(now: nat, listed: seq<Interface>, config: MergerModel.Config, usePap: bool): State {
    Joint(M.Created(M.Settings(true, config.sourceCountMax), now, listed), P.InitialReceiver(config, usePap), {})
  }

  // ---- Which sources a callback leaves ----

  lemma {:induction false} LoseTakesExactly(rx: G.Receiver, lost: seq<Handle>)
    requires G.WellFormedReceiver(rx)
    ensures G.Lose(rx, lost).sources.Keys == rx.sources.Keys - M.HandleSet(lost)
  {
    if lost != [] {
      var front, last := lost[..|lost| - 1], lost[|lost| - 1];
      LoseTakesExactly(rx, front);
      assert lost == front + [last];
      assert M.HandleSet(lost) == M.HandleSet(front) + {last};
    }
  }

  lemma {:induction false} RunEventsJoined(rx: G.Receiver, first: seq<G.Event>, second: seq<G.Event>)
    requires G.WellFormedReceiver(rx) && forall c | c in first + second :: G.Deliverable(c)
    ensures (forall c | c in first :: G.Deliverable(c)) && forall c | c in second :: G.Deliverable(c)
    ensures P.RunEvents(rx, first + second) == P.RunEvents(P.RunEvents(rx, first), second)
    decreases |first|
  {
    assert forall c | c in first :: c in first + second;
    assert forall c | c in second :: c in first + second;
    if first == [] {
      assert first + second == second;
    } else {
      assert (first + second)[1..] == first[1..] + second;
      RunEventsJoined(G.React(rx, first[0]), first[1..], second);
    }
  }

  lemma {:induction false} SamplingKeepsSources(rx: G.Receiver, callbacks: seq<G.Event>)
    requires G.WellFormedReceiver(rx) && forall c | c in callbacks :: c.SamplingStarted? || c.SamplingEnded?
    ensures P.RunEvents(rx, callbacks).sources.Keys == rx.sources.Keys
    decreases |callbacks|
  {
    if callbacks != [] {
      if callbacks[0].SamplingEnded? {
        P.EndSamplingKeepsSources(rx.(sampling := false), Next(rx.sources.Keys, 0));
      }
      SamplingKeepsSources(G.React(rx, callbacks[0]), callbacks[1..]);
    }
  }

  lemma OneCallback(rx: G.Receiver, c: G.Event)
    requires G.WellFormedReceiver(rx) && G.Deliverable(c)
    ensures P.RunEvents(rx, [c]) == G.React(rx, c)
  {
    assert P.RunEvents(G.React(rx, c), []) == G.React(rx, c);
    assert [c][1..] == [];
  }

  lemma NoCallback(rx: G.Receiver)
    requires G.WellFormedReceiver(rx)
    ensures P.RunEvents(rx, []) == rx
  {
  }

  lemma TickLeaves(s: State, e: Event)
    requires e.cause.Tick?
    ensures Advanced(s, e).merge.sources.Keys == s.merge.sources.Keys - M.HandleSet(e.cause.lost)
  {
    var sampling, lost := SamplingCallbacks(M.Step(s.rx, e.cause).1.notices), e.cause.lost;
    var rest := if lost == [] then [] else [G.SourcesLost(lost)];
    RunEventsJoined(s.merge, sampling, rest);
    SamplingKeepsSources(s.merge, sampling);
    var between := P.RunEvents(s.merge, sampling);
    if lost != [] {
      OneCallback(between, G.SourcesLost(lost));
      LoseTakesExactly(between, lost);
    } else {
      NoCallback(between);
      assert M.HandleSet(lost) == {};
    }
  }

  lemma DataLeaves(s: State, e: Event)
    requires e.cause.Data?
    ensures Advanced(s, e).merge.sources.Keys
      == s.merge.sources.Keys + (if M.Step(s.rx, e.cause).1.data then {e.cause.handle} else {})
  {
    var report := M.Step(s.rx, e.cause).1;
    var first := if report.papLost then [G.PapLost(e.cause.handle)] else [];
    var second := if report.data then [DataCallback(e, report)] else [];
    RunEventsJoined(s.merge, first, second);
    var between := PapLostFirst(s, e, report);
    if report.data {
      OneCallback(between, DataCallback(e, report));
      P.ReactKeys(between, DataCallback(e, report));
    } else {
      NoCallback(between);
    }
  }

  lemma PapLostFirst(s: State, e: Event, report: M.Report) returns (between: G.Receiver)
    requires e.cause.Data?
    ensures between == P.RunEvents(s.merge, if report.papLost then [G.PapLost(e.cause.handle)] else [])
    ensures between.sources.Keys == s.merge.sources.Keys && between.live.config == s.merge.live.config
  {
    between := s.merge;
    if report.papLost {
      OneCallback(s.merge, G.PapLost(e.cause.handle));
      between := G.React(s.merge, G.PapLost(e.cause.handle));
    } else {
      NoCallback(s.merge);
    }
  }

  lemma ResetLeaves(s: State, e: Event)
    requires e.cause.NetworkReset?
    ensures Advanced(s, e).merge == s.merge
  {
    NoCallback(s.merge);
  }

  lemma UniverseChangeLeaves(s: State, e: Event)
    requires P.Sound(s.merge) && e.cause.UniverseChange?
    ensures Advanced(s, e).merge.sources == map[]
  {
    OneCallback(s.merge, G.ChangeUniverse(e.universe, Ok));
    P.UniverseChangeKeepsSound(s.merge, e.universe, Ok);
  }

  // ---- Agreement ----

  /** The merge receiver knows exactly the tracked sources that data was notified of. */
  ghost predicate Agree(s: State) {
    s.merge.sources.Keys == s.notified
  }

  /** A tick drops, without reporting it, a source still waiting for PAP whose other data was notified. */
  ghost predicate DropsSilently(s: State, e: Event) {
    e.cause.Tick? && exists h :: h in s.notified && IsDropped(s.rx, e.cause, h)
  }

  predicate IsDropped(rx: M.Receiver, e: M.Event, h: Handle) {
    e.Tick? && h in rx.sources && Classify(rx.sources[h], e.now) == Erased && h !in e.lost
  }

  /** What agreement rests on, and what it gives: the merge receiver is sound, with room for every newcomer. */
  ghost predicate InStep(s: State) {
    && Agree(s) && s.notified <= s.rx.sources.Keys
    && P.Sound(s.merge) && P.Roomy(s.merge)
    && R.WithinLimit(s.rx) && s.rx.settings.sourceCountMax == s.merge.live.config.sourceCountMax
  }

  lemma NotifiedAfter(s: State, e: M.Event)
    requires s.notified <= s.rx.sources.Keys
    ensures var (after, report) := M.Step(s.rx, e);
      NowNotified(s, e, after, report) == match e
        case Data(_, h, _, _) => s.notified + (if report.data then {h} else {})
        case Tick(_, lost) => (set h | h in s.notified && !IsDropped(s.rx, e, h)) - M.HandleSet(lost)
        case NetworkReset(_, _, _) => s.notified
        case UniverseChange(_) => {}
  {
  }

  /** Which sources the merge receiver knows after an event. */
  lemma SourcesAfter(s: State, e: Event)
    requires P.Sound(s.merge)
    ensures Advanced(s, e).merge.sources.Keys == match e.cause
      case Data(_, h, _, _) => s.merge.sources.Keys + (if M.Step(s.rx, e.cause).1.data then {h} else {})
      case Tick(_, lost) => s.merge.sources.Keys - M.HandleSet(lost)
      case NetworkReset(_, _, _) => s.merge.sources.Keys
      case UniverseChange(_) => {}
  {
    match e.cause
    case Data(_, _, _, _) => DataLeaves(s, e);
    case Tick(_, _) => TickLeaves(s, e);
    case NetworkReset(_, _, _) => ResetLeaves(s, e);
    case UniverseChange(_) => UniverseChangeLeaves(s, e);
  }

  lemma DroppedIsNotLost(s: State, e: M.Event, h: Handle)
    requires e.Tick? && IsDropped(s.rx, e, h)
    ensures h !in M.HandleSet(e.lost)
  {
  }

  /** One event keeps the agreement exactly when it drops nobody silently. */
  lemma AgreeAfterIff(s: State, e: Event)
    requires InStep(s)
    ensures Agree(Advanced(s, e)) <==> !DropsSilently(s, e)
  {
    SourcesAfter(s, e);
    NotifiedAfter(s, e.cause);
    if h :| h in s.notified && IsDropped(s.rx, e.cause, h) {
      DroppedIsNotLost(s, e.cause, h);
      assert h in Advanced(s, e).merge.sources.Keys && h !in Advanced(s, e).notified;
    }
  }

  // ---- Newcomers find room ----

  lemma {:induction false} NoNewcomers(rx: G.Receiver, callbacks: seq<G.Event>)
    requires G.WellFormedReceiver(rx) && forall c | c in callbacks :: G.Deliverable(c) && !c.UniverseData?
    ensures P.NewcomersBelowLimit(rx, callbacks)
    decreases |callbacks|
  {
    if callbacks != [] {
      NoNewcomers(G.React(rx, callbacks[0]), callbacks[1..]);
    }
  }

  lemma {:induction false} ConfigStays(rx: G.Receiver, callbacks: seq<G.Event>)
    requires G.WellFormedReceiver(rx) && forall c | c in callbacks :: G.Deliverable(c)
    ensures P.RunEvents(rx, callbacks).live.config == rx.live.config
    decreases |callbacks|
  {
    if callbacks != [] {
      P.ReactKeys(rx, callbacks[0]);
      ConfigStays(G.React(rx, callbacks[0]), callbacks[1..]);
    }
  }

  /** A source that the receiver found room for finds room in the merge receiver too. */
  lemma RoomForTheNotified(s: State, e: Event)
    requires InStep(s) && e.cause.Data? && M.Step(s.rx, e.cause).1.data && e.cause.handle !in s.merge.sources
    ensures P.RoomForOne(s.merge)
  {
    var after := M.Step(s.rx, e.cause).0;
    R.StepKeepsLimit(s.rx, e.cause);
    assert e.cause.handle in after.sources && s.merge.sources.Keys <= after.sources.Keys;
    FewerKeys(s.merge.sources, after.sources, e.cause.handle);
  }

  lemma {:induction false} LastIsTheNewcomer(rx: G.Receiver, first: seq<G.Event>, last: G.Event)
    requires G.WellFormedReceiver(rx) && |first| <= 1 && (forall c | c in first :: c.PapLost?) && G.Deliverable(last)
    requires last.UniverseData? && last.packet.source !in rx.sources ==> P.RoomForOne(rx)
    ensures P.NewcomersBelowLimit(rx, first + [last])
  {
    if first == [] {
      assert first + [last] == [last];
      assert P.NewcomersBelowLimit(G.React(rx, last), []);
    } else {
      assert first[0] in first;
      var next := G.React(rx, first[0]);
      assert next.sources.Keys == rx.sources.Keys && next.live.config == rx.live.config;
      assert |next.sources| == |next.sources.Keys| && |rx.sources| == |rx.sources.Keys|;
      assert (first + [last])[1..] == [last];
      assert P.NewcomersBelowLimit(G.React(next, last), []);
    }
  }

  lemma CallbacksBelowLimit(s: State, e: Event)
    requires InStep(s)
    ensures P.NewcomersBelowLimit(s.merge, Callbacks(e, M.Step(s.rx, e.cause).1))
  {
    var report := M.Step(s.rx, e.cause).1;
    if e.cause.Data? && report.data {
      if e.cause.handle !in s.merge.sources {
        RoomForTheNotified(s, e);
      }
      LastIsTheNewcomer(s.merge, if report.papLost then [G.PapLost(e.cause.handle)] else [], DataCallback(e, report));
    } else {
      NoNewcomers(s.merge, Callbacks(e, report));
    }
  }

  lemma StaysInStep(s: State, e: Event)
    requires InStep(s) && !DropsSilently(s, e)
    ensures InStep(Advanced(s, e))
  {
    var callbacks := Callbacks(e, M.Step(s.rx, e.cause).1);
    AgreeAfterIff(s, e);
    CallbacksBelowLimit(s, e);
    P.RunKeepsSound(s.merge, callbacks);
    ConfigStays(s.merge, callbacks);
    R.StepKeepsLimit(s.rx, e.cause);
  }

  // ---- Every run ----

  ghost function Agreeing(): State -> bool {
    (s: State) => Agree(s)
  }

  ghost function KeepingStep(): State -> bool {
    (s: State) => InStep(s)
  }

  ghost function DroppingNobody(): (State, Event) -> bool {
    (s: State, e: Event) => !DropsSilently(s, e)
  }

  ghost predicate AgreeUpTo(s: State, run: seq<Event>, k: nat)
    requires k <= |run|
  {
    Runs.HoldsUpTo(Advanced, s, run, Agreeing(), k)
  }

  ghost predicate NobodyDropped(s: State, run: seq<Event>, k: nat)
    requires k <= |run|
  {
    Runs.FineUpTo(Advanced, s, run, DroppingNobody(), k)
  }

  lemma InStepIsInvariant()
    ensures Runs.IsInvariant(Advanced, KeepingStep(), DroppingNobody())
  {
    forall s: State, e: Event | InStep(s) && !DropsSilently(s, e) ensures InStep(Advanced(s, e)) {
      StaysInStep(s, e);
    }
  }

  lemma DroppingDecides()
    ensures Runs.FineIffGood(Advanced, KeepingStep(), Agreeing(), DroppingNobody())
  {
    forall s: State, e: Event | InStep(s) ensures Agree(Advanced(s, e)) <==> !DropsSilently(s, e) {
      AgreeAfterIff(s, e);
    }
  }

  lemma InStepUntilDropped(s: State, run: seq<Event>, k: nat)
    requires InStep(s) && k <= |run| && NobodyDropped(s, run, k)
    ensures InStep(Before(s, run, k))
  {
    InStepIsInvariant();
    Runs.InvariantHolds(Advanced, s, run, KeepingStep(), DroppingNobody(), k);
  }

  lemma AgreeUpToIff(s: State, run: seq<Event>, k: nat)
    requires InStep(s) && k <= |run|
    ensures AgreeUpTo(s, run, k) <==> NobodyDropped(s, run, k)
  {
    InStepIsInvariant();
    DroppingDecides();
    Runs.GoodWhileFine(Advanced, s, run, KeepingStep(), Agreeing(), DroppingNobody(), k);
  }

  lemma CreatedInStep(now: nat, listed: seq<Interface>, config: MergerModel.Config, usePap: bool)
    ensures InStep(Created(now, listed, config, usePap))
  {
    var merge := P.InitialReceiver(config, usePap);
    assert P.Members(merge.sources, false) == {} && P.Members(merge.sources, true) == {};
  }

  ghost predicate NotifiedKnown(s: State) {
    s.notified <= s.merge.sources.Keys && s.notified <= s.rx.sources.Keys
  }

  lemma StaysKnown(s: State, e: Event)
    requires NotifiedKnown(s)
    ensures NotifiedKnown(Advanced(s, e))
  {
    NotifiedAfter(s, e.cause);
    match e.cause
    case Data(_, _, _, _) => DataLeaves(s, e);
    case Tick(_, _) => TickLeaves(s, e);
    case NetworkReset(_, _, _) => ResetLeaves(s, e);
    case UniverseChange(_) =>
  }

  /** Agreement fails in one direction only: the merge receiver knows every notified source still tracked. */
  lemma NotifiedAreKnown(now: nat, listed: seq<Interface>, config: MergerModel.Config, usePap: bool,
          run: seq<Event>, k: nat)
    requires k <= |run|
    ensures NotifiedKnown(Before(Created(now, listed, config, usePap), run, k))
  {
    KnownInRuns(Created(now, listed, config, usePap), run, k);
  }

  ghost function KnowingNotified(): State -> bool {
    (s: State) => NotifiedKnown(s)
  }

  ghost function Anything(): (State, Event) -> bool {
    (s: State, e: Event) => true
  }

  lemma KnownInRuns(s: State, run: seq<Event>, k: nat)
    requires NotifiedKnown(s) && k <= |run|
    ensures NotifiedKnown(Before(s, run, k))
  {
    forall s: State, e: Event | NotifiedKnown(s) ensures NotifiedKnown(Advanced(s, e)) {
      StaysKnown(s, e);
    }
    assert Runs.IsInvariant(Advanced, KnowingNotified(), Anything());
    Runs.InvariantHolds(Advanced, s, run, KnowingNotified(), Anything(), k);
  }

  /**
   All along a run, the merge receiver knows exactly the sources that the application was notified of and
   that are still tracked, if and only if no tick has dropped such a source without reporting it.
   */
  lemma MergeReceiverKnowsTheNotifiedIff(now: nat, listed: seq<Interface>, config: MergerModel.Config, usePap: bool,
          run: seq<Event>, k: nat)
    requires k <= |run|
    ensures var s := Created(now, listed, config, usePap); AgreeUpTo(s, run, k) <==> NobodyDropped(s, run, k)
  {
    CreatedInStep(now, listed, config, usePap);
    AgreeUpToIff(Created(now, listed, config, usePap), run, k);
  }

  lemma InStepMeans(s: State)
    requires InStep(s)
    ensures s.merge.sources.Keys <= s.rx.sources.Keys
    ensures s.merge.live.records.Keys + s.merge.trial.records.Keys == s.notified
  {
    assert s.merge.sources.Keys == P.Members(s.merge.sources, false) + P.Members(s.merge.sources, true);
  }

  /**
   And as long as that is so, one limit for the receiver and the merge receiver is enough: no newcomer is
   turned away by a merger, and each source is in the merger that its flag says.
   */
  lemma OneLimitIsEnough(now: nat, listed: seq<Interface>, config: MergerModel.Config, usePap: bool, run: seq<Event>,
          k: nat)
    requires k <= |run| && NobodyDropped(Created(now, listed, config, usePap), run, k)
    ensures var s := Before(Created(now, listed, config, usePap), run, k);
      && P.Sound(s.merge) && s.merge.sources.Keys <= s.rx.sources.Keys
      && s.merge.live.records.Keys + s.merge.trial.records.Keys == s.notified
  {
    CreatedInStep(now, listed, config, usePap);
    InStepUntilDropped(Created(now, listed, config, usePap), run, k);
    InStepMeans(Before(Created(now, listed, config, usePap), run, k));
  }

  // ---- Callbacks that name a source ----

  /** Each lost source is found when its turn comes; the code asserts as much. */
  ghost predicate FindsAll(rx: G.Receiver, lost: seq<Handle>)
    requires G.WellFormedReceiver(rx)
  {
    forall i | 0 <= i < |lost| :: FindsLost(rx, lost, i)
  }

  ghost predicate FindsLost(rx: G.Receiver, lost: seq<Handle>, i: nat)
    requires G.WellFormedReceiver(rx) && i < |lost|
  {
    lost[i] in G.Lose(rx, lost[..i]).sources
  }

  /** Likewise for a source that lost its PAP. */
  ghost predicate FindsNamed(rx: G.Receiver, c: G.Event)
    requires G.WellFormedReceiver(rx)
  {
    && (c.SourcesLost? ==> FindsAll(rx, c.lost))
    && (c.PapLost? && rx.usePap ==> c.source in rx.sources)
  }

  ghost predicate AllFindNamed(rx: G.Receiver, callbacks: seq<G.Event>)
    requires G.WellFormedReceiver(rx) && forall c | c in callbacks :: G.Deliverable(c)
    decreases |callbacks|
  {
    callbacks == [] || (FindsNamed(rx, callbacks[0]) && AllFindNamed(G.React(rx, callbacks[0]), callbacks[1..]))
  }

  /** The assertions in the callbacks of one event hold. */
  ghost predicate AssertionsHold(s: State, e: Event) {
    AllFindNamed(s.merge, Callbacks(e, M.Step(s.rx, e.cause).1))
  }

  predicate Distinct(handles: seq<Handle>) {
    forall i, j | 0 <= i < j < |handles| :: handles[i] != handles[j]
  }

  /** Data was notified of every source that the event's callbacks name as lost, or as having lost its PAP. */
  ghost predicate NamesNotified(s: State, e: Event) {
    match e.cause
    case Data(_, h, _, _) => M.Step(s.rx, e.cause).1.papLost && s.merge.usePap ==> h in s.notified
    case Tick(_, lost) => Distinct(lost) && forall h | h in lost :: h in s.notified
    case NetworkReset(_, _, _) => true
    case UniverseChange(_) => true
  }

  lemma FindsAllIff(rx: G.Receiver, lost: seq<Handle>)
    requires G.WellFormedReceiver(rx)
    ensures FindsAll(rx, lost) <==> Distinct(lost) && forall h | h in lost :: h in rx.sources
  {
    forall i | 0 <= i < |lost| ensures FindsLost(rx, lost, i) <==> lost[i] in rx.sources && lost[i] !in lost[..i] {
      LoseTakesExactly(rx, lost[..i]);
    }
    if FindsAll(rx, lost) {
      forall i, j | 0 <= i < j < |lost| ensures lost[i] != lost[j] {
        assert FindsLost(rx, lost, j) && lost[..j][i] == lost[i];
      }
      forall h | h in lost ensures h in rx.sources {
        var i :| 0 <= i < |lost| && lost[i] == h;
        assert FindsLost(rx, lost, i);
      }
    }
  }

  lemma {:induction false} SamplingNamesNobody(rx: G.Receiver, sampling: seq<G.Event>, rest: seq<G.Event>)
    requires G.WellFormedReceiver(rx) && (forall c | c in sampling :: c.SamplingStarted? || c.SamplingEnded?)
    requires forall c | c in sampling + rest :: G.Deliverable(c)
    ensures (forall c | c in sampling :: G.Deliverable(c)) && (forall c | c in rest :: G.Deliverable(c))
    ensures AllFindNamed(rx, sampling + rest) <==> AllFindNamed(P.RunEvents(rx, sampling), rest)
    decreases |sampling|
  {
    assert forall c | c in rest :: c in sampling + rest;
    if sampling == [] {
      assert sampling + rest == rest;
    } else {
      assert (sampling + rest)[1..] == sampling[1..] + rest && (sampling + rest)[0] == sampling[0];
      assert sampling[0] in sampling && FindsNamed(rx, sampling[0]);
      SamplingNamesNobody(G.React(rx, sampling[0]), sampling[1..], rest);
      assert P.RunEvents(rx, sampling) == P.RunEvents(G.React(rx, sampling[0]), sampling[1..]);
    }
  }

  lemma OneNames(rx: G.Receiver, c: G.Event)
    requires G.WellFormedReceiver(rx) && G.Deliverable(c)
    ensures AllFindNamed(rx, [c]) <==> FindsNamed(rx, c)
  {
    assert [c][1..] == [] && AllFindNamed(G.React(rx, c), []);
  }

  lemma TickAssertionsIff(s: State, e: Event)
    requires e.cause.Tick?
    ensures AssertionsHold(s, e) <==> Distinct(e.cause.lost) && forall h | h in e.cause.lost :: h in s.merge.sources
  {
    var sampling, lost := SamplingCallbacks(M.Step(s.rx, e.cause).1.notices), e.cause.lost;
    SamplingKeepsSources(s.merge, sampling);
    var rest := if lost == [] then [] else [G.SourcesLost(lost)];
    SamplingNamesNobody(s.merge, sampling, rest);
    var between := P.RunEvents(s.merge, sampling);
    if lost != [] {
      OneNames(between, G.SourcesLost(lost));
      FindsAllIff(between, lost);
    }
  }

  lemma DataAssertionsIff(s: State, e: Event)
    requires e.cause.Data?
    ensures AssertionsHold(s, e)
      <==> (M.Step(s.rx, e.cause).1.papLost && s.merge.usePap ==> e.cause.handle in s.merge.sources)
  {
    var report := M.Step(s.rx, e.cause).1;
    var second := if report.data then [DataCallback(e, report)] else [];
    var between := PapLostFirst(s, e, report);
    NobodyNamed(between, second);
    if report.papLost {
      assert ([G.PapLost(e.cause.handle)] + second)[1..] == second;
      OneCallback(s.merge, G.PapLost(e.cause.handle));
    } else {
      assert [] + second == second;
      NoCallback(s.merge);
    }
  }

  lemma NobodyNamed(rx: G.Receiver, callbacks: seq<G.Event>)
    requires G.WellFormedReceiver(rx) && |callbacks| <= 1
    requires forall c | c in callbacks :: G.Deliverable(c) && c.UniverseData?
    ensures AllFindNamed(rx, callbacks)
  {
    if callbacks != [] {
      assert callbacks == [callbacks[0]];
      OneNames(rx, callbacks[0]);
    }
  }

  lemma AssertionsHoldIff(s: State, e: Event)
    requires Agree(s)
    ensures AssertionsHold(s, e) <==> NamesNotified(s, e)
  {
    match e.cause
    case Data(_, _, _, _) => DataAssertionsIff(s, e);
    case Tick(_, _) => TickAssertionsIff(s, e);
    case NetworkReset(_, _, _) =>
    case UniverseChange(_) =>
      OneNames(s.merge, G.ChangeUniverse(e.universe, Ok));
  }

  /**
   As long as no tick has dropped a notified source silently, the merge receiver finds every source that a
   callback names exactly when data of each one had been notified.
   */
  lemma NamedSourcesAreFoundIff(now: nat, listed: seq<Interface>, config: MergerModel.Config, usePap: bool,
          run: seq<Event>, k: nat, e: Event)
    requires k <= |run| && NobodyDropped(Created(now, listed, config, usePap), run, k)
    ensures var s := Before(Created(now, listed, config, usePap), run, k); AssertionsHold(s, e) <==> NamesNotified(s, e)
  {
    CreatedInStep(now, listed, config, usePap);
    InStepUntilDropped(Created(now, listed, config, usePap), run, k);
    AssertionsHoldIff(Before(Created(now, listed, config, usePap), run, k), e);
  }

  // ---- Two runs ----

  const HERE := Netint(1, 1)
  const THERE := Netint(1, 2)
  const ONE_SOURCE := MergerModel.Config(1, 1, false, false)

  /** A receiver with one interface and room for one source, past its first sampling period. */
  ghost const SETTLED := Joint(
    M.Receiver(M.Settings(true, 1), [HERE], S.Sampling(false, true, Timer(0, S.SAMPLE_TIME), map[]), map[], false),
    P.InitialReceiver(ONE_SOURCE, true).(sampling := false), {})

  function Ticked(now: nat): Event {
    Input(M.Tick(now, []), 0, [], 0)
  }

  function Sent(now: nat, h: Handle, from: Netint, startCode: byte, sequence: byte, values: seq<byte>): Event
    requires h != INVALID_SOURCE
  {
    Input(M.Data(now, h, from, Packet(startCode, sequence, false, false)), 100, values, 0)
  }

  /** The receiver's part of a step, when it reports nothing. */
  lemma QuietStep(s: State, e: Event, after: M.Receiver)
    requires !e.cause.UniverseChange?
    requires M.Step(s.rx, e.cause) == (after, M.NOTHING) && (e.cause.Tick? ==> e.cause.lost == [])
    ensures Advanced(s, e) == Joint(after, s.merge, s.notified * after.sources.Keys)
  {
    assert Callbacks(e, M.NOTHING) == [];
    NoCallback(s.merge);
  }

  lemma DataStep(s: State, e: Event, after: M.Receiver, sampling: bool)
    requires e.cause.Data? && e.cause.handle in after.sources
    requires M.Step(s.rx, e.cause) == (after, M.NOTHING.(data := true, samplingData := sampling))
    requires s.notified <= after.sources.Keys
    ensures var report := M.Step(s.rx, e.cause).1;
      Advanced(s, e) == Joint(after, G.React(s.merge, DataCallback(e, report)), s.notified + {e.cause.handle})
  {
    var report := M.Step(s.rx, e.cause).1;
    assert Callbacks(e, report) == [DataCallback(e, report)];
    OneCallback(s.merge, DataCallback(e, report));
  }

  const ALTERNATE: byte := 0x17

  const DMX_OF_1 := Sent(1700, 1, HERE, STARTCODE_DMX, 0, [50])
  const OTHER_OF_1 := Sent(1710, 1, HERE, ALTERNATE, 1, [7])
  const PAP_OF_2 := Sent(5010, 2, HERE, STARTCODE_PRIORITY, 0, [100])

  const WAITING := NewSource(HERE, DMX_OF_1.cause.packet, false, 1700)
  const NEXT := NewSource(HERE, PAP_OF_2.cause.packet, false, 5010)

  ghost function Tracking(sources: map<Handle, Source>, suppressed: bool): M.Receiver {
    SETTLED.rx.(sources := sources, suppressed := suppressed)
  }

  lemma FirstWaits()
    ensures M.Step(SETTLED.rx, DMX_OF_1.cause) == (Tracking(map[1 := WAITING], false), M.NOTHING)
  {
  }

  lemma FirstSendsOtherData()
    ensures M.Step(Tracking(map[1 := WAITING], false), OTHER_OF_1.cause)
      == (Tracking(map[1 := WAITING.(sequence := 1)], false), M.NOTHING.(data := true))
  {
    var heard: map<Handle, Source> := map[1 := WAITING];
    assert heard[1 := WAITING.(sequence := 1)] == map[1 := WAITING.(sequence := 1)];
  }

  lemma FirstIsDropped()
    ensures M.Step(Tracking(map[1 := WAITING.(sequence := 1)], false), Ticked(5000).cause)
      == (Tracking(map[], false), M.NOTHING)
    ensures IsDropped(Tracking(map[1 := WAITING.(sequence := 1)], false), Ticked(5000).cause, 1)
  {
    assert M.SourcesKept(map[1 := WAITING.(sequence := 1)], 5000, []) == map[];
    assert S.TickSampling(SETTLED.rx.sampling, 5000).1 == [];
  }

  lemma SecondComes()
    ensures M.Step(Tracking(map[], false), PAP_OF_2.cause)
      == (Tracking(map[2 := NEXT], false), M.NOTHING.(data := true))
  {
    var nobody: map<Handle, Source> := map[];
    assert nobody[2 := NEXT] == map[2 := NEXT];
  }

  /** A newcomer outside sampling is tracked, and joins the live merger if that has room. */
  lemma NewcomerGoesLive(merge: G.Receiver, p: G.Packet)
    requires G.WellFormedReceiver(merge) && p.source != INVALID_SOURCE && p.source !in merge.sources && !p.isSampling
    requires p.startCode != STARTCODE_DMX
    ensures var after := G.React(merge, G.UniverseData(p));
      && after.sources.Keys == merge.sources.Keys + {p.source}
      && after.live.records.Keys == P.KeysAfter(merge.live, MergerModel.AddSource(p.source))
      && after.live.config == merge.live.config
  {
    P.StepKeys(merge.live, MergerModel.AddSource(p.source));
    FeedingPapKeepsKeys(G.Track(merge, p), p);
  }

  lemma FeedingPapKeepsKeys(merge: G.Receiver, p: G.Packet)
    requires G.WellFormedReceiver(merge) && !p.isSampling && p.startCode != STARTCODE_DMX
    ensures G.Feed(merge, p).sources == merge.sources && G.Feed(merge, p).live.records.Keys == merge.live.records.Keys
    ensures G.Feed(merge, p).live.config == merge.live.config
  {
    P.StepKeys(merge.live, MergerModel.UpdatePap(p.source, p.values));
  }

  lemma FirstIsTakenIn(s: State)
    requires s == Advanced(Advanced(SETTLED, DMX_OF_1), OTHER_OF_1)
    ensures s.rx == Tracking(map[1 := WAITING.(sequence := 1)], false) && s.notified == {1}
    ensures s.merge.sources.Keys == {1} && s.merge.live.records.Keys == {1} && s.merge.live.config == ONE_SOURCE
  {
    var waits := SETTLED.(rx := Tracking(map[1 := WAITING], false));
    FirstWaits();
    QuietStep(SETTLED, DMX_OF_1, waits.rx);
    FirstSendsOtherData();
    DataStep(waits, OTHER_OF_1, Tracking(map[1 := WAITING.(sequence := 1)], false), false);
    NewcomerGoesLive(waits.merge, DataCallback(OTHER_OF_1, M.NOTHING.(data := true)).packet);
  }

  lemma FullMergerRefuses(merge: G.Receiver, p: G.Packet)
    requires G.WellFormedReceiver(merge) && merge.live.records.Keys == {1} && merge.live.config == ONE_SOURCE
    requires p.source != INVALID_SOURCE && p.source !in merge.sources && !p.isSampling && p.startCode != STARTCODE_DMX
    ensures G.React(merge, G.UniverseData(p)).sources.Keys == merge.sources.Keys + {p.source}
    ensures G.React(merge, G.UniverseData(p)).live.records.Keys == {1}
  {
    assert |merge.live.records| == |merge.live.records.Keys| == 1;
    NewcomerGoesLive(merge, p);
  }

  lemma SecondIsRefused(merge: G.Receiver)
    requires G.WellFormedReceiver(merge)
    requires merge.sources.Keys == {1} && merge.live.records.Keys == {1} && merge.live.config == ONE_SOURCE
    ensures var after := Advanced(Joint(Tracking(map[], false), merge, {}), PAP_OF_2);
      && after.notified == {2} && after.rx.sources.Keys == {2}
      && after.merge.sources.Keys == {1, 2} && after.merge.live.records.Keys == {1}
  {
    SecondIsNotified(merge);
    FullMergerRefuses(merge, DataCallback(PAP_OF_2, M.NOTHING.(data := true)).packet);
  }

  lemma SecondIsNotified(merge: G.Receiver)
    requires G.WellFormedReceiver(merge)
    ensures Advanced(Joint(Tracking(map[], false), merge, {}), PAP_OF_2)
      == Joint(Tracking(map[2 := NEXT], false), G.React(merge, DataCallback(PAP_OF_2, M.NOTHING.(data := true))), {2})
  {
    SecondComes();
    DataStep(Joint(Tracking(map[], false), merge, {}), PAP_OF_2, Tracking(map[2 := NEXT], false), false);
  }

  lemma SecondIsShutOut(s: State)
    requires s.rx == Tracking(map[1 := WAITING.(sequence := 1)], false) && s.notified == {1}
    requires s.merge.sources.Keys == {1} && s.merge.live.records.Keys == {1} && s.merge.live.config == ONE_SOURCE
    ensures DropsSilently(s, Ticked(5000))
    ensures var after := Advanced(Advanced(s, Ticked(5000)), PAP_OF_2);
      && after.notified == {2} && after.rx.sources.Keys == {2}
      && after.merge.sources.Keys == {1, 2} && after.merge.live.records.Keys == {1}
  {
    FirstIsDropped();
    QuietStep(s, Ticked(5000), Tracking(map[], false));
    assert Advanced(s, Ticked(5000)) == Joint(Tracking(map[], false), s.merge, {});
    SecondIsRefused(s.merge);
  }

  /**
   Source 1 waits for PAP; data with another start code is notified, so the merge receiver takes it in. Its
   timeout is not reported. With one source allowed, source 2 is then tracked and notified, but the live
   merger has no room for it.
   */
  lemma DroppedSourceKeepsItsPlace()
    ensures var run := [DMX_OF_1, OTHER_OF_1, Ticked(5000), PAP_OF_2];
      var s := Before(SETTLED, run, 4);
      && DropsSilently(Before(SETTLED, run, 2), run[2]) && s.notified == {2} && s.rx.sources.Keys == {2}
      && s.merge.sources.Keys == {1, 2} && s.merge.live.records.Keys == {1}
  {
    var run := [DMX_OF_1, OTHER_OF_1, Ticked(5000), PAP_OF_2];
    var taken := Before(SETTLED, run, 2);
    FourSteps(SETTLED, run);
    FirstIsTakenIn(taken);
    SecondIsShutOut(taken);
  }

  lemma FourSteps(s: State, run: seq<Event>)
    requires |run| == 4
    ensures Before(s, run, 2) == Advanced(Advanced(s, run[0]), run[1])
    ensures Before(s, run, 4) == Advanced(Advanced(Before(s, run, 2), run[2]), run[3])
  {
    assert Before(s, run, 0) == s;
    assert Before(s, run, 1) == Advanced(s, run[0]);
    assert Before(s, run, 3) == Advanced(Before(s, run, 2), run[2]);
  }

  // ---- Levels sent to the wrong merger ----

  const PAP_HERE := Sent(2000, 1, HERE, STARTCODE_PRIORITY, 0, [100])
  const RESET := Input(M.NetworkReset(2100, [Interface(HERE, true), Interface(THERE, true)], false), 0, [], 0)
  const DMX_THERE := Sent(2200, 1, THERE, STARTCODE_DMX, 1, [50])

  const LIVE := NewSource(HERE, PAP_HERE.cause.packet, false, 2000)

  ghost const SAMPLING_THERE := Tracking(map[1 := LIVE], false).(netints := [HERE, THERE],
    sampling := S.Sampling(true, false, Timer(2100, S.SAMPLE_TIME), map[THERE := false]))

  lemma BothAreUsed()
    ensures Usable([Interface(HERE, true), Interface(THERE, true)]) == [HERE, THERE]
  {
    var listed := [Interface(HERE, true), Interface(THERE, true)];
    assert listed[..1] == [Interface(HERE, true)] && listed[..1][..0] == [];
    assert Usable(listed[..1]) == [HERE];
  }

  lemma ComesAliveHere()
    ensures M.Step(SETTLED.rx, PAP_HERE.cause) == (Tracking(map[1 := LIVE], false), M.NOTHING.(data := true))
  {
    var nobody: map<Handle, Source> := map[];
    assert nobody[1 := LIVE] == map[1 := LIVE];
  }

  lemma SamplesThere()
    ensures M.Step(Tracking(map[1 := LIVE], false), RESET.cause) == (SAMPLING_THERE, M.NOTHING)
  {
    var listed := RESET.cause.listed;
    BothAreUsed();
    NothingUsable(listed);
    assert M.Updated(map[], [HERE], false, listed) == map[THERE := false];
    assert M.TerminatedOff(map[1 := LIVE], [HERE, THERE], 2100) == map[1 := LIVE];
  }

  lemma SamplesDmxThere() returns (after: M.Receiver)
    ensures M.Step(SAMPLING_THERE, DMX_THERE.cause) == (after, M.NOTHING.(data := true, samplingData := true))
    ensures after.sources.Keys == {1}
  {
    after := M.Step(SAMPLING_THERE, DMX_THERE.cause).0;
  }

  lemma SettledInStep()
    ensures InStep(SETTLED)
  {
    assert P.Members(SETTLED.merge.sources, false) == {} && P.Members(SETTLED.merge.sources, true) == {};
  }

  lemma LiveSourceSampled(s: State)
    requires s == Advanced(Advanced(SETTLED, PAP_HERE), RESET)
    ensures s.rx == SAMPLING_THERE && 1 in s.merge.sources && !s.merge.sources[1].sampling && s.notified == {1}
  {
    var here := Tracking(map[1 := LIVE], false);
    ComesAliveHere();
    DataStep(SETTLED, PAP_HERE, here, false);
    SamplesThere();
    QuietStep(Advanced(SETTLED, PAP_HERE), RESET, SAMPLING_THERE);
  }

  lemma LevelsAreDropped(s: State)
    requires P.Sound(s.merge) && s.rx == SAMPLING_THERE && 1 in s.merge.sources && !s.merge.sources[1].sampling
    requires s.notified == {1} && s.merge.live.config == ONE_SOURCE
    ensures M.Step(s.rx, DMX_THERE.cause).1.data && M.Step(s.rx, DMX_THERE.cause).1.samplingData
    ensures Advanced(s, DMX_THERE).merge.live == s.merge.live && Advanced(s, DMX_THERE).merge.trial == s.merge.trial
  {
    var after := SamplesDmxThere();
    DataStep(s, DMX_THERE, after, true);
    P.LevelsArriveIffRoutedToTheSource(s.merge, DataCallback(DMX_THERE, M.Step(s.rx, DMX_THERE.cause).1).packet);
  }

  /**
   Source 1 is live on one interface. A network reset brings another one into a sampling period; levels that
   arrive there are notified as sampling data, go to the sampling merger, and reach neither merger's records.
   */
  lemma LevelsFromTheOtherInterfaceAreDropped()
    ensures var run := [PAP_HERE, RESET, DMX_THERE];
      var before, after := Before(SETTLED, run, 2), Before(SETTLED, run, 3);
      && M.Step(before.rx, DMX_THERE.cause).1.data && M.Step(before.rx, DMX_THERE.cause).1.samplingData
      && 1 in before.merge.sources && !before.merge.sources[1].sampling
      && after.merge.live == before.merge.live && after.merge.trial == before.merge.trial
  {
    var run := [PAP_HERE, RESET, DMX_THERE];
    var before := Before(SETTLED, run, 2);
    assert Before(SETTLED, run, 0) == SETTLED && Before(SETTLED, run, 1) == Advanced(SETTLED, PAP_HERE);
    LiveSourceSampled(before);
    TwoStepsStaySound(run);
    SettledConfigStays(run);
    LevelsAreDropped(before);
    assert Before(SETTLED, run, 3) == Advanced(before, DMX_THERE);
  }

  lemma TwoStepsStaySound(run: seq<Event>)
    requires |run| >= 2 && !run[0].cause.Tick? && !run[1].cause.Tick?
    ensures P.Sound(Before(SETTLED, run, 2).merge)
  {
    SettledInStep();
    assert NobodyDropped(SETTLED, run, 2);
    InStepUntilDropped(SETTLED, run, 2);
  }

  lemma SettledConfigStays(run: seq<Event>)
    requires |run| >= 2
    ensures Before(SETTLED, run, 2).merge.live.config == ONE_SOURCE
  {
    assert Before(SETTLED, run, 0) == SETTLED;
    ConfigStays(SETTLED.merge, Callbacks(run[0], M.Step(SETTLED.rx, run[0].cause).1));
    var first := Before(SETTLED, run, 1);
    ConfigStays(first.merge, Callbacks(run[1], M.Step(first.rx, run[1].cause).1));
  }

  // ---- How the runs begin ----

  /** Created with one interface, and ticked during and after its first period. */
  lemma SettledIsReached()
    ensures Before(Created(0, [Interface(HERE, true)], ONE_SOURCE, true), [Ticked(100), Ticked(1600)], 2) == SETTLED
  {
    var run := [Ticked(100), Ticked(1600)];
    var created := Created(0, [Interface(HERE, true)], ONE_SOURCE, true);
    var announced := created.rx.(sampling := created.rx.sampling.(notifiedStarted := true));
    CreatedHere();
    assert Before(created, run, 0) == created;
    StartIsCalledBack(created, announced);
    assert Before(created, run, 1) == created.(rx := announced);
    EndIsCalledBack(created.(rx := announced));
  }

  lemma CreatedHere()
    ensures var rx := Created(0, [Interface(HERE, true)], ONE_SOURCE, true).rx;
      && rx == SETTLED.rx.(sampling := S.Sampling(true, false, Timer(0, S.SAMPLE_TIME), map[HERE := false]))
      && M.Step(rx, Ticked(100).cause)
         == (rx.(sampling := rx.sampling.(notifiedStarted := true)), M.NOTHING.(notices := [S.Started]))
  {
    var listed := [Interface(HERE, true)];
    assert listed[..0] == [] && Usable(listed[..0]) == [] && Usable(listed) == [HERE];
    var rx := Created(0, listed, ONE_SOURCE, true).rx;
    assert S.TickSampling(rx.sampling, 100).1 == [S.Started];
    assert M.SourcesKept(map[], 100, []) == map[];
  }

  lemma StartIsCalledBack(s: State, after: M.Receiver)
    requires s.merge.sampling && s.notified == {}
    requires M.Step(s.rx, Ticked(100).cause) == (after, M.NOTHING.(notices := [S.Started]))
    ensures Advanced(s, Ticked(100)) == s.(rx := after)
  {
    assert Callbacks(Ticked(100), M.NOTHING.(notices := [S.Started])) == [G.SamplingStarted];
    OneCallback(s.merge, G.SamplingStarted);
  }

  lemma EndIsCalledBack(s: State)
    requires s.merge == P.InitialReceiver(ONE_SOURCE, true) && s.notified == {}
    requires s.rx == SETTLED.rx.(sampling := S.Sampling(true, true, Timer(0, S.SAMPLE_TIME), map[HERE := false]))
    ensures Advanced(s, Ticked(1600)) == SETTLED
  {
    assert S.Upcoming(s.rx.sampling.netints) == map[];
    assert S.TickSampling(s.rx.sampling, 1600).1 == [S.Ended];
    assert M.SourcesKept(map[], 1600, []) == map[];
    assert Callbacks(Ticked(1600), M.Step(s.rx, Ticked(1600).cause).1) == [G.SamplingEnded];
    OneCallback(s.merge, G.SamplingEnded);
    assert Next(s.merge.sources.Keys, 0) == None;
  }
}
