/**
 Receiver, termination sets and merge receiver together: the sources that a tick reports lost are those that the
 receiver's own termination sets give.
 */
module LossCallbacks {
  import opened Common
  import opened Interfaces
  import opened SourceTracking
  import opened StatusLists
  import M = ReceiverModel
  import G = MergeReceiverModel
  import P = MergeReceiverProofs
  import L = LossRuns
  import U = MergedUniverse
  import Refusals
  import Routing
  import SourceLoss
  import MergerModel
  import Runs
  import N = NotifiedData
  import O = MergedOutputs

  /** An event at the receiver and its termination sets, with the parts that only the merge receiver looks at. */
  datatype Input = Input(cause: L.Event, priority: byte, values: seq<byte>, universe: nat)

  predicate Allowed(e: Input) {
    e.cause.Other? ==>
      !e.cause.event.Tick? && U.Allowed(U.Input(e.cause.event, e.priority, e.values, e.universe))
  }

  type Event = e: Input | Allowed(e) witness Input(L.Ticked(0, 0, EMPTY), 0, [], 0)

  datatype Setup = Setup(now: nat, listed: seq<Interface>, config: MergerModel.Config, usePap: bool)

  function Causes(run: seq<Event>): (causes: seq<L.Event>)
    ensures |causes| == |run|
  {
    seq(|run|, k requires 0 <= k < |run| => run[k].cause)
  }

  /** What receiver and merge receiver see of an event. */
  ghost function Seen(t: L.Tracking, e: Event): U.Event {
    U.Input(L.ReceiverEvent(t, e.cause), e.priority, e.values, e.universe)
  }

  function FirstTracking(c: Setup): L.Tracking {
    L.Created(M.Settings(true, c.config.sourceCountMax), c.now, c.listed)
  }

  function FirstJoint(c: Setup): U.State {
    U.Created(c.now, c.listed, c.config, c.usePap)
  }

  /** Receiver and termination sets before event `k`. */
  ghost function TrackingAt(c: Setup, run: seq<Event>, k: nat): L.Tracking
    requires k <= |run|
  {
    L.Before(FirstTracking(c), Causes(run), k)
  }

  ghost function SeenRun(c: Setup, run: seq<Event>): (seen: seq<U.Event>)
    ensures |seen| == |run|
  {
    seq(|run|, k requires 0 <= k < |run| => Seen(TrackingAt(c, run, k), run[k]))
  }

  /** Receiver and merge receiver before event `k`. */
  ghost function JointAt(c: Setup, run: seq<Event>, k: nat): U.State
    requires k <= |run|
  {
    U.Before(FirstJoint(c), SeenRun(c, run), k)
  }

  ghost predicate PossibleRun(c: Setup, run: seq<Event>) {
    L.PossibleRun(FirstTracking(c), Causes(run))
  }

  // ---- One receiver ----

  lemma SeesTheSame(t: L.Tracking, s: U.State, e: Event)
    requires s.rx == t.rx
    ensures U.Advanced(s, Seen(t, e)).rx == L.Advanced(t, e.cause).rx
  {
  }

  lemma NextTracking(c: Setup, run: seq<Event>, k: nat)
    requires k < |run|
    ensures TrackingAt(c, run, k + 1) == L.Advanced(TrackingAt(c, run, k), run[k].cause)
  {
  }

  lemma NextJoint(c: Setup, run: seq<Event>, k: nat)
    requires k < |run|
    ensures JointAt(c, run, k + 1) == U.Advanced(JointAt(c, run, k), Seen(TrackingAt(c, run, k), run[k]))
  {
  }

  lemma OneReceiverAfter(c: Setup, run: seq<Event>, k: nat)
    requires k < |run| && JointAt(c, run, k).rx == TrackingAt(c, run, k).rx
    ensures JointAt(c, run, k + 1).rx == TrackingAt(c, run, k + 1).rx
  {
    NextTracking(c, run, k);
    NextJoint(c, run, k);
    SeesTheSame(TrackingAt(c, run, k), JointAt(c, run, k), run[k]);
  }

  /** Both see the same receiver, all along. */
  lemma {:induction false} OneReceiver(c: Setup, run: seq<Event>, k: nat)
    requires k <= |run|
    ensures JointAt(c, run, k).rx == TrackingAt(c, run, k).rx
  {
    if k > 0 {
      var last: nat := k - 1;
      OneReceiver(c, run, last);
      OneReceiverAfter(c, run, last);
    }
  }

  // ---- Who is lost, and who is dropped ----

  /** The sources that event `k` reports lost. */
  ghost function LostAt(c: Setup, run: seq<Event>, k: nat): seq<Handle>
    requires k < |run|
  {
    Handles(L.Report(TrackingAt(c, run, k), run[k].cause))
  }

  /** Tick `k` erases a source still waiting for PAP whose other data was notified. */
  ghost predicate ErasesNotified(c: Setup, run: seq<Event>, k: nat)
    requires k < |run|
  {
    run[k].cause.Ticked? && exists h :: h in run[k].cause.lists.toErase && h in JointAt(c, run, k).notified
  }

  ghost predicate NobodyErased(c: Setup, run: seq<Event>, k: nat)
    requires k <= |run|
  {
    forall j | 0 <= j < k :: !ErasesNotified(c, run, j)
  }

  lemma TrackedUntilLost(c: Setup, run: seq<Event>, k: nat)
    requires PossibleRun(c, run) && k < |run|
    ensures L.Possible(TrackingAt(c, run, k), run[k].cause) && L.HoldsTracked(TrackingAt(c, run, k))
    ensures U.Distinct(LostAt(c, run, k))
  {
    assert L.PossibleAt(FirstTracking(c), Causes(run), k);
    L.RunKeepsTracked(FirstTracking(c), Causes(run), k);
    L.LostSourcesWereTracked(M.Settings(true, c.config.sourceCountMax), c.now, c.listed, Causes(run), k);
  }

  /** The lists settle who is dropped: nobody listed there is reported lost. */
  lemma DroppedAreErased(t: L.Tracking, e: L.Event, h: Handle)
    requires L.HoldsTracked(t) && L.Possible(t, e) && e.Ticked?
    ensures U.IsDropped(t.rx, L.ReceiverEvent(t, e), h) <==> h in e.lists.toErase
  {
    L.TickKeepsTracked(t, e);
    if h in e.lists.toErase && h in Handles(L.Report(t, e)) {
      ErasedAreNotHeld(t, e, h);
    }
  }

  lemma ErasedAreNotHeld(t: L.Tracking, e: L.Event, h: Handle)
    requires L.HoldsTracked(t) && L.Possible(t, e) && e.Ticked? && h in e.lists.toErase
    ensures h !in Handles(L.Report(t, e))
  {
    var judged := SourceLoss.Judged(t.sets, e.lists, e.now, e.wait);
    SourceLoss.JudgedExactly(t.sets, e.lists, e.now, e.wait);
    SourceLoss.UnsettledExactly(judged, e.now);
    assert Classify(t.rx.sources[h], e.now) == Erased && t.rx.sources[h].state == WaitingForPap;
  }

  lemma DropsWhenErased(c: Setup, run: seq<Event>, k: nat)
    requires PossibleRun(c, run) && k < |run|
    ensures U.DropsSilently(JointAt(c, run, k), SeenRun(c, run)[k]) <==> ErasesNotified(c, run, k)
  {
    OneReceiver(c, run, k);
    TrackedUntilLost(c, run, k);
    if run[k].cause.Ticked? {
      forall h: Handle ensures U.IsDropped(JointAt(c, run, k).rx, SeenRun(c, run)[k].cause, h)
        <==> h in run[k].cause.lists.toErase
      {
        DroppedAreErased(TrackingAt(c, run, k), run[k].cause, h);
      }
    }
  }

  lemma NobodyDroppedIff(c: Setup, run: seq<Event>, k: nat)
    requires PossibleRun(c, run) && k <= |run|
    ensures U.NobodyDropped(FirstJoint(c), SeenRun(c, run), k) <==> NobodyErased(c, run, k)
  {
    forall j | 0 <= j < k
      ensures U.DroppingNobody()(JointAt(c, run, j), SeenRun(c, run)[j]) <==> !ErasesNotified(c, run, j)
    {
      DropsWhenErased(c, run, j);
    }
  }

  /**
   With the sources lost as the termination sets report them: the merge receiver knows exactly the notified sources
   still tracked, all along a run, if and only if no tick has erased a notified source.
   */
  lemma KnowsTheNotifiedIff(c: Setup, run: seq<Event>, k: nat)
    requires PossibleRun(c, run) && k <= |run|
    ensures U.AgreeUpTo(FirstJoint(c), SeenRun(c, run), k) <==> NobodyErased(c, run, k)
  {
    NobodyDroppedIff(c, run, k);
    U.MergeReceiverKnowsTheNotifiedIff(c.now, c.listed, c.config, c.usePap, SeenRun(c, run), k);
  }

  // ---- The assertions ----

  /** The event names as lost, or as having lost its PAP, a source that no data was notified of. */
  ghost predicate NamesUnnotified(c: Setup, run: seq<Event>, k: nat)
    requires k < |run|
  {
    || (exists h :: h in LostAt(c, run, k) && h !in JointAt(c, run, k).notified)
    || (LosesPap(c, run, k) && JointAt(c, run, k).merge.usePap
        && run[k].cause.event.handle !in JointAt(c, run, k).notified)
  }

  ghost predicate LosesPap(c: Setup, run: seq<Event>, k: nat)
    requires k < |run|
  {
    run[k].cause.Other? && run[k].cause.event.Data? && M.Step(TrackingAt(c, run, k).rx, run[k].cause.event).1.papLost
  }

  /**
   As long as no tick has erased a notified source, the merge receiver finds every source that the callbacks of an
   event name, exactly when data of each of them had been notified. No report names a source twice.
   */
  lemma NamedSourcesAreFoundIff(c: Setup, run: seq<Event>, k: nat)
    requires PossibleRun(c, run) && k < |run| && NobodyErased(c, run, k)
    ensures U.AssertionsHold(JointAt(c, run, k), SeenRun(c, run)[k]) <==> !NamesUnnotified(c, run, k)
  {
    NobodyDroppedIff(c, run, k);
    U.NamedSourcesAreFoundIff(c.now, c.listed, c.config, c.usePap, SeenRun(c, run), k, SeenRun(c, run)[k]);
    OneReceiver(c, run, k);
    TrackedUntilLost(c, run, k);
  }

  // ---- Who leaves the merge receiver ----

  /** The event notifies data of the source. */
  predicate Notifies(t: L.Tracking, e: Event, h: Handle) {
    && e.cause.Other? && e.cause.event.Data? && e.cause.event.handle == h
    && M.Step(t.rx, e.cause.event).1.data
  }

  /** The event neither reports the source lost nor changes the universe with every known source in a merger. */
  ghost predicate Keeps(t: L.Tracking, s: U.State, e: Event, h: Handle) {
    && h !in Handles(L.Report(t, e.cause))
    && !(e.cause.Other? && e.cause.event.UniverseChange? && P.Refused(s.merge) == {})
  }

  ghost predicate NotifiesAt(c: Setup, run: seq<Event>, k: nat, h: Handle)
    requires k < |run|
  {
    Notifies(TrackingAt(c, run, k), run[k], h)
  }

  ghost predicate KeepsAt(c: Setup, run: seq<Event>, k: nat, h: Handle)
    requires k < |run|
  {
    Keeps(TrackingAt(c, run, k), JointAt(c, run, k), run[k], h)
  }

  lemma StaysPlaced(s: U.State, e: U.Event)
    requires P.Placed(s.merge)
    ensures P.Placed(U.Advanced(s, e).merge)
  {
    Refusals.RunKeepsPlaced(s.merge, U.Callbacks(e, M.Step(s.rx, e.cause).1));
  }

  lemma FirstIsPlaced(c: Setup)
    ensures P.Placed(FirstJoint(c).merge)
  {
    U.CreatedInStep(c.now, c.listed, c.config, c.usePap);
    P.SoundIffNobodyRefused(FirstJoint(c).merge);
  }

  ghost function BeingPlaced(): U.State -> bool {
    (s: U.State) => P.Placed(s.merge)
  }

  lemma PlacedInRuns(s: U.State, seen: seq<U.Event>, k: nat)
    requires BeingPlaced()(s) && k <= |seen|
    ensures BeingPlaced()(U.Before(s, seen, k))
  {
    forall s: U.State, e: U.Event | BeingPlaced()(s) ensures BeingPlaced()(U.Advanced(s, e)) {
      StaysPlaced(s, e);
    }
    assert Runs.IsInvariant(U.Advanced, BeingPlaced(), U.Anything());
    Runs.InvariantHolds(U.Advanced, s, seen, BeingPlaced(), U.Anything(), k);
  }

  lemma PlacedAt(c: Setup, run: seq<Event>, k: nat)
    requires k <= |run|
    ensures P.Placed(JointAt(c, run, k).merge)
  {
    FirstIsPlaced(c);
    PlacedInRuns(FirstJoint(c), SeenRun(c, run), k);
    assert BeingPlaced()(JointAt(c, run, k));
  }

  lemma ClearedKeys(merge: G.Receiver, universe: nat, after: G.Receiver)
    requires P.Placed(merge) && G.MIN_UNIVERSE <= universe <= G.MAX_UNIVERSE
    requires after == G.MoveToUniverse(merge, universe, Ok).0
    ensures after.sources.Keys == if P.Refused(merge) == {} then {} else merge.sources.Keys
  {
    P.UniverseChangeClearsEverythingIff(merge, universe, Ok);
  }

  lemma OnlyUniverseCallback(s: U.State, e: U.Event)
    requires e.cause.UniverseChange?
    ensures U.Advanced(s, e).merge == G.MoveToUniverse(s.merge, e.universe, Ok).0
  {
    U.OneCallback(s.merge, G.ChangeUniverse(e.universe, Ok));
  }

  lemma UniverseChangeLeaves(s: U.State, e: U.Event)
    requires P.Placed(s.merge) && e.cause.UniverseChange?
    ensures U.Advanced(s, e).merge.sources.Keys == if P.Refused(s.merge) == {} then {} else s.merge.sources.Keys
  {
    OnlyUniverseCallback(s, e);
    ClearedKeys(s.merge, e.universe, U.Advanced(s, e).merge);
  }

  /** Which sources the merge receiver knows after an event, room or not. */
  lemma SourcesAfter(s: U.State, e: U.Event)
    requires P.Placed(s.merge)
    ensures U.Advanced(s, e).merge.sources.Keys == match e.cause
      case Data(_, h, _, _) => s.merge.sources.Keys + (if M.Step(s.rx, e.cause).1.data then {h} else {})
      case Tick(_, lost) => s.merge.sources.Keys - M.HandleSet(lost)
      case NetworkReset(_, _, _) => s.merge.sources.Keys
      case UniverseChange(_) => if P.Refused(s.merge) == {} then {} else s.merge.sources.Keys
  {
    match e.cause
    case Data(_, _, _, _) => U.DataLeaves(s, e);
    case Tick(_, _) => U.TickLeaves(s, e);
    case NetworkReset(_, _, _) => U.ResetLeaves(s, e);
    case UniverseChange(_) => UniverseChangeLeaves(s, e);
  }

  /** The merge receiver knows the source before event `k`. */
  ghost predicate KnownAt(c: Setup, run: seq<Event>, k: nat, h: Handle)
    requires k <= |run|
  {
    h in JointAt(c, run, k).merge.sources
  }

  lemma KnownAfterOne(t: L.Tracking, s: U.State, e: Event, h: Handle)
    requires P.Placed(s.merge) && s.rx == t.rx
    ensures h in U.Advanced(s, Seen(t, e)).merge.sources <==>
      (h in s.merge.sources && Keeps(t, s, e, h)) || Notifies(t, e, h)
  {
    SourcesAfter(s, Seen(t, e));
  }

  lemma KnownAfter(c: Setup, run: seq<Event>, k: nat, h: Handle)
    requires k < |run|
    ensures KnownAt(c, run, k + 1, h) <==>
      (KnownAt(c, run, k, h) && KeepsAt(c, run, k, h)) || NotifiesAt(c, run, k, h)
  {
    PlacedAt(c, run, k);
    OneReceiver(c, run, k);
    NextJoint(c, run, k);
    KnownAfterOne(TrackingAt(c, run, k), JointAt(c, run, k), run[k], h);
  }

  /** Event `m` notified data of the source, and no event since then has made the merge receiver forget it. */
  ghost predicate KnownSince(c: Setup, run: seq<Event>, k: nat, h: Handle, m: nat)
    requires k <= |run|
  {
    m < k && NotifiesAt(c, run, m, h) && forall j | m < j < k :: KeepsAt(c, run, j, h)
  }

  ghost predicate WasKept(c: Setup, run: seq<Event>, k: nat, h: Handle)
    requires k <= |run|
  {
    exists m: nat :: KnownSince(c, run, k, h, m)
  }

  lemma KeptBefore(c: Setup, run: seq<Event>, k: nat, h: Handle, m: nat)
    requires k < |run| && KnownSince(c, run, k + 1, h, m)
    ensures if m == k then NotifiesAt(c, run, k, h) else KnownSince(c, run, k, h, m) && KeepsAt(c, run, k, h)
  {
  }

  lemma KeptAfter(c: Setup, run: seq<Event>, k: nat, h: Handle, m: nat)
    requires k < |run| && KnownSince(c, run, k, h, m) && KeepsAt(c, run, k, h)
    ensures KnownSince(c, run, k + 1, h, m)
  {
    forall j | m < j < k + 1 ensures KeepsAt(c, run, j, h) {
      assert j == k || KeepsAt(c, run, j, h);
    }
  }

  lemma NotifiedJustNow(c: Setup, run: seq<Event>, k: nat, h: Handle)
    requires k < |run| && NotifiesAt(c, run, k, h)
    ensures KnownSince(c, run, k + 1, h, k)
  {
  }

  lemma WasKeptOneLonger(c: Setup, run: seq<Event>, k: nat, after: nat, h: Handle)
    requires k < |run| && after == k + 1
    ensures WasKept(c, run, after, h) <==> (WasKept(c, run, k, h) && KeepsAt(c, run, k, h)) || NotifiesAt(c, run, k, h)
  {
    if m: nat :| KnownSince(c, run, after, h, m) {
      KeptBefore(c, run, k, h, m);
    }
    if NotifiesAt(c, run, k, h) {
      NotifiedJustNow(c, run, k, h);
    } else if WasKept(c, run, k, h) && KeepsAt(c, run, k, h) {
      var m: nat :| KnownSince(c, run, k, h, m);
      KeptAfter(c, run, k, h, m);
    }
  }

  /**
   In every run, the merge receiver knows a source exactly when data of it was notified and, since then, the
   termination sets have not reported it lost and no universe change went through.
   */
  lemma {:induction false} KnownUntilLostIff(c: Setup, run: seq<Event>, k: nat, h: Handle)
    requires k <= |run|
    ensures KnownAt(c, run, k, h) <==> WasKept(c, run, k, h)
  {
    if k > 0 {
      var last: nat := k - 1;
      KnownUntilLostIff(c, run, last, h);
      KnownAfter(c, run, last, h);
      WasKeptOneLonger(c, run, last, k, h);
    }
  }

  // ---- The outputs ----

  /**
   As long as no tick has erased a notified source, the merge receiver remembers exactly what was notified of every
   source it knows if and only if nothing was lost on the way into the mergers; and then each live slot is the
   from-scratch merge of the last notified levels, priorities and PAP of the sources outside sampling.
   */
  lemma OutputsMergeTheNotifiedIff(c: Setup, run: seq<Event>, k: nat)
    requires PossibleRun(c, run) && k <= |run| && NobodyErased(c, run, k)
    ensures var s, seen := FirstJoint(c), SeenRun(c, run);
      && (O.RemembersUpTo(s, seen, k) <==> O.CarriedUpTo(s, seen, k))
      && (O.CarriedUpTo(s, seen, k) ==> N.MergesTold(O.HeardAt(s, seen, k)))
  {
    NobodyDroppedIff(c, run, k);
    O.OutputsMergeTheNotifiedIff(c.now, c.listed, c.config, c.usePap, SeenRun(c, run), k);
  }

  /** Before event `k`, no network reset and no packet from an interface that the receiver does not use. */
  ghost predicate PlainRun(c: Setup, run: seq<Event>, k: nat)
    requires k <= |run|
  {
    forall j | 0 <= j < k :: PlainAt(c, run, j)
  }

  ghost predicate PlainAt(c: Setup, run: seq<Event>, k: nat)
    requires k < |run|
  {
    run[k].cause.Other? ==> Routing.Plain(TrackingAt(c, run, k).rx, run[k].cause.event)
  }

  lemma SeenIsPlain(c: Setup, run: seq<Event>, k: nat)
    requires PossibleRun(c, run) && k <= |run| && NobodyErased(c, run, k) && PlainRun(c, run, k)
    ensures Routing.PlainUpTo(FirstJoint(c), SeenRun(c, run), k)
  {
    forall j | 0 <= j < k ensures Routing.BeingPlain()(JointAt(c, run, j), SeenRun(c, run)[j]) {
      DropsWhenErased(c, run, j);
      OneReceiver(c, run, j);
      assert !ErasesNotified(c, run, j) && PlainAt(c, run, j);
    }
  }

  /**
   Without network resets and foreign packets, and as long as no tick has erased a notified source, the merge receiver
   forgets nothing if and only if no sampling period ended with a source in it whose PAP reached beyond its levels.
   */
  lemma OnlyPapIsForgottenIff(c: Setup, run: seq<Event>, k: nat)
    requires PossibleRun(c, run) && k <= |run| && NobodyErased(c, run, k) && PlainRun(c, run, k)
    ensures var s, seen := FirstJoint(c), SeenRun(c, run);
      && (O.RemembersUpTo(s, seen, k) <==> Routing.NothingCutOffUpTo(s, seen, k))
      && (Routing.NothingCutOffUpTo(s, seen, k) ==> N.MergesTold(O.HeardAt(s, seen, k)))
  {
    SeenIsPlain(c, run, k);
    Routing.OnlyPapIsForgottenIff(c.now, c.listed, c.config, c.usePap, SeenRun(c, run), k);
  }

  // ---- A source that was never notified ----

  const SETUP := Setup(0, [Interface(U.HERE, true)], U.ONE_SOURCE, true)

  const PREVIEW_OF_1 := M.Data(2000, 1, U.HERE, Packet(STARTCODE_PRIORITY, 0, true, false))
  const ONLY_1 := Lists([OfflineSource(1, false)], [], [], [])

  function Ticked(now: nat, lists: Lists): Event {
    Input(L.Ticked(now, 0, lists), 0, [], 0)
  }

  /** One period without sources, then one preview PAP packet, then silence. */
  const PREVIEW_RUN: seq<Event> :=
    [Ticked(100, EMPTY), Ticked(1600, EMPTY), Input(L.Other(PREVIEW_OF_1), 100, [100], 0), Ticked(5000, ONLY_1)]

  const PREVIEWED := NewSource(U.HERE, PREVIEW_OF_1.packet, false, 2000)

  ghost const ALONE := U.SETTLED.rx.(sources := map[1 := PREVIEWED])

  lemma PreviewIsTracked()
    ensures M.Step(U.SETTLED.rx, PREVIEW_OF_1) == (ALONE, M.NOTHING)
  {
    var nobody: map<Handle, Source> := map[];
    assert nobody[1 := PREVIEWED] == map[1 := PREVIEWED];
  }

  lemma NothingListed(t: L.Tracking, now: nat)
    requires t.sets == []
    ensures L.Report(t, L.Ticked(now, 0, EMPTY)) == [] && L.Advanced(t, L.Ticked(now, 0, EMPTY)).sets == []
  {
    var none: seq<SourceLoss.TermSet> := [];
    assert SourceLoss.Judged(none, EMPTY, now, 0) == none;
  }

  /** No set is opened before the last tick. */
  lemma NoSetsYet(k: nat)
    requires k <= 3
    ensures TrackingAt(SETUP, PREVIEW_RUN, k).sets == []
    ensures k < 2 ==> LostAt(SETUP, PREVIEW_RUN, k) == []
  {
    if k > 0 {
      var last: nat := k - 1;
      NoSetsYet(last);
      NextTracking(SETUP, PREVIEW_RUN, last);
      if last < 2 {
        NothingListed(TrackingAt(SETUP, PREVIEW_RUN, last), PREVIEW_RUN[last].cause.now);
      }
    }
    if k < 2 {
      NothingListed(TrackingAt(SETUP, PREVIEW_RUN, k), PREVIEW_RUN[k].cause.now);
    }
  }

  lemma SettledBefore()
    ensures JointAt(SETUP, PREVIEW_RUN, 2) == U.SETTLED
  {
    var run := [U.Ticked(100), U.Ticked(1600)];
    NoSetsYet(0);
    NoSetsYet(1);
    NextJoint(SETUP, PREVIEW_RUN, 0);
    NextJoint(SETUP, PREVIEW_RUN, 1);
    assert Seen(TrackingAt(SETUP, PREVIEW_RUN, 0), PREVIEW_RUN[0]) == run[0];
    assert Seen(TrackingAt(SETUP, PREVIEW_RUN, 1), PREVIEW_RUN[1]) == run[1];
    assert U.Before(FirstJoint(SETUP), run, 1) == U.Advanced(FirstJoint(SETUP), run[0]);
    U.SettledIsReached();
  }

  lemma PreviewedBefore()
    ensures JointAt(SETUP, PREVIEW_RUN, 3) == U.Joint(ALONE, U.SETTLED.merge, {})
  {
    SettledBefore();
    PreviewIsTracked();
    NextJoint(SETUP, PREVIEW_RUN, 2);
    U.QuietStep(U.SETTLED, Seen(TrackingAt(SETUP, PREVIEW_RUN, 2), PREVIEW_RUN[2]), ALONE);
  }

  lemma OnlyOneIsListed()
    ensures Sorted(ONLY_1, map[1 := PREVIEWED], 5000, 0x10000)
  {
    assert Handles(ONLY_1.offline) == [1];
    assert Classify(PREVIEWED, 5000) == Offline(false);
  }

  lemma ReportedAtLast()
    ensures LostAt(SETUP, PREVIEW_RUN, 3) == [1]
  {
    NoSetsYet(3);
    SourceLoss.LoneLoss(OfflineSource(1, false), 5000);
  }

  lemma PossibleEmpty(k: nat)
    requires k < 2 && TrackingAt(SETUP, PREVIEW_RUN, k).rx.sources == map[]
    ensures L.PossibleAt(FirstTracking(SETUP), Causes(PREVIEW_RUN), k)
  {
    NobodyIsListed(PREVIEW_RUN[k].cause.now);
  }

  lemma PossiblePreview()
    ensures L.PossibleAt(FirstTracking(SETUP), Causes(PREVIEW_RUN), 2)
  {
  }

  lemma PossibleLoss()
    ensures L.PossibleAt(FirstTracking(SETUP), Causes(PREVIEW_RUN), 3)
  {
    OneReceiver(SETUP, PREVIEW_RUN, 3);
    PreviewedBefore();
    OnlyOneIsListed();
  }

  lemma FirstTwoFindNobody()
    ensures TrackingAt(SETUP, PREVIEW_RUN, 0).rx.sources == map[]
    ensures TrackingAt(SETUP, PREVIEW_RUN, 1).rx.sources == map[]
  {
    NextTracking(SETUP, PREVIEW_RUN, 0);
  }

  lemma PreviewRunIsPossible()
    ensures PossibleRun(SETUP, PREVIEW_RUN)
  {
    FirstTwoFindNobody();
    PossiblePreview();
    PossibleLoss();
    forall k | 0 <= k < 4 ensures L.PossibleAt(FirstTracking(SETUP), Causes(PREVIEW_RUN), k) {
      if k < 2 {
        PossibleEmpty(k);
      }
    }
  }

  lemma NobodyIsErased()
    ensures NobodyErased(SETUP, PREVIEW_RUN, 3)
  {
    forall j | 0 <= j < 3 ensures !ErasesNotified(SETUP, PREVIEW_RUN, j) {
      assert j < 2 ==> PREVIEW_RUN[j].cause.lists.toErase == [];
    }
  }

  lemma NobodyIsListed(now: nat)
    ensures Sorted(EMPTY, map[], now, 0x10000)
  {
    assert Handles(EMPTY.offline) == [];
  }

  lemma PreviewIsUnknown()
    ensures 1 in TrackingAt(SETUP, PREVIEW_RUN, 3).rx.sources && 1 !in JointAt(SETUP, PREVIEW_RUN, 3).merge.sources
    ensures NamesUnnotified(SETUP, PREVIEW_RUN, 3)
  {
    PreviewedBefore();
    ReportedAtLast();
    OneReceiver(SETUP, PREVIEW_RUN, 3);
    assert 1 in LostAt(SETUP, PREVIEW_RUN, 3);
  }

  /**
   A possible run of receiver, termination sets and merge receiver, from their creation: a source that only sends
   preview PAP is tracked but never notified, and then reported lost by the termination sets, which names a source
   that the merge receiver does not know.
   */
  lemma UnnoticedSourceIsLost()
    ensures PossibleRun(SETUP, PREVIEW_RUN) && NobodyErased(SETUP, PREVIEW_RUN, 3)
    ensures LostAt(SETUP, PREVIEW_RUN, 3) == [1]
    ensures 1 in TrackingAt(SETUP, PREVIEW_RUN, 3).rx.sources && 1 !in JointAt(SETUP, PREVIEW_RUN, 3).merge.sources
    ensures !U.AssertionsHold(JointAt(SETUP, PREVIEW_RUN, 3), SeenRun(SETUP, PREVIEW_RUN)[3])
  {
    PreviewRunIsPossible();
    NobodyIsErased();
    ReportedAtLast();
    PreviewIsUnknown();
    NamedSourcesAreFoundIff(SETUP, PREVIEW_RUN, 3);
  }
}
