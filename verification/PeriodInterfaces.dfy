/** Which interfaces take part in a receiver's sampling periods, over every run of packets, ticks and changes. */
module PeriodInterfaces {
  import opened Common
  import opened Interfaces
  import opened SourceTracking
  import opened ReceiverModel
  import S = SamplingPeriod
  import Runs

  /** Every interface of the period, current or pending, is one that the receiver uses. */
  ghost predicate InUse(rx: Receiver) {
    forall n | n in rx.sampling.netints :: n in rx.netints
  }

  /** Without a period there are no interfaces in one. */
  ghost predicate NoneWithoutPeriod(rx: Receiver) {
    !rx.sampling.active ==> rx.sampling.netints == map[]
  }

  /** The list that a network reset applies, if it goes through. */
  predicate Applies(e: Event, used: seq<Interface>) {
    e.NetworkReset? &&
    if e.noNetints then used == []
    else used == e.listed && exists i :: 0 <= i < |e.listed| && e.listed[i].usable
  }

  /** The interface is on the list, but every entry for it is unusable. */
  predicate OnlyUnusable(used: seq<Interface>, n: Netint) {
    (exists i :: 0 <= i < |used| && used[i].netint == n)
    && forall i | 0 <= i < |used| && used[i].netint == n :: !used[i].usable
  }

  /** The reset lists no interface of a running period as unusable. */
  ghost predicate DropsAll(rx: Receiver, e: Event) {
    forall used: seq<Interface> | Applies(e, used) && rx.sampling.active ::
      forall n | n in rx.sampling.netints :: !OnlyUnusable(used, n)
  }

  lemma ResetApplies(rx: Receiver, now: nat, listed: seq<Interface>, noNetints: bool) returns (used: seq<Interface>)
    requires ResetOutcome(listed, noNetints) == Ok
    ensures Applies(NetworkReset(now, listed, noNetints), used)
    ensures forall other | Applies(NetworkReset(now, listed, noNetints), other) :: other == used
    ensures ResetNetworking(rx, now, listed, noNetints) == WithInterfaces(rx, now, used)
  {
    NothingUsable(listed);
    used := if noNetints then [] else listed;
  }

  lemma UnusableIsNotUsed(used: seq<Interface>, n: Netint)
    ensures n in Usable(used) || Lists(used, n) <==> n in Usable(used) || OnlyUnusable(used, n)
    ensures n in Usable(used) ==> Lists(used, n) && !OnlyUnusable(used, n)
    ensures n in Usable(used) <==> exists i :: 0 <= i < |used| && used[i].usable && used[i].netint == n
  {
    UsableExactly(used);
    if n in Usable(used) {
      var i :| 0 <= i < |used| && used[i] == Interface(n, true);
      assert used[i].netint == n && used[i].usable;
    }
    if i :| 0 <= i < |used| && used[i].netint == n && used[i].usable {
      assert used[i] == Interface(n, true);
    }
  }

  /** After an applied reset, exactly these interfaces are in the period. */
  lemma InPeriodAfterReset(rx: Receiver, now: nat, used: seq<Interface>, n: Netint)
    ensures n in WithInterfaces(rx, now, used).sampling.netints <==>
      || (n in rx.sampling.netints && !(rx.sampling.active && n in rx.netints && !Lists(used, n)))
      || (n in Usable(used) && n !in rx.netints)
  {
    UnusableIsNotUsed(used, n);
  }

  lemma ResetStaysInUseIff(rx: Receiver, now: nat, used: seq<Interface>)
    requires InUse(rx) && NoneWithoutPeriod(rx)
    ensures InUse(WithInterfaces(rx, now, used)) <==>
      (rx.sampling.active ==> forall n | n in rx.sampling.netints :: !OnlyUnusable(used, n))
    ensures WithInterfaces(rx, now, used).sampling.active
  {
    var after := WithInterfaces(rx, now, used);
    forall n ensures n in after.sampling.netints && n !in after.netints <==>
      rx.sampling.active && n in rx.sampling.netints && OnlyUnusable(used, n)
    {
      InPeriodAfterReset(rx, now, used, n);
      UnusableIsNotUsed(used, n);
    }
  }

  lemma OthersStayInUse(rx: Receiver, e: Event)
    requires InUse(rx) && NoneWithoutPeriod(rx) && !e.NetworkReset?
    ensures InUse(Step(rx, e).0) && NoneWithoutPeriod(Step(rx, e).0)
  {
    if e.UniverseChange? {
      assert forall n | n in Step(rx, e).0.sampling.netints :: n in rx.netints;
    }
  }

  ghost predicate Orderly(rx: Receiver) {
    InUse(rx) && NoneWithoutPeriod(rx)
  }

  lemma StepStaysInUseIff(rx: Receiver, e: Event)
    requires Orderly(rx)
    ensures InUse(Step(rx, e).0) <==> DropsAll(rx, e)
    ensures InUse(Step(rx, e).0) ==> Orderly(Step(rx, e).0)
  {
    if e.NetworkReset? {
      if ResetOutcome(e.listed, e.noNetints) == Ok {
        var used := ResetApplies(rx, e.now, e.listed, e.noNetints);
        ResetStaysInUseIff(rx, e.now, used);
      } else {
        NothingUsable(e.listed);
      }
    } else {
      OthersStayInUse(rx, e);
    }
  }

  // ---- Runs ----

  ghost function Steps(): (Receiver, Event) -> Receiver {
    (rx: Receiver, e: Event) => Step(rx, e).0
  }

  ghost function UsesThem(): Receiver -> bool {
    (rx: Receiver) => InUse(rx)
  }

  ghost function IsOrderly(): Receiver -> bool {
    (rx: Receiver) => Orderly(rx)
  }

  ghost function DropsThem(): (Receiver, Event) -> bool {
    (rx: Receiver, e: Event) => DropsAll(rx, e)
  }

  /** The receiver before event `k` of a run. */
  ghost function StateBefore(rx: Receiver, run: seq<Event>, k: nat): Receiver
    requires k <= |run|
  {
    Runs.StateAt(Steps(), rx, run, k)
  }

  lemma InUseWhileDropping(rx: Receiver, run: seq<Event>, k: nat)
    requires k <= |run| && Orderly(rx)
    ensures Runs.HoldsUpTo(Steps(), rx, run, UsesThem(), k) <==> Runs.FineUpTo(Steps(), rx, run, DropsThem(), k)
  {
    forall s: Receiver, e: Event | Orderly(s)
      ensures InUse(Step(s, e).0) <==> DropsAll(s, e)
      ensures DropsAll(s, e) ==> Orderly(Step(s, e).0)
    {
      StepStaysInUseIff(s, e);
    }
    Runs.GoodWhileFine(Steps(), rx, run, IsOrderly(), UsesThem(), DropsThem(), k);
  }

  lemma CreatedIsOrderly(settings: Settings, now: nat, listed: seq<Interface>)
    ensures Orderly(Created(settings, now, listed))
  {
  }

  /**
   Over every run of a receiver from its creation, only interfaces that it uses are in its sampling periods, pending
   ones included, exactly as long as no reset lists an interface of the running period as unusable: the interfaces to
   drop are told from the list alone, without asking whether they can be used.
   */
  lemma PeriodsUseOnlyUsedInterfacesIff(settings: Settings, now: nat, listed: seq<Interface>, run: seq<Event>)
    ensures var rx := Created(settings, now, listed);
      Runs.HoldsUpTo(Steps(), rx, run, UsesThem(), |run|) <==> Runs.FineUpTo(Steps(), rx, run, DropsThem(), |run|)
  {
    CreatedIsOrderly(settings, now, listed);
    InUseWhileDropping(Created(settings, now, listed), run, |run|);
  }

  lemma UsableListDropsAll(rx: Receiver, e: Event)
    requires e.NetworkReset? ==> forall i | 0 <= i < |e.listed| :: e.listed[i].usable
    ensures DropsAll(rx, e)
  {
  }

  /** Lists of usable interfaces only: then every interface of a period is used, in every run. */
  lemma UsableListsDropInterfaces(settings: Settings, now: nat, listed: seq<Interface>, run: seq<Event>, k: nat)
    requires k <= |run|
    requires forall j, i | 0 <= j < |run| && run[j].NetworkReset? && 0 <= i < |run[j].listed| :: run[j].listed[i].usable
    ensures InUse(StateBefore(Created(settings, now, listed), run, k))
  {
    var rx := Created(settings, now, listed);
    forall j | 0 <= j < |run| ensures DropsAll(StateBefore(rx, run, j), run[j]) {
      UsableListDropsAll(StateBefore(rx, run, j), run[j]);
    }
    PeriodsUseOnlyUsedInterfacesIff(settings, now, listed, run);
    assert UsesThem()(StateBefore(rx, run, k));
  }

  /** So a tick that ends a period starts the next one only for interfaces that are used. */
  lemma NextPeriodNeedsAUsedInterface(settings: Settings, now: nat, listed: seq<Interface>, run: seq<Event>, k: nat)
    requires k < |run| && run[k].Tick?
    requires forall j, i | 0 <= j < |run| && run[j].NetworkReset? && 0 <= i < |run[j].listed| :: run[j].listed[i].usable
    ensures var rx := StateBefore(Created(settings, now, listed), run, k);
      rx.sampling.notifiedStarted && S.Started in Step(rx, run[k]).1.notices ==>
        exists n :: n in rx.sampling.netints && rx.sampling.netints[n] && n in rx.netints
  {
    var rx := StateBefore(Created(settings, now, listed), run, k);
    UsableListsDropInterfaces(settings, now, listed, run, k);
    if rx.sampling.active && Expired(rx.sampling.timer, run[k].now) {
      S.EndingStartsThePendingPeriod(rx.sampling, run[k].now);
    }
  }

  const A := Netint(4, 1)
  const B := Netint(4, 2)

  /** An interface listed as unusable is used no longer, but stays in the running period. */
  lemma UnusableInterfaceStaysInThePeriod(settings: Settings)
    ensures var rx := Created(settings, 0, [Interface(A, true)]);
      var after := Step(rx, NetworkReset(100, [Interface(A, false), Interface(B, true)], false)).0;
      InUse(rx) && A in after.sampling.netints && A !in after.netints
  {
    var rx, used := Created(settings, 0, [Interface(A, true)]), [Interface(A, false), Interface(B, true)];
    CreatedIsOrderly(settings, 0, [Interface(A, true)]);
    UsableExactly([Interface(A, true)]);
    assert Interface(A, true) in [Interface(A, true)];
    assert used[1].usable;
    NothingUsable(used);
    UnusableIsNotUsed(used, A);
    assert Lists(used, A) by {
      assert used[0].netint == A;
    }
    InPeriodAfterReset(rx, 100, used, A);
  }

  // ---- Pending interfaces ----

  ghost function IsPending(n: Netint): Receiver -> bool {
    (rx: Receiver) => n in rx.sampling.netints && rx.sampling.netints[n]
  }

  ghost function Anything(): Receiver -> bool {
    (rx: Receiver) => true
  }

  /** A reset in a running period lists the interface as usable, and it is neither used nor in the period yet. */
  ghost predicate Queues(rx: Receiver, e: Event, n: Netint) {
    && rx.sampling.active && n !in rx.netints && n !in rx.sampling.netints
    && exists used :: Applies(e, used) && Interface(n, true) in used
  }

  /** The period goes on with the interface: it does not end, the universe stays, no reset drops the interface. */
  ghost predicate StaysQueued(rx: Receiver, e: Event, n: Netint) {
    match e
    case Data(_, _, _, _) => true
    case Tick(now, _) => !(rx.sampling.active && Expired(rx.sampling.timer, now))
    case NetworkReset(_, _, _) =>
      rx.sampling.active && n in rx.netints ==> forall used: seq<Interface> :: Applies(e, used) ==> exists i ::
        0 <= i < |used| && used[i].netint == n
    case UniverseChange(_) => false
  }

  ghost function QueuesIt(n: Netint): (Receiver, Event) -> bool {
    (rx: Receiver, e: Event) => Queues(rx, e, n)
  }

  ghost function StaysIn(n: Netint): (Receiver, Event) -> bool {
    (rx: Receiver, e: Event) => StaysQueued(rx, e, n)
  }

  lemma PendingAfterReset(rx: Receiver, now: nat, used: seq<Interface>, n: Netint)
    ensures IsPending(n)(WithInterfaces(rx, now, used)) <==>
      && (rx.sampling.active && n in rx.netints ==> Lists(used, n))
      && (IsPending(n)(rx)
          || (rx.sampling.active && n !in rx.netints && n !in rx.sampling.netints && n in Usable(used)))
  {
    UnusableIsNotUsed(used, n);
    InPeriodAfterReset(rx, now, used, n);
  }

  lemma PendingStep(rx: Receiver, e: Event, n: Netint)
    ensures IsPending(n)(Step(rx, e).0) <==> StaysQueued(rx, e, n) && (IsPending(n)(rx) || Queues(rx, e, n))
  {
    if e.NetworkReset? {
      if ResetOutcome(e.listed, e.noNetints) == Ok {
        var used := ResetApplies(rx, e.now, e.listed, e.noNetints);
        PendingAfterReset(rx, e.now, used, n);
        UsableExactly(used);
      } else {
        NothingUsable(e.listed);
      }
    }
  }

  /**
   Over every run, an interface is pending for the next period exactly when a reset brought it in during the period that
   is still running, and none has dropped it since.
   */
  lemma PendingIff(settings: Settings, now: nat, listed: seq<Interface>, run: seq<Event>, k: nat, n: Netint)
    requires k <= |run|
    ensures IsPending(n)(StateBefore(Created(settings, now, listed), run, k)) <==>
      Runs.HasHeldSince(Steps(), Created(settings, now, listed), run, QueuesIt(n), StaysIn(n), k)
  {
    forall rx: Receiver, e: Event
      ensures IsPending(n)(Step(rx, e).0) <==> StaysQueued(rx, e, n) && (IsPending(n)(rx) || Queues(rx, e, n))
    {
      PendingStep(rx, e, n);
    }
    assert Runs.Latches(Steps(), Anything(), IsPending(n), QueuesIt(n), StaysIn(n));
    Runs.LatchedMeansHeldSince(Steps(), Created(settings, now, listed), run, Anything(), IsPending(n), QueuesIt(n),
                               StaysIn(n), k);
  }

  // ---- Used and current interfaces ----

  ghost function IsUsed(n: Netint): Receiver -> bool {
    (rx: Receiver) => n in rx.netints
  }

  /** A reset lists the interface as usable. */
  ghost function TakesUp(n: Netint): (Receiver, Event) -> bool {
    (rx: Receiver, e: Event) => exists used :: Applies(e, used) && Interface(n, true) in used
  }

  /** No reset leaves the interface out, or lists it as unusable only. */
  ghost function KeepsUsing(n: Netint): (Receiver, Event) -> bool {
    (rx: Receiver, e: Event) => forall used :: Applies(e, used) ==> Interface(n, true) in used
  }

  lemma UsedStep(rx: Receiver, e: Event, n: Netint)
    ensures IsUsed(n)(Step(rx, e).0) <==> KeepsUsing(n)(rx, e) && (IsUsed(n)(rx) || TakesUp(n)(rx, e))
  {
    if e.NetworkReset? {
      if ResetOutcome(e.listed, e.noNetints) == Ok {
        var used := ResetApplies(rx, e.now, e.listed, e.noNetints);
        UsableExactly(used);
      } else {
        NothingUsable(e.listed);
      }
    }
  }

  /** Over every run, a receiver uses exactly the usable interfaces of the list it was given last. */
  lemma UsedIff(settings: Settings, now: nat, listed: seq<Interface>, run: seq<Event>, k: nat, n: Netint)
    requires k <= |run|
    ensures var created := Created(settings, now, listed);
      n in StateBefore(created, run, k).netints <==>
        || Runs.HasHeldSince(Steps(), created, run, TakesUp(n), KeepsUsing(n), k)
        || (Interface(n, true) in listed && Runs.FineUpTo(Steps(), created, run, KeepsUsing(n), k))
  {
    forall rx: Receiver, e: Event
      ensures IsUsed(n)(Step(rx, e).0) <==> KeepsUsing(n)(rx, e) && (IsUsed(n)(rx) || TakesUp(n)(rx, e))
    {
      UsedStep(rx, e, n);
    }
    assert Runs.Latches(Steps(), Anything(), IsUsed(n), TakesUp(n), KeepsUsing(n));
    Runs.LatchedFromStart(Steps(), Created(settings, now, listed), run, Anything(), IsUsed(n), TakesUp(n),
                          KeepsUsing(n), k);
    UsableExactly(listed);
  }

  ghost function IsCurrent(n: Netint): Receiver -> bool {
    (rx: Receiver) => n in rx.sampling.netints && !rx.sampling.netints[n]
  }

  ghost predicate EndsPeriod(rx: Receiver, e: Event) {
    e.Tick? && rx.sampling.active && e.now > rx.sampling.timer.start + rx.sampling.timer.interval
  }

  ghost predicate TimerRuns(rx: Receiver) {
    rx.sampling.active ==> rx.sampling.timer.interval > 0
  }

  ghost function IsRight(): Receiver -> bool {
    (rx: Receiver) => NoneWithoutPeriod(rx) && TimerRuns(rx)
  }

  /**
   The interface joins the period: a reset takes it up while none is running, the period for which it was pending
   begins, or the universe changes while it is used.
   */
  ghost function JoinsPeriod(n: Netint): (Receiver, Event) -> bool {
    (rx: Receiver, e: Event) =>
      match e
      case Data(_, _, _, _) => false
      case Tick(_, _) => EndsPeriod(rx, e) && IsPending(n)(rx)
      case NetworkReset(_, _, _) =>
        !rx.sampling.active && n !in rx.netints && exists used :: Applies(e, used) && Interface(n, true) in used
      case UniverseChange(_) => n in rx.netints
  }

  /** The period does not end before the interface joins, no reset drops it, and it is used if the universe changes. */
  ghost function StaysInPeriod(n: Netint): (Receiver, Event) -> bool {
    (rx: Receiver, e: Event) =>
      match e
      case Data(_, _, _, _) => true
      case Tick(_, _) => EndsPeriod(rx, e) ==> IsPending(n)(rx)
      case NetworkReset(_, _, _) =>
        rx.sampling.active && n in rx.netints ==> forall used: seq<Interface> :: Applies(e, used) ==> exists i ::
          0 <= i < |used| && used[i].netint == n
      case UniverseChange(_) => n in rx.netints
  }

  lemma CurrentAfterReset(rx: Receiver, now: nat, used: seq<Interface>, n: Netint)
    requires NoneWithoutPeriod(rx)
    ensures IsCurrent(n)(WithInterfaces(rx, now, used)) <==>
      && (rx.sampling.active && n in rx.netints ==> Lists(used, n))
      && (IsCurrent(n)(rx) || (!rx.sampling.active && n !in rx.netints && n in Usable(used)))
  {
    UnusableIsNotUsed(used, n);
    InPeriodAfterReset(rx, now, used, n);
  }

  lemma CurrentStep(rx: Receiver, e: Event, n: Netint)
    requires IsRight()(rx)
    ensures IsRight()(Step(rx, e).0)
    ensures IsCurrent(n)(Step(rx, e).0) <==> StaysInPeriod(n)(rx, e) && (IsCurrent(n)(rx) || JoinsPeriod(n)(rx, e))
  {
    match e
    case Data(_, _, _, _) =>
    case Tick(now, _) =>
      if EndsPeriod(rx, e) {
        S.EndingStartsThePendingPeriod(rx.sampling, now);
        assert Step(rx, e).0.sampling.netints == S.EndPeriod(rx.sampling, now).netints;
        assert IsCurrent(n)(Step(rx, e).0) <==> IsPending(n)(rx);
      }
    case NetworkReset(now, listed, noNetints) =>
      if ResetOutcome(listed, noNetints) == Ok {
        var used := ResetApplies(rx, now, listed, noNetints);
        CurrentAfterReset(rx, now, used, n);
        UsableExactly(used);
      } else {
        NothingUsable(listed);
        assert Step(rx, e).0 == rx && forall used: seq<Interface> :: !Applies(e, used);
      }
    case UniverseChange(_) =>
  }

  /**
   Over every run, an interface takes part in the sampling period exactly when it joined it and did not leave since, or
   was usable at creation and did not leave the first period since.
   */
  lemma CurrentIff(settings: Settings, now: nat, listed: seq<Interface>, run: seq<Event>, k: nat, n: Netint)
    requires k <= |run|
    ensures var created := Created(settings, now, listed);
      IsCurrent(n)(StateBefore(created, run, k)) <==>
        || Runs.HasHeldSince(Steps(), created, run, JoinsPeriod(n), StaysInPeriod(n), k)
        || (Interface(n, true) in listed && Runs.FineUpTo(Steps(), created, run, StaysInPeriod(n), k))
  {
    forall rx: Receiver, e: Event | IsRight()(rx)
      ensures IsRight()(Step(rx, e).0)
      ensures IsCurrent(n)(Step(rx, e).0) <==> StaysInPeriod(n)(rx, e) && (IsCurrent(n)(rx) || JoinsPeriod(n)(rx, e))
    {
      CurrentStep(rx, e, n);
    }
    Runs.LatchedFromStart(Steps(), Created(settings, now, listed), run, IsRight(), IsCurrent(n), JoinsPeriod(n),
                          StaysInPeriod(n), k);
    UsableExactly(listed);
  }
}
