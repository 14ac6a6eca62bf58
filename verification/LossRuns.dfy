/** A receiver together with its termination sets: who is reported lost over whole runs. */
module LossRuns {
  import opened Common
  import opened Interfaces
  import opened SourceTracking
  import opened StatusLists
  import opened SourceLoss
  import M = ReceiverModel
  import Runs

  datatype Tracking = Tracking(rx: M.Receiver, sets: seq<TermSet>)

  /** A tick, with the lists it sorts the sources into, or any other event. */
  datatype Event =
    | Ticked(now: nat, wait: nat, lists: Lists)
    | Other(event: M.Event)

  ghost predicate Possible(s: Tracking, e: Event) {
    if e.Ticked? then Sorted(e.lists, s.rx.sources, e.now, 0x10000) else !e.event.Tick?
  }

  /** The sources an event reports lost. */
  ghost function Report(s: Tracking, e: Event): seq<OfflineSource> {
    if e.Ticked? then Lost(Judged(s.sets, e.lists, e.now, e.wait), e.now) else []
  }

  /** What the receiver itself gets to see of an event. */
  ghost function ReceiverEvent(s: Tracking, e: Event): M.Event {
    if e.Ticked? then M.Tick(e.now, Handles(Report(s, e))) else e.event
  }

  ghost function Advanced(s: Tracking, e: Event): Tracking {
    match e
    case Ticked(now, wait, lists) =>
      Tracking(M.Step(s.rx, M.Tick(now, Handles(Report(s, e)))).0, Unsettled(Judged(s.sets, lists, now, wait), now))
    case Other(event) => Tracking(M.Step(s.rx, event).0, if event.UniverseChange? then [] else s.sets)
  }

  ghost function Before(s: Tracking, run: seq<Event>, k: nat): Tracking
    requires k <= |run|
  {
    Runs.StateAt(Advanced, s, run, k)
  }

  ghost predicate PossibleAt(s: Tracking, run: seq<Event>, k: nat)
    requires k < |run|
  {
    Possible(Before(s, run, k), run[k])
  }

  ghost predicate PossibleRun(s: Tracking, run: seq<Event>) {
    forall k | 0 <= k < |run| :: PossibleAt(s, run, k)
  }

  function Created(settings: M.Settings, now: nat, listed: seq<Interface>): Tracking {
    Tracking(M.Created(settings, now, listed), [])
  }

  // ---- Only tracked sources are held ----

  /** A source in a termination set is tracked, and past its wait for PAP. */
  ghost predicate HoldsTracked(s: Tracking) {
    && WellKept(s.sets)
    && forall h: Handle | Covers(s.sets, h) :: h in s.rx.sources && s.rx.sources[h].state != WaitingForPap
  }

  lemma ListedArePastWaiting(l: Lists, sources: map<Handle, Source>, now: nat, h: Handle)
    requires Sorted(l, sources, now, 0x10000) && (h in Handles(l.offline) || h in l.unknown)
    ensures h in sources && sources[h].state != WaitingForPap
  {
  }

  lemma NobodyStartsWaiting(rx: M.Receiver, e: M.Event, h: Handle)
    requires h in rx.sources && rx.sources[h].state != WaitingForPap && !e.Tick? && !e.UniverseChange?
    ensures h in M.Step(rx, e).0.sources && M.Step(rx, e).0.sources[h].state != WaitingForPap
  {
  }

  lemma TickKeepsTracked(s: Tracking, e: Event)
    requires HoldsTracked(s) && e.Ticked? && Possible(s, e)
    ensures HoldsTracked(Advanced(s, e))
    ensures forall h | h in Handles(Report(s, e)) :: h in s.rx.sources && h !in Advanced(s, e).rx.sources
  {
    var judged := Judged(s.sets, e.lists, e.now, e.wait);
    JudgedExactly(s.sets, e.lists, e.now, e.wait);
    UnsettledExactly(judged, e.now);
    forall h: Handle | Covers(judged, h) ensures h in s.rx.sources && s.rx.sources[h].state != WaitingForPap {
      if !Covers(s.sets, h) {
        ListedArePastWaiting(e.lists, s.rx.sources, e.now, h);
      }
    }
    assert forall h | h in s.rx.sources && s.rx.sources[h].state != WaitingForPap ::
      Classify(s.rx.sources[h], e.now) != Erased;
  }

  lemma StepKeepsTracked(s: Tracking, e: Event)
    requires HoldsTracked(s) && Possible(s, e)
    ensures HoldsTracked(Advanced(s, e))
    ensures forall h | h in Handles(Report(s, e)) :: h in s.rx.sources && h !in Advanced(s, e).rx.sources
  {
    match e {
      case Ticked(_, _, _) => TickKeepsTracked(s, e);
      case Other(event) =>
        if !event.UniverseChange? {
          forall h: Handle | Covers(s.sets, h)
            ensures h in Advanced(s, e).rx.sources && Advanced(s, e).rx.sources[h].state != WaitingForPap
          {
            NobodyStartsWaiting(s.rx, event, h);
          }
        }
    }
  }

  lemma {:induction false} RunKeepsTracked(s: Tracking, run: seq<Event>, k: nat)
    requires HoldsTracked(s) && PossibleRun(s, run) && k <= |run|
    ensures HoldsTracked(Before(s, run, k))
  {
    if k > 0 {
      RunKeepsTracked(s, run, k - 1);
      assert PossibleAt(s, run, k - 1);
      StepKeepsTracked(Before(s, run, k - 1), run[k - 1]);
    }
  }

  /** In every run, a source reported lost is tracked until then, is reported once, and is forgotten with it. */
  lemma LostSourcesWereTracked(settings: M.Settings, now: nat, listed: seq<Interface>, run: seq<Event>, k: nat)
    requires PossibleRun(Created(settings, now, listed), run) && k < |run|
    ensures var s := Before(Created(settings, now, listed), run, k);
      var lost := Report(s, run[k]);
      && (forall h | h in Handles(lost) :: h in s.rx.sources && h !in Advanced(s, run[k]).rx.sources)
      && (forall i, j | 0 <= i < j < |lost| :: lost[i].handle != lost[j].handle)
  {
    var s := Before(Created(settings, now, listed), run, k);
    RunKeepsTracked(Created(settings, now, listed), run, k);
    assert PossibleAt(Created(settings, now, listed), run, k);
    StepKeepsTracked(s, run[k]);
    if run[k].Ticked? {
      JudgedExactly(s.sets, run[k].lists, run[k].now, run[k].wait);
      NobodyReportedTwice(Judged(s.sets, run[k].lists, run[k].now, run[k].wait), run[k].now);
    }
  }

  // ---- What a report means ----

  /** The event neither finds the source online nor reports it nor changes the universe. */
  ghost predicate Keeps(s: Tracking, e: Event, h: Handle) {
    if e.Ticked? then h !in e.lists.online && h !in Handles(Report(s, e)) else !e.event.UniverseChange?
  }

  predicate Finds(e: Event, h: Handle) {
    e.Ticked? && h in Handles(e.lists.offline)
  }

  lemma HeldStep(s: Tracking, e: Event, h: Handle)
    requires WellKept(s.sets)
    ensures WellKept(Advanced(s, e).sets)
    ensures HeldOffline(Advanced(s, e).sets, h) <==> Keeps(s, e, h) && (HeldOffline(s.sets, h) || Finds(e, h))
    ensures h in Handles(Report(s, e)) ==> e.Ticked? && h !in e.lists.online && (HeldOffline(s.sets, h) || Finds(e, h))
  {
    if e.Ticked? {
      JudgedExactly(s.sets, e.lists, e.now, e.wait);
      UnsettledExactly(Judged(s.sets, e.lists, e.now, e.wait), e.now);
    }
  }

  ghost function FindsIt(h: Handle): (Tracking, Event) -> bool {
    (s: Tracking, e: Event) => Finds(e, h)
  }

  ghost function KeepsIt(h: Handle): (Tracking, Event) -> bool {
    (s: Tracking, e: Event) => Keeps(s, e, h)
  }

  ghost function HoldsIt(h: Handle): Tracking -> bool {
    (s: Tracking) => HeldOffline(s.sets, h)
  }

  ghost function KeptWell(): Tracking -> bool {
    (s: Tracking) => WellKept(s.sets)
  }

  /** Some tick before `k` found the source offline, and no event from then on up to `k` has released it. */
  ghost predicate HeldSinceFound(s: Tracking, run: seq<Event>, k: nat, h: Handle)
    requires k <= |run|
  {
    Runs.HasHeldSince(Advanced, s, run, FindsIt(h), KeepsIt(h), k)
  }

  lemma HeldLatches(h: Handle)
    ensures Runs.Latches(Advanced, KeptWell(), HoldsIt(h), FindsIt(h), KeepsIt(h))
  {
    forall s: Tracking, e: Event | WellKept(s.sets)
      ensures WellKept(Advanced(s, e).sets)
      ensures HeldOffline(Advanced(s, e).sets, h) <==> Keeps(s, e, h) && (HeldOffline(s.sets, h) || Finds(e, h))
    {
      HeldStep(s, e, h);
    }
  }

  /** A source is held offline exactly when a tick found it offline and nothing has released it since. */
  lemma HeldMeansFoundOffline(s: Tracking, run: seq<Event>, k: nat, h: Handle)
    requires s.sets == [] && k <= |run|
    ensures WellKept(Before(s, run, k).sets)
    ensures HeldOffline(Before(s, run, k).sets, h) <==> HeldSinceFound(s, run, k, h)
  {
    HeldLatches(h);
    Runs.LatchedMeansHeldSince(Advanced, s, run, KeptWell(), HoldsIt(h), FindsIt(h), KeepsIt(h), k);
  }

  /**
   A source is reported lost only after a tick found it offline, with no tick up to the report finding
   it online again, and no report of it in between.
   */
  lemma LostMeansFoundOffline(s: Tracking, run: seq<Event>, k: nat, h: Handle)
    requires s.sets == [] && k < |run| && h in Handles(Report(Before(s, run, k), run[k]))
    ensures run[k].Ticked? && h !in run[k].lists.online
    ensures Finds(run[k], h) || HeldSinceFound(s, run, k, h)
  {
    HeldMeansFoundOffline(s, run, k, h);
    HeldStep(Before(s, run, k), run[k], h);
  }

  // ---- Waiting ----

  /** The source is in a set that waits as `wait` says. */
  ghost predicate WaitsIn(sets: seq<TermSet>, h: Handle, wait: Timer) {
    exists i :: 0 <= i < |sets| && h in sets[i].sources && sets[i].wait == wait
  }

  lemma WaitsInJoined(front: seq<TermSet>, last: TermSet, h: Handle, wait: Timer)
    ensures WaitsIn(front + [last], h, wait) <==> WaitsIn(front, h, wait) || (h in last.sources && last.wait == wait)
  {
    var sets := front + [last];
    assert forall i | 0 <= i < |front| :: sets[i] == front[i];
    assert sets[|front|] == last;
  }

  lemma {:induction false} ConfirmedWaitedBefore(sets: seq<TermSet>, online: Handle, h: Handle, wait: Timer)
    requires WaitsIn(ConfirmOnline(sets, online), h, wait)
    ensures WaitsIn(sets, h, wait)
  {
    if sets != [] {
      var front, last := sets[..|sets| - 1], sets[|sets| - 1];
      assert sets == front + [last];
      WaitsInJoined(front, last, h, wait);
      WaitsInJoined(ConfirmOnline(front, online), Without(last, online), h, wait);
      if WaitsIn(ConfirmOnline(front, online), h, wait) {
        ConfirmedWaitedBefore(front, online, h, wait);
      }
    }
  }

  lemma {:induction false} OnlineWaitedBefore(sets: seq<TermSet>, online: seq<Handle>, h: Handle, wait: Timer)
    requires WaitsIn(MarkOnline(sets, online), h, wait)
    ensures WaitsIn(sets, h, wait)
  {
    if online != [] {
      ConfirmedWaitedBefore(MarkOnline(sets, online[..|online| - 1]), online[|online| - 1], h, wait);
      OnlineWaitedBefore(sets, online[..|online| - 1], h, wait);
    }
  }

  lemma OneOfflineWaits(sets: seq<TermSet>, o: OfflineSource, unknown: seq<Handle>, now: nat, wait: nat, h: Handle,
          w: Timer)
    requires WaitsIn(OneOffline(sets, o, unknown, now, wait), h, w)
    ensures WaitsIn(sets, h, w) || w == Timer(now, wait)
  {
    if Covers(sets, o.handle) {
      var i :| 0 <= i < |sets| && h in Verified(sets[i], o).sources && Verified(sets[i], o).wait == w;
      assert h in sets[i].sources && sets[i].wait == w;
    } else {
      WaitsInJoined(sets, Opened(sets, o, unknown, now, wait), h, w);
    }
  }

  /** Nobody joins a set that is already waiting. */
  lemma {:induction false} OfflineWaits(sets: seq<TermSet>, offline: seq<OfflineSource>, unknown: seq<Handle>,
          now: nat, wait: nat, h: Handle, w: Timer)
    requires WaitsIn(MarkOffline(sets, offline, unknown, now, wait), h, w)
    ensures WaitsIn(sets, h, w) || w == Timer(now, wait)
  {
    if offline != [] {
      var front, last := offline[..|offline| - 1], offline[|offline| - 1];
      OneOfflineWaits(MarkOffline(sets, front, unknown, now, wait), last, unknown, now, wait, h, w);
      if WaitsIn(MarkOffline(sets, front, unknown, now, wait), h, w) {
        OfflineWaits(sets, front, unknown, now, wait, h, w);
      }
    }
  }

  lemma JudgedWaits(sets: seq<TermSet>, e: Event, h: Handle, w: Timer)
    requires e.Ticked? && WaitsIn(Judged(sets, e.lists, e.now, e.wait), h, w)
    ensures WaitsIn(sets, h, w) || w == Timer(e.now, e.wait)
  {
    OnlineWaitedBefore(MarkOffline(sets, e.lists.offline, e.lists.unknown, e.now, e.wait), e.lists.online, h, w);
    OfflineWaits(sets, e.lists.offline, e.lists.unknown, e.now, e.wait, h, w);
  }

  lemma {:induction false} UnsettledWaitedBefore(sets: seq<TermSet>, now: nat, h: Handle, wait: Timer)
    requires WaitsIn(Unsettled(sets, now), h, wait)
    ensures WaitsIn(sets, h, wait)
  {
    if sets != [] {
      var front, last := sets[..|sets| - 1], sets[|sets| - 1];
      assert sets == front + [last];
      WaitsInJoined(front, last, h, wait);
      WaitsInJoined(Unsettled(front, now), last, h, wait);
      if WaitsIn(Unsettled(front, now), h, wait) {
        UnsettledWaitedBefore(front, now, h, wait);
      }
    }
  }

  /** Tick `m` put the source into its set, where it has been ever since. */
  ghost predicate JoinedAt(s: Tracking, run: seq<Event>, k: nat, m: nat, h: Handle, w: Timer)
    requires k <= |run|
  {
    && m < k && run[m].Ticked? && w == Timer(run[m].now, run[m].wait)
    && forall j | m < j <= k :: Covers(Before(s, run, j).sets, h)
  }

  lemma WaitingStep(s: Tracking, e: Event, h: Handle, w: Timer)
    requires WaitsIn(Advanced(s, e).sets, h, w)
    ensures WaitsIn(s.sets, h, w) || (e.Ticked? && w == Timer(e.now, e.wait))
  {
    if e.Ticked? {
      UnsettledWaitedBefore(Judged(s.sets, e.lists, e.now, e.wait), e.now, h, w);
      JudgedWaits(s.sets, e, h, w);
    }
  }

  lemma {:induction false} WaitingSinceJoined(s: Tracking, run: seq<Event>, k: nat, h: Handle, w: Timer)
    returns (m: nat)
    requires s.sets == [] && k <= |run| && WaitsIn(Before(s, run, k).sets, h, w)
    ensures JoinedAt(s, run, k, m, h, w)
  {
    assert Covers(Before(s, run, k).sets, h);
    WaitingStep(Before(s, run, k - 1), run[k - 1], h, w);
    if WaitsIn(Before(s, run, k - 1).sets, h, w) {
      m := WaitingSinceJoined(s, run, k - 1, h, w);
    } else {
      m := k - 1;
    }
  }

  lemma ReportedWaited(s: Tracking, e: Event, x: OfflineSource) returns (w: Timer)
    requires x in Report(s, e)
    ensures e.Ticked? && Expired(w, e.now) && (WaitsIn(s.sets, x.handle, w) || w == Timer(e.now, e.wait))
  {
    var judged := Judged(s.sets, e.lists, e.now, e.wait);
    LostExactly(judged, e.now, x);
    var i: nat :| ReportedBy(judged, e.now, i, x);
    w := judged[i].wait;
    assert WaitsIn(judged, x.handle, w);
    JudgedWaits(s.sets, e, x.handle, w);
  }

  /** The notification wait that tick `m` starts is over at tick `k`. */
  predicate WaitOver(run: seq<Event>, m: nat, k: nat)
    requires m < |run| && k < |run|
  {
    run[m].Ticked? && run[k].Ticked? && Expired(Timer(run[m].now, run[m].wait), run[k].now)
  }

  /**
   A source is reported only once the notification wait is over that began when its set was opened; it
   has been in that set all the time.
   */
  lemma LostWaited(s: Tracking, run: seq<Event>, k: nat, x: OfflineSource)
    requires s.sets == [] && k < |run| && x in Report(Before(s, run, k), run[k])
    ensures exists m ::
      0 <= m <= k && WaitOver(run, m, k) && forall j | m < j <= k :: Covers(Before(s, run, j).sets, x.handle)
  {
    var w := ReportedWaited(Before(s, run, k), run[k], x);
    if WaitsIn(Before(s, run, k).sets, x.handle, w) {
      var m := WaitingSinceJoined(s, run, k, x.handle, w);
      assert WaitOver(run, m, k);
    } else {
      var m := k;
      assert WaitOver(run, m, k);
    }
  }
}
