/** How a lost source is reported: as terminated or not, just as the tick saw it that first found it offline. */
module LossMarks {
  import opened Common
  import opened SourceTracking
  import opened StatusLists
  import opened SourceLoss
  import opened LossRuns
  import Runs

  /** The source is in a set, verified offline and marked that way. */
  ghost predicate HeldAs(sets: seq<TermSet>, h: Handle, terminated: bool) {
    exists i :: 0 <= i < |sets| && h in sets[i].sources && sets[i].sources[h] == Entry(true, terminated)
  }

  lemma HeldAsJoined(front: seq<TermSet>, last: TermSet, h: Handle, terminated: bool)
    ensures HeldAs(front + [last], h, terminated) <==>
      HeldAs(front, h, terminated) || (h in last.sources && last.sources[h] == Entry(true, terminated))
  {
    var sets := front + [last];
    assert forall i | 0 <= i < |front| :: sets[i] == front[i];
    assert sets[|front|] == last;
  }

  // ---- No step changes a mark ----

  lemma {:induction false} ConfirmedHeldBefore(sets: seq<TermSet>, online: Handle, h: Handle, terminated: bool)
    requires HeldAs(ConfirmOnline(sets, online), h, terminated)
    ensures HeldAs(sets, h, terminated)
  {
    if sets != [] {
      var front, last := sets[..|sets| - 1], sets[|sets| - 1];
      assert sets == front + [last];
      HeldAsJoined(front, last, h, terminated);
      HeldAsJoined(ConfirmOnline(front, online), Without(last, online), h, terminated);
      if HeldAs(ConfirmOnline(front, online), h, terminated) {
        ConfirmedHeldBefore(front, online, h, terminated);
      }
    }
  }

  lemma {:induction false} OnlineHeldBefore(sets: seq<TermSet>, online: seq<Handle>, h: Handle, terminated: bool)
    requires HeldAs(MarkOnline(sets, online), h, terminated)
    ensures HeldAs(sets, h, terminated)
  {
    if online != [] {
      ConfirmedHeldBefore(MarkOnline(sets, online[..|online| - 1]), online[|online| - 1], h, terminated);
      OnlineHeldBefore(sets, online[..|online| - 1], h, terminated);
    }
  }

  lemma {:induction false} UnsettledHeldBefore(sets: seq<TermSet>, now: nat, h: Handle, terminated: bool)
    requires HeldAs(Unsettled(sets, now), h, terminated)
    ensures HeldAs(sets, h, terminated)
  {
    if sets != [] {
      var front, last := sets[..|sets| - 1], sets[|sets| - 1];
      assert sets == front + [last];
      HeldAsJoined(front, last, h, terminated);
      HeldAsJoined(Unsettled(front, now), last, h, terminated);
      if HeldAs(Unsettled(front, now), h, terminated) {
        UnsettledHeldBefore(front, now, h, terminated);
      }
    }
  }

  lemma OneOfflineMarks(sets: seq<TermSet>, o: OfflineSource, unknown: seq<Handle>, now: nat, wait: nat, h: Handle,
          terminated: bool)
    requires WellKept(sets) && HeldAs(OneOffline(sets, o, unknown, now, wait), h, terminated)
    ensures HeldAs(sets, h, terminated) || (o == OfflineSource(h, terminated) && !HeldOffline(sets, h))
  {
    if Covers(sets, o.handle) {
      var i :| 0 <= i < |sets| && h in Verified(sets[i], o).sources
        && Verified(sets[i], o).sources[h] == Entry(true, terminated);
      assert h in sets[i].sources;
      assert forall j | 0 <= j < |sets| && h in sets[j].sources :: j == i;
    } else {
      HeldAsJoined(sets, Opened(sets, o, unknown, now, wait), h, terminated);
    }
  }

  /** A source gets its mark when it is first found offline, and then from that finding. */
  lemma {:induction false} OfflineMarks(sets: seq<TermSet>, offline: seq<OfflineSource>, unknown: seq<Handle>,
          now: nat, wait: nat, h: Handle, terminated: bool)
    requires WellKept(sets) && HeldAs(MarkOffline(sets, offline, unknown, now, wait), h, terminated)
    ensures HeldAs(sets, h, terminated) || (OfflineSource(h, terminated) in offline && !HeldOffline(sets, h))
  {
    if offline != [] {
      var front, last := offline[..|offline| - 1], offline[|offline| - 1];
      MarkOfflineExactly(sets, front, unknown, now, wait);
      OneOfflineMarks(MarkOffline(sets, front, unknown, now, wait), last, unknown, now, wait, h, terminated);
      if HeldAs(MarkOffline(sets, front, unknown, now, wait), h, terminated) {
        OfflineMarks(sets, front, unknown, now, wait, h, terminated);
      }
    }
  }

  lemma JudgedMarks(sets: seq<TermSet>, l: Lists, now: nat, wait: nat, h: Handle, terminated: bool)
    requires WellKept(sets) && HeldAs(Judged(sets, l, now, wait), h, terminated)
    ensures HeldAs(sets, h, terminated) || (OfflineSource(h, terminated) in l.offline && !HeldOffline(sets, h))
  {
    OnlineHeldBefore(MarkOffline(sets, l.offline, l.unknown, now, wait), l.online, h, terminated);
    OfflineMarks(sets, l.offline, l.unknown, now, wait, h, terminated);
  }

  // ---- Runs ----

  /** This event finds the source offline, that way, and it was not held offline yet. */
  ghost predicate Marks(s: Tracking, e: Event, h: Handle, terminated: bool) {
    e.Ticked? && OfflineSource(h, terminated) in e.lists.offline && !HeldOffline(s.sets, h)
  }

  lemma MarkStep(s: Tracking, e: Event, h: Handle, terminated: bool)
    requires WellKept(s.sets) && HeldAs(Advanced(s, e).sets, h, terminated)
    ensures Keeps(s, e, h) && (HeldAs(s.sets, h, terminated) || Marks(s, e, h, terminated))
  {
    HeldStep(s, e, h);
    assert HeldOffline(Advanced(s, e).sets, h);
    if e.Ticked? {
      UnsettledHeldBefore(Judged(s.sets, e.lists, e.now, e.wait), e.now, h, terminated);
      JudgedMarks(s.sets, e.lists, e.now, e.wait, h, terminated);
    }
  }

  /** From `m` up to `k`, no tick finds the source online or reports it, and the universe stays. */
  ghost predicate NotReleased(s: Tracking, run: seq<Event>, m: nat, k: nat, h: Handle)
    requires k <= |run|
  {
    forall j | m <= j < k :: Keeps(Before(s, run, j), run[j], h)
  }

  ghost function HoldsItAs(h: Handle, terminated: bool): Tracking -> bool {
    (s: Tracking) => HeldAs(s.sets, h, terminated)
  }

  ghost function MarksIt(h: Handle, terminated: bool): (Tracking, Event) -> bool {
    (s: Tracking, e: Event) => Marks(s, e, h, terminated)
  }

  lemma MarksLatch(h: Handle, terminated: bool)
    ensures Runs.LatchesAtMost(Advanced, KeptWell(), HoldsItAs(h, terminated), MarksIt(h, terminated), KeepsIt(h))
  {
    forall s: Tracking, e: Event | WellKept(s.sets)
      ensures WellKept(Advanced(s, e).sets)
      ensures HeldAs(Advanced(s, e).sets, h, terminated) ==>
        Keeps(s, e, h) && (HeldAs(s.sets, h, terminated) || Marks(s, e, h, terminated))
    {
      HeldStep(s, e, h);
      if HeldAs(Advanced(s, e).sets, h, terminated) {
        MarkStep(s, e, h, terminated);
      }
    }
  }

  ghost predicate MarksAt(s: Tracking, run: seq<Event>, m: nat, h: Handle, terminated: bool) {
    m < |run| && Marks(Before(s, run, m), run[m], h, terminated)
  }

  lemma HeldSinceMarked(s: Tracking, run: seq<Event>, k: nat, h: Handle, terminated: bool) returns (m: nat)
    requires s.sets == [] && k <= |run| && HeldAs(Before(s, run, k).sets, h, terminated)
    ensures m < k && MarksAt(s, run, m, h, terminated) && NotReleased(s, run, m, k, h)
  {
    MarksLatch(h, terminated);
    Runs.LatchedOnlySince(Advanced, s, run, KeptWell(), HoldsItAs(h, terminated), MarksIt(h, terminated), KeepsIt(h),
                          k);
    m :| Runs.HeldFrom(Advanced, s, run, MarksIt(h, terminated), KeepsIt(h), m, k);
    assert forall j | m <= j < k :: KeepsIt(h)(Before(s, run, j), run[j]);
  }

  lemma ReportMarks(s: Tracking, e: Event, x: OfflineSource)
    requires WellKept(s.sets) && x in Report(s, e)
    ensures HeldAs(s.sets, x.handle, x.terminated) || Marks(s, e, x.handle, x.terminated)
  {
    var judged := Judged(s.sets, e.lists, e.now, e.wait);
    LostExactly(judged, e.now, x);
    var i: nat :| ReportedBy(judged, e.now, i, x);
    assert judged[i].sources[x.handle] == Entry(true, x.terminated);
    JudgedMarks(s.sets, e.lists, e.now, e.wait, x.handle, x.terminated);
  }

  /** Tick `m` finds the source offline, as it has not been found since it was last released. */
  ghost predicate FirstFinds(s: Tracking, run: seq<Event>, m: nat, h: Handle, terminated: bool)
    requires m < |run|
  {
    && run[m].Ticked? && h in Before(s, run, m).rx.sources
    && Classify(Before(s, run, m).rx.sources[h], run[m].now) == Offline(terminated)
    && forall l | 0 <= l < m && Finds(run[l], h) :: !NotReleased(s, run, l, m, h)
  }

  lemma MarkedIsFirst(s: Tracking, run: seq<Event>, m: nat, h: Handle, terminated: bool)
    requires s.sets == [] && PossibleRun(s, run) && MarksAt(s, run, m, h, terminated)
    ensures FirstFinds(s, run, m, h, terminated)
  {
    assert PossibleAt(s, run, m);
    HeldMeansFoundOffline(s, run, m, h);
    forall l | 0 <= l < m && Finds(run[l], h) ensures !NotReleased(s, run, l, m, h) {
      if NotReleased(s, run, l, m, h) {
        assert Runs.HeldFrom(Advanced, s, run, FindsIt(h), KeepsIt(h), l, m);
      }
    }
  }

  /**
   In every possible run from an empty list of sets, a source is reported as terminated exactly when the tick saw it so
   that found it offline first: not found online, reported, or left behind by a universe change between that tick and
   the report, and by no tick found offline before without one of these in between.
   */
  lemma ReportedAsFirstFound(s: Tracking, run: seq<Event>, k: nat, x: OfflineSource)
    requires s.sets == [] && PossibleRun(s, run) && k < |run| && x in Report(Before(s, run, k), run[k])
    ensures exists m ::
      0 <= m <= k && FirstFinds(s, run, m, x.handle, x.terminated) && NotReleased(s, run, m, k, x.handle)
  {
    HeldMeansFoundOffline(s, run, k, x.handle);
    ReportMarks(Before(s, run, k), run[k], x);
    if Marks(Before(s, run, k), run[k], x.handle, x.terminated) {
      MarkedIsFirst(s, run, k, x.handle, x.terminated);
      assert NotReleased(s, run, k, k, x.handle);
    } else {
      var m := HeldSinceMarked(s, run, k, x.handle, x.terminated);
      MarkedIsFirst(s, run, m, x.handle, x.terminated);
    }
  }
}
