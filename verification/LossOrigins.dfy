/** Every loss report goes back to the termination sets it was verified with. */
module LossOrigins {
  import opened Common
  import opened SourceTracking
  import opened StatusLists
  import opened SourceLoss
  import opened LossRuns
  import opened LossSets

  // ---- One tick ----

  lemma {:induction false} ConfirmedComesFrom(sets: seq<TermSet>, h: Handle, x: TermSet) returns (y: TermSet)
    requires x in ConfirmOnline(sets, h)
    ensures y in sets && x == Without(y, h) && x.sources != map[]
  {
    var front, last := sets[..|sets| - 1], sets[|sets| - 1];
    assert sets == front + [last];
    if x in ConfirmOnline(front, h) {
      y := ConfirmedComesFrom(front, h, x);
    } else {
      y := last;
    }
  }

  lemma {:induction false} OnlineComesFrom(sets: seq<TermSet>, online: seq<Handle>, x: TermSet) returns (y: TermSet)
    requires x in MarkOnline(sets, online)
    ensures y in sets && x == AgedOnline(y, online)
  {
    if online == [] {
      y := x;
    } else {
      var front, last := online[..|online| - 1], online[|online| - 1];
      var between := ConfirmedComesFrom(MarkOnline(sets, front), last, x);
      y := OnlineComesFrom(sets, front, between);
    }
  }

  /** The set is the one that the source at index `i` opened. */
  ghost predicate IsNew(s: Tracking, e: Event, i: nat, x: TermSet) {
    Opens(s, e, i) && x == OpenedBy(s, e, i)
  }

  lemma FoundBefore(s: Tracking, e: Event, n: nat, x: TermSet) returns (z: TermSet)
    requires e.Ticked? && n < |e.lists.offline| && x in FoundBy(s, e, n + 1)
    ensures IsNew(s, e, n, x) || (z in FoundBy(s, e, n) && x == Verified(z, e.lists.offline[n]))
  {
    FoundByNext(s, e, n);
    var sets, o := FoundBy(s, e, n), e.lists.offline[n];
    var i :| 0 <= i < |FoundBy(s, e, n + 1)| && FoundBy(s, e, n + 1)[i] == x;
    if i < |sets| {
      z := sets[i];
      assert !Covers(sets, o.handle) ==> o.handle !in sets[i].sources;
    } else {
      z := x;
    }
  }

  lemma {:induction false} FoundComesFrom(s: Tracking, e: Event, n: nat, x: TermSet) returns (y: TermSet, i: nat)
    requires e.Ticked? && n <= |e.lists.offline| && x in FoundBy(s, e, n) && Apart(e.lists)
    ensures (i < n && IsNew(s, e, i, x)) || (y in s.sets && x == AgedOffline(y, e.lists.offline[..n]))
  {
    y, i := x, 0;
    if n > 0 {
      var z := FoundBefore(s, e, n - 1, x);
      if IsNew(s, e, n - 1, x) {
        i := n - 1;
      } else {
        y, i := FoundComesFrom(s, e, n - 1, z);
        assert e.lists.offline[..n][..n - 1] == e.lists.offline[..n - 1];
        if i < n - 1 && IsNew(s, e, i, z) {
          NotFoundAgain(s, e, i, n - 1);
        }
      }
    }
  }

  /** The source that opens a set stays in it for that tick. */
  lemma NewIsNotAged(s: Tracking, e: Event, i: nat, x: TermSet)
    requires IsNew(s, e, i, x) && Apart(e.lists)
    ensures AgedOnline(x, e.lists.online) == x
  {
    assert Handles(e.lists.offline)[i] in Handles(e.lists.offline);
    AgedOnlineExactly(x, e.lists.online);
    assert AgedOnline(x, e.lists.online).sources == x.sources;
  }

  /** A set that a tick judges is one it opened itself, or an earlier one, aged by this tick. */
  lemma JudgedComesFrom(s: Tracking, e: Event, x: TermSet) returns (y: TermSet, i: nat)
    requires e.Ticked? && Possible(s, e) && x in Judged(s.sets, e.lists, e.now, e.wait)
    ensures IsNew(s, e, i, x) || (y in s.sets && x == Aged(y, e.lists))
  {
    ListsAreApart(e.lists, s.rx.sources, e.now);
    assert e.lists.offline[..|e.lists.offline|] == e.lists.offline;
    var z := OnlineComesFrom(FoundBy(s, e, |e.lists.offline|), e.lists.online, x);
    y, i := FoundComesFrom(s, e, |e.lists.offline|, z);
    if IsNew(s, e, i, z) {
      NewIsNotAged(s, e, i, z);
    }
  }

  lemma {:induction false} UnsettledComesFrom(sets: seq<TermSet>, now: nat, x: TermSet)
    requires x in Unsettled(sets, now)
    ensures x in sets && !Settled(x, now)
  {
    var front, last := sets[..|sets| - 1], sets[|sets| - 1];
    if x in Unsettled(front, now) {
      UnsettledComesFrom(front, now, x);
    }
  }

  // ---- Runs ----

  /** The set is pending, as the run so far left it, since the tick `m` that opened it. */
  ghost predicate PendingSince(s: Tracking, run: seq<Event>, m: nat, i: nat, k: nat, x: TermSet)
    requires k <= |run|
  {
    && m < k && Opens(Before(s, run, m), run[m], i) && PendingUntil(s, run, m, i, k)
    && x == AgedSet(OpenedBy(Before(s, run, m), run[m], i), run, m + 1, k)
  }

  /** Tick `k` judges the set that tick `m` opened, possibly this tick itself. */
  ghost predicate JudgesSet(s: Tracking, run: seq<Event>, m: nat, i: nat, k: nat, x: TermSet)
    requires k < |run|
  {
    && m <= k && Opens(Before(s, run, m), run[m], i) && PendingUntil(s, run, m, i, k)
    && x == JudgedAt(s, run, m, i, k)
  }

  lemma JudgedNotEmpty(s: Tracking, e: Event, x: TermSet)
    requires e.Ticked? && WellKept(s.sets) && x in Judged(s.sets, e.lists, e.now, e.wait)
    ensures x.sources != map[]
  {
    JudgedExactly(s.sets, e.lists, e.now, e.wait);
  }

  lemma NewIsJudged(s: Tracking, run: seq<Event>, k: nat, i: nat, x: TermSet)
    requires k < |run| && IsNew(Before(s, run, k), run[k], i, x)
    ensures JudgesSet(s, run, k, i, k, x)
  {
  }

  lemma PendingOneMore(s: Tracking, run: seq<Event>, m: nat, i: nat, k: nat, x: TermSet)
    requires k < |run| && JudgesSet(s, run, m, i, k, x) && LeavesPending(s, run, m, i, k)
    ensures PendingSince(s, run, m, i, k + 1, x)
  {
  }

  lemma JudgedOneMore(s: Tracking, run: seq<Event>, m: nat, i: nat, k: nat, x: TermSet)
    requires k < |run| && PendingSince(s, run, m, i, k, x)
    ensures JudgesSet(s, run, m, i, k, if run[k].Ticked? then Aged(x, run[k].lists) else x)
  {
  }

  lemma JudgedHasOrigin(s: Tracking, run: seq<Event>, k: nat, x: TermSet) returns (m: nat, i: nat)
    requires s.sets == [] && PossibleRun(s, run) && k < |run| && run[k].Ticked?
    requires x in Judged(Before(s, run, k).sets, run[k].lists, run[k].now, run[k].wait)
    ensures JudgesSet(s, run, m, i, k, x)
    decreases k, 1
  {
    assert PossibleAt(s, run, k);
    var y, index := JudgedComesFrom(Before(s, run, k), run[k], x);
    if IsNew(Before(s, run, k), run[k], index, x) {
      NewIsJudged(s, run, k, index, x);
      m, i := k, index;
    } else {
      m, i := PendingHasOrigin(s, run, k, y);
      JudgedOneMore(s, run, m, i, k, y);
    }
  }

  lemma KeptWasJudged(s: Tracking, e: Event, x: TermSet)
    requires e.Ticked? && WellKept(s.sets) && x in Advanced(s, e).sets
    ensures x in Judged(s.sets, e.lists, e.now, e.wait) && !Settled(x, e.now) && x.sources != map[]
  {
    UnsettledComesFrom(Judged(s.sets, e.lists, e.now, e.wait), e.now, x);
    JudgedNotEmpty(s, e, x);
  }

  lemma KeptByTickWasJudged(s: Tracking, run: seq<Event>, k: nat, x: TermSet)
    requires s.sets == [] && 0 < k <= |run| && run[k - 1].Ticked? && x in Before(s, run, k).sets
    ensures var before, e := Before(s, run, k - 1), run[k - 1];
      x in Judged(before.sets, e.lists, e.now, e.wait) && !Settled(x, e.now) && x.sources != map[]
  {
    HeldMeansFoundOffline(s, run, k - 1, 0);
    KeptWasJudged(Before(s, run, k - 1), run[k - 1], x);
  }

  lemma KeptByOtherWasThere(s: Tracking, run: seq<Event>, k: nat, x: TermSet)
    requires 0 < k <= |run| && !run[k - 1].Ticked? && x in Before(s, run, k).sets
    ensures x in Before(s, run, k - 1).sets && !run[k - 1].event.UniverseChange?
  {
  }

  lemma StillPending(s: Tracking, run: seq<Event>, m: nat, i: nat, k: nat, x: TermSet)
    requires s.sets == [] && 0 < k <= |run| && x in Before(s, run, k).sets && JudgesSet(s, run, m, i, k - 1, x)
    ensures PendingSince(s, run, m, i, k, x)
  {
    if run[k - 1].Ticked? {
      KeptByTickWasJudged(s, run, k, x);
    } else {
      KeptByOtherWasThere(s, run, k, x);
    }
    PendingOneMore(s, run, m, i, k - 1, x);
  }

  lemma NobodyPendingAtFirst(s: Tracking, run: seq<Event>, k: nat, x: TermSet)
    requires s.sets == [] && k <= |run| && x in Before(s, run, k).sets
    ensures k > 0
  {
  }

  lemma {:induction false} PendingHasOrigin(s: Tracking, run: seq<Event>, k: nat, x: TermSet) returns (m: nat, i: nat)
    requires s.sets == [] && PossibleRun(s, run) && k <= |run| && x in Before(s, run, k).sets
    ensures PendingSince(s, run, m, i, k, x)
    decreases k, 0
  {
    NobodyPendingAtFirst(s, run, k, x);
    if run[k - 1].Ticked? {
      KeptByTickWasJudged(s, run, k, x);
      m, i := JudgedHasOrigin(s, run, k - 1, x);
    } else {
      KeptByOtherWasThere(s, run, k, x);
      m, i := PendingHasOrigin(s, run, k - 1, x);
      JudgedOneMore(s, run, m, i, k - 1, x);
    }
    StillPending(s, run, m, i, k, x);
  }

  /** Whoever is reported lost is reported with a set that it joined when a tick opened it. */
  lemma EveryReportIsOfASet(s: Tracking, run: seq<Event>, k: nat, h: Handle) returns (m: nat, i: nat)
    requires s.sets == [] && PossibleRun(s, run) && k < |run| && h in Handles(Report(Before(s, run, k), run[k]))
    ensures GoesOutWith(s, run, m, i, k, h)
  {
    var judged := Judged(Before(s, run, k).sets, run[k].lists, run[k].now, run[k].wait);
    ReportedFromSets(judged, run[k].now, h);
    var x :| x in judged && Settled(x, run[k].now) && h in x.sources;
    m, i := JudgedHasOrigin(s, run, k, x);
    AgedSetExactly(OpenedBy(Before(s, run, m), run[m], i), run, m + 1, k + 1, h);
  }

  /**
   Exactly when a source is reported: it joined a set when a tick opened it, no tick has found it online since,
   and the wait of that set is over now for the first time with all its members found offline or gone. Being
   found offline while some set is pending is not enough to go out with that set.
   */
  lemma ReportedIff(s: Tracking, run: seq<Event>, k: nat, h: Handle)
    requires s.sets == [] && PossibleRun(s, run) && k < |run|
    ensures h in Handles(Report(Before(s, run, k), run[k])) <==> exists m, i :: GoesOutWith(s, run, m, i, k, h)
  {
    if h in Handles(Report(Before(s, run, k), run[k])) {
      var m, i := EveryReportIsOfASet(s, run, k, h);
    }
    if m: nat, i: nat :| GoesOutWith(s, run, m, i, k, h) {
      MembersGoOut(s, run, m, i, k, h);
    }
  }
}
