/** What becomes of one termination set between the tick that opens it and the tick that reports it. */
module LossSets {
  import opened Common
  import opened SourceTracking
  import opened StatusLists
  import opened SourceLoss
  import opened LossRuns
  import M = ReceiverModel

  // ---- One tick ----

  function AgedOffline(s: TermSet, offline: seq<OfflineSource>): TermSet {
    if offline == [] then s
    else Verified(AgedOffline(s, offline[..|offline| - 1]), offline[|offline| - 1])
  }

  function AgedOnline(s: TermSet, online: seq<Handle>): TermSet {
    if online == [] then s else Without(AgedOnline(s, online[..|online| - 1]), online[|online| - 1])
  }

  /** A set as a tick leaves it: offline sources are verified, online ones leave. */
  function Aged(s: TermSet, l: Lists): TermSet {
    AgedOnline(AgedOffline(s, l.offline), l.online)
  }

  lemma {:induction false} AgedOfflineExactly(s: TermSet, offline: seq<OfflineSource>)
    ensures var aged := AgedOffline(s, offline);
      && aged.wait == s.wait && aged.sources.Keys == s.sources.Keys
      && forall h | h in s.sources :: aged.sources[h].offline <==> s.sources[h].offline || h in Handles(offline)
  {
    if offline != [] {
      var front, last := offline[..|offline| - 1], offline[|offline| - 1];
      AgedOfflineExactly(s, front);
      assert Handles(offline) == Handles(front) + [last.handle];
    }
  }

  lemma {:induction false} AgedOnlineExactly(s: TermSet, online: seq<Handle>)
    ensures var aged := AgedOnline(s, online);
      && aged.wait == s.wait
      && (forall h: Handle :: h in aged.sources <==> h in s.sources && h !in online)
      && forall h | h in aged.sources :: aged.sources[h] == s.sources[h]
  {
    if online != [] {
      var front, last := online[..|online| - 1], online[|online| - 1];
      AgedOnlineExactly(s, front);
      assert online == front + [last];
    }
  }

  lemma AgedExactly(s: TermSet, l: Lists)
    ensures var aged := Aged(s, l);
      && aged.wait == s.wait
      && (forall h: Handle :: h in aged.sources <==> h in s.sources && h !in l.online)
      && forall h | h in aged.sources :: aged.sources[h].offline <==> s.sources[h].offline || h in Handles(l.offline)
  {
    AgedOfflineExactly(s, l.offline);
    AgedOnlineExactly(AgedOffline(s, l.offline), l.online);
  }

  lemma VerifiedIsKept(sets: seq<TermSet>, o: OfflineSource, unknown: seq<Handle>, now: nat, wait: nat, s: TermSet)
    requires s in sets
    ensures Verified(s, o) in OneOffline(sets, o, unknown, now, wait)
  {
    var i :| 0 <= i < |sets| && sets[i] == s;
    assert !Covers(sets, o.handle) ==> o.handle !in sets[i].sources;
    assert OneOffline(sets, o, unknown, now, wait)[i] == Verified(s, o);
  }

  lemma {:induction false} AgedOfflineIsKept(sets: seq<TermSet>, offline: seq<OfflineSource>, unknown: seq<Handle>,
        now: nat, wait: nat, s: TermSet)
    requires s in sets
    ensures AgedOffline(s, offline) in MarkOffline(sets, offline, unknown, now, wait)
  {
    if offline != [] {
      var front, last := offline[..|offline| - 1], offline[|offline| - 1];
      AgedOfflineIsKept(sets, front, unknown, now, wait, s);
      VerifiedIsKept(MarkOffline(sets, front, unknown, now, wait), last, unknown, now, wait, AgedOffline(s, front));
    }
  }

  lemma {:induction false} WithoutIsKept(sets: seq<TermSet>, h: Handle, s: TermSet)
    requires s in sets && Without(s, h).sources != map[]
    ensures Without(s, h) in ConfirmOnline(sets, h)
  {
    var front, last := sets[..|sets| - 1], sets[|sets| - 1];
    if s in front {
      WithoutIsKept(front, h, s);
    } else {
      assert sets == front + [last];
    }
  }

  lemma {:induction false} AgedOnlineIsKept(sets: seq<TermSet>, online: seq<Handle>, s: TermSet)
    requires s in sets && AgedOnline(s, online).sources != map[]
    ensures AgedOnline(s, online) in MarkOnline(sets, online)
  {
    if online != [] {
      var front, last := online[..|online| - 1], online[|online| - 1];
      var earlier := AgedOnline(s, front);
      assert earlier.sources == map[] ==> Without(earlier, last).sources == map[];
      AgedOnlineIsKept(sets, front, s);
      WithoutIsKept(MarkOnline(sets, front), last, earlier);
    }
  }

  lemma AgedIsJudged(sets: seq<TermSet>, l: Lists, now: nat, wait: nat, s: TermSet)
    requires s in sets && Aged(s, l).sources != map[]
    ensures Aged(s, l) in Judged(sets, l, now, wait)
  {
    AgedOfflineIsKept(sets, l.offline, l.unknown, now, wait, s);
    AgedOnlineIsKept(MarkOffline(sets, l.offline, l.unknown, now, wait), l.online, AgedOffline(s, l.offline));
  }

  lemma {:induction false} UnsettledIsKept(sets: seq<TermSet>, now: nat, s: TermSet)
    requires s in sets && !Settled(s, now)
    ensures s in Unsettled(sets, now)
  {
    var front, last := sets[..|sets| - 1], sets[|sets| - 1];
    assert sets == front + [last];
    if s in front {
      UnsettledIsKept(front, now, s);
    }
  }

  // ---- Opening ----

  /** The termination sets that the source at index `i` of the offline list finds. */
  ghost function FoundBy(s: Tracking, e: Event, i: nat): seq<TermSet>
    requires e.Ticked? && i <= |e.lists.offline|
  {
    MarkOffline(s.sets, e.lists.offline[..i], e.lists.unknown, e.now, e.wait)
  }

  /** That source is in no set yet, and opens one. */
  ghost predicate Opens(s: Tracking, e: Event, i: nat) {
    e.Ticked? && i < |e.lists.offline| && !Covers(FoundBy(s, e, i), e.lists.offline[i].handle)
  }

  ghost function OpenedBy(s: Tracking, e: Event, i: nat): TermSet
    requires Opens(s, e, i)
  {
    Opened(FoundBy(s, e, i), e.lists.offline[i], e.lists.unknown, e.now, e.wait)
  }

  /** No source is on two of the lists, or twice on the offline one. */
  ghost predicate Apart(l: Lists) {
    && (forall h: Handle | h in l.unknown :: h !in l.online && h !in Handles(l.offline))
    && (forall h: Handle | h in Handles(l.offline) :: h !in l.online)
    && forall i, j | 0 <= i < j < |l.offline| :: l.offline[i].handle != l.offline[j].handle
  }

  lemma ListsAreApart(l: Lists, sources: map<Handle, Source>, now: nat)
    requires Sorted(l, sources, now, 0x10000)
    ensures Apart(l)
  {
    forall i, j | 0 <= i < j < |l.offline| ensures l.offline[i].handle != l.offline[j].handle {
      assert Handles(l.offline)[i] < Handles(l.offline)[j];
    }
  }

  /** Nobody in a newly opened set is found again, offline or online, by the tick that opens it. */
  lemma NotFoundAgain(s: Tracking, e: Event, i: nat, n: nat)
    requires Opens(s, e, i) && i < n < |e.lists.offline| && Apart(e.lists)
    ensures Verified(OpenedBy(s, e, i), e.lists.offline[n]) == OpenedBy(s, e, i)
  {
    assert Handles(e.lists.offline)[n] in Handles(e.lists.offline);
  }

  lemma FoundByNext(s: Tracking, e: Event, n: nat)
    requires e.Ticked? && n < |e.lists.offline|
    ensures FoundBy(s, e, n + 1) == OneOffline(FoundBy(s, e, n), e.lists.offline[n], e.lists.unknown, e.now, e.wait)
  {
    var offline := e.lists.offline;
    assert offline[..n + 1][..n] == offline[..n];
  }

  lemma OpeningAppends(s: Tracking, e: Event, i: nat)
    requires Opens(s, e, i)
    ensures OpenedBy(s, e, i) in FoundBy(s, e, i + 1)
  {
    FoundByNext(s, e, i);
    assert FoundBy(s, e, i + 1) == FoundBy(s, e, i) + [OpenedBy(s, e, i)];
  }

  lemma OpenedStays(s: Tracking, e: Event, i: nat, n: nat)
    requires Opens(s, e, i) && i < n < |e.lists.offline| && Apart(e.lists) && OpenedBy(s, e, i) in FoundBy(s, e, n)
    ensures OpenedBy(s, e, i) in FoundBy(s, e, n + 1)
  {
    FoundByNext(s, e, n);
    NotFoundAgain(s, e, i, n);
    VerifiedIsKept(FoundBy(s, e, n), e.lists.offline[n], e.lists.unknown, e.now, e.wait, OpenedBy(s, e, i));
  }

  lemma {:induction false} OpenedIsFound(s: Tracking, e: Event, i: nat, n: nat)
    requires Opens(s, e, i) && i < n <= |e.lists.offline| && Apart(e.lists)
    ensures OpenedBy(s, e, i) in FoundBy(s, e, n)
  {
    if n == i + 1 {
      OpeningAppends(s, e, i);
    } else {
      OpenedIsFound(s, e, i, n - 1);
      OpenedStays(s, e, i, n - 1);
    }
  }

  /** The opening tick judges the new set just as it was opened. */
  lemma OpenedIsJudged(s: Tracking, e: Event, i: nat)
    requires Opens(s, e, i) && Possible(s, e)
    ensures OpenedBy(s, e, i) in Judged(s.sets, e.lists, e.now, e.wait)
  {
    var l, news := e.lists, OpenedBy(s, e, i);
    ListsAreApart(l, s.rx.sources, e.now);
    OpenedIsFound(s, e, i, |l.offline|);
    assert l.offline[..|l.offline|] == l.offline;
    assert Handles(l.offline)[i] in Handles(l.offline);
    AgedOnlineExactly(news, l.online);
    assert AgedOnline(news, l.online).sources == news.sources;
    assert l.offline[i].handle in news.sources;
    AgedOnlineIsKept(MarkOffline(s.sets, l.offline, l.unknown, e.now, e.wait), l.online, news);
  }

  // ---- Runs ----

  /** The set as the events from `from` up to `to` leave it. */
  function AgedSet(s: TermSet, run: seq<Event>, from: nat, until: nat): TermSet
    requires from <= until <= |run|
    decreases until
  {
    if from == until then s else
      var earlier := AgedSet(s, run, from, until - 1);
      if run[until - 1].Ticked? then Aged(earlier, run[until - 1].lists) else earlier
  }

  predicate FoundOnlineIn(run: seq<Event>, from: nat, until: nat, h: Handle)
    requires until <= |run|
  {
    exists t :: from <= t < until && run[t].Ticked? && h in run[t].lists.online
  }

  predicate FoundOfflineIn(run: seq<Event>, from: nat, until: nat, h: Handle)
    requires until <= |run|
  {
    exists t :: from <= t < until && run[t].Ticked? && h in Handles(run[t].lists.offline)
  }

  lemma FoundOneLater(run: seq<Event>, from: nat, until: nat, h: Handle)
    requires from < until <= |run|
    ensures FoundOnlineIn(run, from, until, h)
      <==> FoundOnlineIn(run, from, until - 1, h) || (run[until - 1].Ticked? && h in run[until - 1].lists.online)
    ensures FoundOfflineIn(run, from, until, h) <==>
      FoundOfflineIn(run, from, until - 1, h) || (run[until - 1].Ticked? && h in Handles(run[until - 1].lists.offline))
  {
    var last: nat := until - 1;
    assert from <= last < until;
  }

  /** A source stays exactly until it is found online, and is verified exactly by being found offline. */
  lemma {:induction false} AgedSetExactly(s: TermSet, run: seq<Event>, from: nat, until: nat, h: Handle)
    requires from <= until <= |run|
    ensures var aged := AgedSet(s, run, from, until);
      && aged.wait == s.wait
      && (h in aged.sources <==> h in s.sources && !FoundOnlineIn(run, from, until, h))
      && (h in aged.sources ==>
            (aged.sources[h].offline <==> s.sources[h].offline || FoundOfflineIn(run, from, until, h)))
    decreases until
  {
    if until > from {
      AgedSetExactly(s, run, from, until - 1, h);
      FoundOneLater(run, from, until, h);
      if run[until - 1].Ticked? {
        AgedExactly(AgedSet(s, run, from, until - 1), run[until - 1].lists);
      }
    }
  }

  /** The set that event `m` opened, as event `j` judges it. */
  ghost function JudgedAt(s: Tracking, run: seq<Event>, m: nat, i: nat, j: nat): TermSet
    requires m <= j < |run| && Opens(Before(s, run, m), run[m], i)
  {
    AgedSet(OpenedBy(Before(s, run, m), run[m], i), run, m + 1, j + 1)
  }

  /** Event `j` neither reports the set, nor empties it, nor drops it. */
  ghost predicate LeavesPending(s: Tracking, run: seq<Event>, m: nat, i: nat, j: nat)
    requires m <= j < |run| && Opens(Before(s, run, m), run[m], i)
  {
    if run[j].Ticked? then
      !Settled(JudgedAt(s, run, m, i, j), run[j].now) && JudgedAt(s, run, m, i, j).sources != map[]
    else !run[j].event.UniverseChange?
  }

  ghost predicate PendingUntil(s: Tracking, run: seq<Event>, m: nat, i: nat, k: nat)
    requires m <= k <= |run| && m < |run| && Opens(Before(s, run, m), run[m], i)
  {
    forall j | m <= j < k :: LeavesPending(s, run, m, i, j)
  }

  /** Event `k` reports the set that event `m` opened. */
  ghost predicate ReportsSet(s: Tracking, run: seq<Event>, m: nat, i: nat, k: nat) {
    && m <= k < |run| && run[k].Ticked?
    && Opens(Before(s, run, m), run[m], i) && PendingUntil(s, run, m, i, k)
    && Settled(JudgedAt(s, run, m, i, k), run[k].now) && JudgedAt(s, run, m, i, k).sources != map[]
  }

  lemma {:induction false} PendingIsJudged(s: Tracking, run: seq<Event>, m: nat, i: nat, k: nat)
    requires PossibleRun(s, run) && m <= k < |run| && run[k].Ticked?
    requires Opens(Before(s, run, m), run[m], i) && PendingUntil(s, run, m, i, k)
    requires JudgedAt(s, run, m, i, k).sources != map[]
    ensures JudgedAt(s, run, m, i, k) in Judged(Before(s, run, k).sets, run[k].lists, run[k].now, run[k].wait)
    decreases k, 1
  {
    if k == m {
      assert PossibleAt(s, run, m);
      OpenedIsJudged(Before(s, run, m), run[m], i);
    } else {
      PendingIsKept(s, run, m, i, k);
      AgedIsJudged(Before(s, run, k).sets, run[k].lists, run[k].now, run[k].wait,
                   AgedSet(OpenedBy(Before(s, run, m), run[m], i), run, m + 1, k));
    }
  }

  lemma NextKeepsSet(s: Tracking, e: Event, x: TermSet)
    requires if e.Ticked? then x in Judged(s.sets, e.lists, e.now, e.wait) && !Settled(x, e.now)
             else x in s.sets && !e.event.UniverseChange?
    ensures x in Advanced(s, e).sets
  {
    if e.Ticked? {
      UnsettledIsKept(Judged(s.sets, e.lists, e.now, e.wait), e.now, x);
    }
  }

  lemma PendingBefore(s: Tracking, run: seq<Event>, m: nat, i: nat, k: nat)
    requires m < k <= |run| && Opens(Before(s, run, m), run[m], i) && PendingUntil(s, run, m, i, k)
    ensures PendingUntil(s, run, m, i, k - 1) && LeavesPending(s, run, m, i, k - 1)
    ensures !run[k - 1].Ticked? ==> m < k - 1 && !run[k - 1].event.UniverseChange?
    ensures !run[k - 1].Ticked? ==>
      JudgedAt(s, run, m, i, k - 1) == AgedSet(OpenedBy(Before(s, run, m), run[m], i), run, m + 1, k - 1)
    ensures run[k - 1].Ticked? ==> !Settled(JudgedAt(s, run, m, i, k - 1), run[k - 1].now)
    ensures run[k - 1].Ticked? ==> JudgedAt(s, run, m, i, k - 1).sources != map[]
  {
    assert LeavesPending(s, run, m, i, k - 1);
  }

  lemma KeptByTick(s: Tracking, run: seq<Event>, k: nat, x: TermSet)
    requires 0 < k <= |run| && run[k - 1].Ticked? && !Settled(x, run[k - 1].now)
    requires x in Judged(Before(s, run, k - 1).sets, run[k - 1].lists, run[k - 1].now, run[k - 1].wait)
    ensures x in Before(s, run, k).sets
  {
    NextKeepsSet(Before(s, run, k - 1), run[k - 1], x);
  }

  lemma KeptByOther(s: Tracking, run: seq<Event>, k: nat, x: TermSet)
    requires 0 < k <= |run| && !run[k - 1].Ticked? && !run[k - 1].event.UniverseChange?
    requires x in Before(s, run, k - 1).sets
    ensures x in Before(s, run, k).sets
  {
    NextKeepsSet(Before(s, run, k - 1), run[k - 1], x);
  }

  lemma SameSetIsKept(s: Tracking, run: seq<Event>, k: nat, x: TermSet, y: TermSet)
    requires 0 < k <= |run| && !run[k - 1].Ticked? && !run[k - 1].event.UniverseChange?
    requires x in Before(s, run, k - 1).sets && x == y
    ensures y in Before(s, run, k).sets
  {
    KeptByOther(s, run, k, x);
  }

  lemma PendingAfterTick(s: Tracking, run: seq<Event>, m: nat, i: nat, k: nat)
    requires PossibleRun(s, run) && m < k <= |run| && run[k - 1].Ticked?
    requires Opens(Before(s, run, m), run[m], i) && PendingUntil(s, run, m, i, k)
    ensures JudgedAt(s, run, m, i, k - 1) in Before(s, run, k).sets
    decreases k - 1, 2
  {
    PendingBefore(s, run, m, i, k);
    PendingIsJudged(s, run, m, i, k - 1);
    KeptByTick(s, run, k, JudgedAt(s, run, m, i, k - 1));
  }

  lemma PendingAfterOther(s: Tracking, run: seq<Event>, m: nat, i: nat, k: nat)
    requires m < k - 1 < |run| && Opens(Before(s, run, m), run[m], i)
    requires !run[k - 1].Ticked? && !run[k - 1].event.UniverseChange?
    requires JudgedAt(s, run, m, i, k - 2) in Before(s, run, k - 1).sets
    ensures JudgedAt(s, run, m, i, k - 1) in Before(s, run, k).sets
  {
    SameAsBefore(s, run, m, i, k - 1);
    SameSetIsKept(s, run, k, JudgedAt(s, run, m, i, k - 2), JudgedAt(s, run, m, i, k - 1));
  }

  /** Only ticks change the set. */
  lemma SameAsBefore(s: Tracking, run: seq<Event>, m: nat, i: nat, j: nat)
    requires m < j < |run| && !run[j].Ticked? && Opens(Before(s, run, m), run[m], i)
    ensures JudgedAt(s, run, m, i, j) == JudgedAt(s, run, m, i, j - 1)
  {
  }

  /** As long as it is pending, the set is among the termination sets. */
  lemma {:induction false} PendingIsKept(s: Tracking, run: seq<Event>, m: nat, i: nat, k: nat)
    requires PossibleRun(s, run) && m < k <= |run|
    requires Opens(Before(s, run, m), run[m], i) && PendingUntil(s, run, m, i, k)
    ensures JudgedAt(s, run, m, i, k - 1) in Before(s, run, k).sets
    decreases k, 0
  {
    if run[k - 1].Ticked? {
      PendingAfterTick(s, run, m, i, k);
    } else {
      assert m < k - 1 && !run[k - 1].event.UniverseChange? && PendingUntil(s, run, m, i, k - 1) by {
        PendingBefore(s, run, m, i, k);
      }
      PendingIsKept(s, run, m, i, k - 1);
      PendingAfterOther(s, run, m, i, k);
    }
  }

  // ---- What a report waits for, and whom it names ----

  /** Every unverified source that was in no set when this one was opened. */
  predicate UnverifiedAtOpening(sets: seq<TermSet>, l: Lists, h: Handle) {
    h in l.unknown && forall i | 0 <= i < |sets| :: h !in sets[i].sources
  }

  lemma JoinsUnverified(s: Tracking, e: Event, i: nat, h: Handle)
    requires Opens(s, e, i) && Possible(s, e) && UnverifiedAtOpening(FoundBy(s, e, i), e.lists, h)
    ensures h in OpenedBy(s, e, i).sources && !OpenedBy(s, e, i).sources[h].offline
  {
    ListsAreApart(e.lists, s.rx.sources, e.now);
    assert Handles(e.lists.offline)[i] in Handles(e.lists.offline);
    assert !Covers(FoundBy(s, e, i), h);
  }

  /** A set is settled when its wait is over and each member has been found offline, or online and so has left. */
  lemma SettledIff(x: TermSet, run: seq<Event>, from: nat, until: nat, now: nat)
    requires from <= until <= |run|
    ensures Settled(AgedSet(x, run, from, until), now) <==>
      && Expired(x.wait, now)
      && forall u: Handle | u in x.sources ::
           x.sources[u].offline || FoundOnlineIn(run, from, until, u) || FoundOfflineIn(run, from, until, u)
  {
    var aged := AgedSet(x, run, from, until);
    AgedSetExactly(x, run, from, until, 0);
    forall u: Handle | u in x.sources
      ensures (u in aged.sources ==> aged.sources[u].offline) <==>
        x.sources[u].offline || FoundOnlineIn(run, from, until, u) || FoundOfflineIn(run, from, until, u)
    {
      AgedSetExactly(x, run, from, until, u);
    }
    forall u: Handle | u in aged.sources ensures u in x.sources {
      AgedSetExactly(x, run, from, until, u);
    }
  }

  lemma ReportedIsSettled(s: Tracking, run: seq<Event>, m: nat, i: nat, k: nat)
    requires ReportsSet(s, run, m, i, k)
    ensures Opens(Before(s, run, m), run[m], i)
    ensures Settled(AgedSet(OpenedBy(Before(s, run, m), run[m], i), run, m + 1, k + 1), run[k].now)
  {
  }

  lemma SettledMembersWereFound(x: TermSet, run: seq<Event>, from: nat, until: nat, now: nat, h: Handle)
    requires from <= until <= |run| && Settled(AgedSet(x, run, from, until), now)
    requires h in x.sources && !x.sources[h].offline
    ensures FoundOnlineIn(run, from, until, h) || FoundOfflineIn(run, from, until, h)
  {
    AgedSetExactly(x, run, from, until, h);
  }

  /**
   A report waits for the verification of all sources that were unverified and in no set when its set was
   opened: each of them was found online or offline at a tick in between.
   */
  lemma ReportWaitsForItsSet(s: Tracking, run: seq<Event>, m: nat, i: nat, k: nat, h: Handle)
    requires PossibleRun(s, run) && ReportsSet(s, run, m, i, k)
    requires UnverifiedAtOpening(FoundBy(Before(s, run, m), run[m], i), run[m].lists, h)
    ensures FoundOnlineIn(run, m + 1, k + 1, h) || FoundOfflineIn(run, m + 1, k + 1, h)
  {
    assert PossibleAt(s, run, m);
    JoinsUnverified(Before(s, run, m), run[m], i, h);
    ReportedIsSettled(s, run, m, i, k);
    SettledMembersWereFound(OpenedBy(Before(s, run, m), run[m], i), run, m + 1, k + 1, run[k].now, h);
  }

  lemma ReportedFromSets(sets: seq<TermSet>, now: nat, h: Handle)
    ensures h in Handles(Lost(sets, now)) <==> exists y :: y in sets && Settled(y, now) && h in y.sources
  {
    var lost := Lost(sets, now);
    if h in Handles(lost) {
      var j :| 0 <= j < |lost| && Handles(lost)[j] == h;
      LostExactly(sets, now, lost[j]);
      var i: nat :| ReportedBy(sets, now, i, lost[j]);
      assert sets[i] in sets && Settled(sets[i], now) && h in sets[i].sources;
    }
    if y :| y in sets && Settled(y, now) && h in y.sources {
      var i: nat :| i < |sets| && sets[i] == y;
      var x := OfflineSource(h, y.sources[h].terminated);
      assert ReportedBy(sets, now, i, x);
      LostExactly(sets, now, x);
      var j :| 0 <= j < |lost| && lost[j] == x;
      assert Handles(lost)[j] == h;
    }
  }

  /** The source joined the set when it was opened, was not found online since, and event `k` reports the set. */
  ghost predicate GoesOutWith(s: Tracking, run: seq<Event>, m: nat, i: nat, k: nat, h: Handle) {
    && ReportsSet(s, run, m, i, k)
    && h in OpenedBy(Before(s, run, m), run[m], i).sources && !FoundOnlineIn(run, m + 1, k + 1, h)
  }

  lemma MembersGoOut(s: Tracking, run: seq<Event>, m: nat, i: nat, k: nat, h: Handle)
    requires PossibleRun(s, run) && GoesOutWith(s, run, m, i, k, h)
    ensures h in Handles(Report(Before(s, run, k), run[k]))
  {
    PendingIsJudged(s, run, m, i, k);
    AgedSetExactly(OpenedBy(Before(s, run, m), run[m], i), run, m + 1, k + 1, h);
    ReportedFromSets(Judged(Before(s, run, k).sets, run[k].lists, run[k].now, run[k].wait), run[k].now, h);
  }
}
