/**
 Source loss on one universe: sources that go offline together are reported together. A termination set
 holds sources whose status has to be verified before any of them is reported lost.
 */
module SourceLoss {
  import opened Common
  import opened SourceTracking
  import opened StatusLists

  datatype Entry = Entry(offline: bool, terminated: bool)

  datatype TermSet = TermSet(wait: Timer, sources: map<Handle, Entry>)

  ghost predicate Covers(sets: seq<TermSet>, h: Handle) {
    exists i :: 0 <= i < |sets| && h in sets[i].sources
  }

  /** Every set holds a source, and no source is in two sets. */
  ghost predicate WellKept(sets: seq<TermSet>) {
    && (forall i | 0 <= i < |sets| :: sets[i].sources != map[])
    && (forall i, j | 0 <= i < j < |sets| :: sets[i].sources.Keys !! sets[j].sources.Keys)
  }

  // ---- Sources found online ----

  function Without(s: TermSet, h: Handle): TermSet {
    s.(sources := s.sources - {h})
  }

  /** The source leaves its set; a set that is empty then is dropped. */
  function ConfirmOnline(sets: seq<TermSet>, h: Handle): seq<TermSet> {
    if sets == [] then [] else
      var front, last := ConfirmOnline(sets[..|sets| - 1], h), Without(sets[|sets| - 1], h);
      if last.sources == map[] then front else front + [last]
  }

  function MarkOnline(sets: seq<TermSet>, online: seq<Handle>): seq<TermSet> {
    if online == [] then sets
    else ConfirmOnline(MarkOnline(sets, online[..|online| - 1]), online[|online| - 1])
  }

  // ---- Sources found offline ----

  /** A source that was waiting for verification in a set is now known to be offline. */
  function Verified(s: TermSet, o: OfflineSource): TermSet {
    if o.handle in s.sources && !s.sources[o.handle].offline
    then s.(sources := s.sources[o.handle := Entry(true, o.terminated)]) else s
  }

  /** The set that a lost source opens: itself, and every unverified source that is in no set yet. */
  ghost function Opened(sets: seq<TermSet>, o: OfflineSource, unknown: seq<Handle>, now: nat, wait: nat): TermSet {
    TermSet(Timer(now, wait),
            (map u | u in unknown && !Covers(sets, u) :: Entry(false, false))[o.handle := Entry(true, o.terminated)])
  }

  ghost function OneOffline(sets: seq<TermSet>, o: OfflineSource, unknown: seq<Handle>, now: nat,
          wait: nat): seq<TermSet> {
    if Covers(sets, o.handle) then seq(|sets|, i requires 0 <= i < |sets| => Verified(sets[i], o))
    else sets + [Opened(sets, o, unknown, now, wait)]
  }

  ghost function MarkOffline(sets: seq<TermSet>, offline: seq<OfflineSource>, unknown: seq<Handle>, now: nat,
          wait: nat): seq<TermSet> {
    if offline == [] then sets
    else
      var front := MarkOffline(sets, offline[..|offline| - 1], unknown, now, wait);
      OneOffline(front, offline[|offline| - 1], unknown, now, wait)
  }

  // ---- Sources reported lost ----

  predicate AllOffline(s: TermSet) {
    forall h | h in s.sources :: s.sources[h].offline
  }

  /** The notification wait is over and everybody in the set is verified offline. */
  predicate Settled(s: TermSet, now: nat) {
    Expired(s.wait, now) && AllOffline(s)
  }

  /** The sources of a set from `candidate` on, in handle order. */
  function ListedFrom(sources: map<Handle, Entry>, candidate: Option<Handle>): seq<OfflineSource>
    requires candidate.Some? ==> candidate.value in sources
    decreases Remaining(candidate)
  {
    if candidate.None? then []
    else [OfflineSource(candidate.value, sources[candidate.value].terminated)]
         + ListedFrom(sources, After(sources.Keys, candidate.value))
  }

  function InOrder(sources: map<Handle, Entry>): seq<OfflineSource> {
    ListedFrom(sources, Next(sources.Keys, 0))
  }

  function Lost(sets: seq<TermSet>, now: nat): seq<OfflineSource> {
    if sets == [] then [] else
      var last := sets[|sets| - 1];
      Lost(sets[..|sets| - 1], now) + (if Settled(last, now) then InOrder(last.sources) else [])
  }

  function Unsettled(sets: seq<TermSet>, now: nat): seq<TermSet> {
    if sets == [] then [] else
      var front, last := Unsettled(sets[..|sets| - 1], now), sets[|sets| - 1];
      if Settled(last, now) then front else front + [last]
  }

  /** A tick's verdict on all sources, before anybody is reported. */
  ghost function Judged(sets: seq<TermSet>, l: Lists, now: nat, wait: nat): seq<TermSet> {
    MarkOnline(MarkOffline(sets, l.offline, l.unknown, now, wait), l.online)
  }

  // ---- What each step keeps and means ----

  /** The source is in a set, verified offline. */
  ghost predicate HeldOffline(sets: seq<TermSet>, h: Handle) {
    exists i :: 0 <= i < |sets| && h in sets[i].sources && sets[i].sources[h].offline
  }

  lemma OneMoreSet(front: seq<TermSet>, last: TermSet)
    ensures WellKept(front + [last]) <==>
      WellKept(front) && last.sources != map[] && forall k | k in last.sources :: !Covers(front, k)
    ensures forall k: Handle :: Covers(front + [last], k) <==> Covers(front, k) || k in last.sources
    ensures forall k: Handle ::
      HeldOffline(front + [last], k) <==> HeldOffline(front, k) || (k in last.sources && last.sources[k].offline)
  {
    var sets := front + [last];
    assert forall i | 0 <= i < |front| :: sets[i] == front[i];
    assert sets[|front|] == last;
  }

  /** `after` holds the source as `before` does, unless it is the one to take out. */
  ghost predicate TakenOutFor(before: seq<TermSet>, after: seq<TermSet>, h: Handle, k: Handle) {
    && (Covers(after, k) <==> k != h && Covers(before, k))
    && (HeldOffline(after, k) <==> k != h && HeldOffline(before, k))
  }

  ghost predicate TakenOut(before: seq<TermSet>, after: seq<TermSet>, h: Handle) {
    WellKept(after) && forall k: Handle :: TakenOutFor(before, after, h, k)
  }

  lemma ConfirmOnlineExactly(sets: seq<TermSet>, h: Handle)
    requires WellKept(sets)
    ensures WellKept(ConfirmOnline(sets, h))
    ensures forall k: Handle :: Covers(ConfirmOnline(sets, h), k) <==> k != h && Covers(sets, k)
    ensures forall k: Handle :: HeldOffline(ConfirmOnline(sets, h), k) <==> k != h && HeldOffline(sets, k)
  {
    ConfirmedIsTakenOut(sets, h);
    forall k: Handle
      ensures Covers(ConfirmOnline(sets, h), k) <==> k != h && Covers(sets, k)
      ensures HeldOffline(ConfirmOnline(sets, h), k) <==> k != h && HeldOffline(sets, k)
    {
      assert TakenOutFor(sets, ConfirmOnline(sets, h), h, k);
    }
  }

  lemma {:induction false} ConfirmedIsTakenOut(sets: seq<TermSet>, h: Handle)
    requires WellKept(sets)
    ensures TakenOut(sets, ConfirmOnline(sets, h), h)
  {
    if sets == [] {
      NothingTakenOut(h);
    } else {
      var front, last := sets[..|sets| - 1], sets[|sets| - 1];
      assert sets == front + [last];
      FrontIsWellKept(front, last);
      ConfirmedIsTakenOut(front, h);
      LastTakenOut(front, ConfirmOnline(front, h), last, h);
    }
  }

  lemma NothingTakenOut(h: Handle)
    ensures TakenOut([], [], h)
  {
  }

  lemma FrontIsWellKept(front: seq<TermSet>, last: TermSet)
    requires WellKept(front + [last])
    ensures WellKept(front)
  {
    OneMoreSet(front, last);
  }

  lemma LastTakenOut(front: seq<TermSet>, confirmed: seq<TermSet>, last: TermSet, h: Handle)
    requires WellKept(front + [last]) && TakenOut(front, confirmed, h)
    ensures var without := Without(last, h);
      TakenOut(front + [last], if without.sources == map[] then confirmed else confirmed + [without], h)
  {
    var without := Without(last, h);
    var after := if without.sources == map[] then confirmed else confirmed + [without];
    if without.sources != map[] {
      LastIsApart(front, confirmed, last, h);
    }
    forall k: Handle ensures TakenOutFor(front + [last], after, h, k) {
      assert TakenOutFor(front, confirmed, h, k);
      LastTakenOutFor(front, confirmed, last, h, k);
    }
  }

  lemma LastIsApart(front: seq<TermSet>, confirmed: seq<TermSet>, last: TermSet, h: Handle)
    requires WellKept(front + [last]) && TakenOut(front, confirmed, h) && Without(last, h).sources != map[]
    ensures WellKept(confirmed + [Without(last, h)])
  {
    OneMoreSet(front, last);
    OneMoreSet(confirmed, Without(last, h));
    forall k | k in Without(last, h).sources ensures !Covers(confirmed, k) {
      assert TakenOutFor(front, confirmed, h, k);
    }
  }

  lemma OneMoreFor(front: seq<TermSet>, last: TermSet, k: Handle)
    ensures Covers(front + [last], k) <==> Covers(front, k) || k in last.sources
    ensures HeldOffline(front + [last], k) <==> HeldOffline(front, k) || (k in last.sources && last.sources[k].offline)
  {
    OneMoreSet(front, last);
  }

  lemma LastTakenOutFor(front: seq<TermSet>, confirmed: seq<TermSet>, last: TermSet, h: Handle, k: Handle)
    requires TakenOutFor(front, confirmed, h, k)
    ensures var without := Without(last, h);
      TakenOutFor(front + [last], if without.sources == map[] then confirmed else confirmed + [without], h, k)
  {
    OneMoreFor(front, last, k);
    OneMoreFor(confirmed, Without(last, h), k);
    assert k in last.sources && k != h ==> k in Without(last, h).sources;
  }

  /** Confirming sources online takes exactly them out of the sets. */
  lemma {:induction false} MarkOnlineExactly(sets: seq<TermSet>, online: seq<Handle>)
    requires WellKept(sets)
    ensures WellKept(MarkOnline(sets, online))
    ensures forall k: Handle :: Covers(MarkOnline(sets, online), k) <==> k !in online && Covers(sets, k)
    ensures forall k: Handle :: HeldOffline(MarkOnline(sets, online), k) <==> k !in online && HeldOffline(sets, k)
  {
    if online != [] {
      var front, last := online[..|online| - 1], online[|online| - 1];
      assert online == front + [last];
      MarkOnlineExactly(sets, front);
      ConfirmOnlineExactly(MarkOnline(sets, front), last);
    }
  }

  lemma VerifiedInPlace(sets: seq<TermSet>, o: OfflineSource)
    requires WellKept(sets) && Covers(sets, o.handle)
    ensures var after := seq(|sets|, i requires 0 <= i < |sets| => Verified(sets[i], o));
      && WellKept(after)
      && (forall k: Handle :: Covers(after, k) <==> Covers(sets, k))
      && (forall k: Handle :: HeldOffline(after, k) <==> HeldOffline(sets, k) || k == o.handle)
  {
    var after := seq(|sets|, i requires 0 <= i < |sets| => Verified(sets[i], o));
    assert forall i | 0 <= i < |sets| ::
      after[i] == Verified(sets[i], o) && after[i].sources.Keys == sets[i].sources.Keys;
    forall k: Handle ensures Covers(after, k) <==> Covers(sets, k) {
      assert forall i | 0 <= i < |sets| :: k in after[i].sources <==> k in sets[i].sources;
    }
    forall k: Handle ensures HeldOffline(after, k) <==> HeldOffline(sets, k) || k == o.handle {
      if i :| 0 <= i < |sets| && k in sets[i].sources && (sets[i].sources[k].offline || k == o.handle) {
        assert k in after[i].sources && after[i].sources[k].offline;
      }
      if i :| 0 <= i < |sets| && k in after[i].sources && after[i].sources[k].offline {
        assert k in sets[i].sources;
      }
    }
    forall i | 0 <= i < |after| ensures after[i].sources != map[] {
      assert sets[i].sources != map[];
      assert after[i].sources.Keys == sets[i].sources.Keys;
    }
  }

  /** A lost source is held offline; opening a set for it takes in every unverified source that had none. */
  lemma OneOfflineExactly(sets: seq<TermSet>, o: OfflineSource, unknown: seq<Handle>, now: nat, wait: nat)
    requires WellKept(sets)
    ensures var after := OneOffline(sets, o, unknown, now, wait);
      && WellKept(after)
      && (forall k: Handle :: Covers(after, k)
            <==> Covers(sets, k) || k == o.handle || (k in unknown && !Covers(sets, o.handle)))
      && (forall k: Handle :: HeldOffline(after, k) <==> HeldOffline(sets, k) || k == o.handle)
  {
    if Covers(sets, o.handle) {
      VerifiedInPlace(sets, o);
    } else {
      OneMoreSet(sets, Opened(sets, o, unknown, now, wait));
    }
  }

  lemma {:induction false} MarkOfflineExactly(sets: seq<TermSet>, offline: seq<OfflineSource>, unknown: seq<Handle>,
          now: nat, wait: nat)
    requires WellKept(sets)
    ensures var after := MarkOffline(sets, offline, unknown, now, wait);
      && WellKept(after)
      && (forall k: Handle :: Covers(sets, k) || k in Handles(offline) ==> Covers(after, k))
      && (forall k: Handle :: Covers(after, k) ==> Covers(sets, k) || k in Handles(offline) || k in unknown)
      && (forall k: Handle :: HeldOffline(after, k) <==> HeldOffline(sets, k) || k in Handles(offline))
  {
    if offline != [] {
      var front, last := offline[..|offline| - 1], offline[|offline| - 1];
      MarkOfflineExactly(sets, front, unknown, now, wait);
      OneOfflineExactly(MarkOffline(sets, front, unknown, now, wait), last, unknown, now, wait);
      assert Handles(offline) == Handles(front) + [last.handle];
    }
  }

  /** No online source is left in a set; exactly the offline ones, old and new, are held offline. */
  lemma JudgedExactly(sets: seq<TermSet>, l: Lists, now: nat, wait: nat)
    requires WellKept(sets)
    ensures var after := Judged(sets, l, now, wait);
      && WellKept(after)
      && (forall k: Handle :: Covers(after, k) ==>
           k !in l.online && (Covers(sets, k) || k in Handles(l.offline) || k in l.unknown))
      && (forall k: Handle :: HeldOffline(after, k)
           <==> k !in l.online && (HeldOffline(sets, k) || k in Handles(l.offline)))
  {
    MarkOfflineExactly(sets, l.offline, l.unknown, now, wait);
    MarkOnlineExactly(MarkOffline(sets, l.offline, l.unknown, now, wait), l.online);
  }

  // ---- Reports ----

  lemma {:induction false} ListedFromExactly(sources: map<Handle, Entry>, candidate: Option<Handle>, bound: int)
    requires IsNext(sources.Keys, bound, candidate)
    ensures var list := ListedFrom(sources, candidate);
      && (forall x :: x in list <==>
            x.handle in sources && x.handle >= bound && x.terminated == sources[x.handle].terminated)
      && (forall i, j | 0 <= i < j < |list| :: list[i].handle < list[j].handle)
    decreases Remaining(candidate)
  {
    if candidate.Some? {
      var h: int := candidate.value;
      var rest := ListedFrom(sources, After(sources.Keys, candidate.value));
      ListedFromExactly(sources, After(sources.Keys, candidate.value), h + 1);
      forall i | 0 <= i < |rest| ensures candidate.value < rest[i].handle {
        assert rest[i] in rest;
      }
    }
  }

  lemma InOrderExactly(sources: map<Handle, Entry>)
    ensures var list := InOrder(sources);
      && (forall x :: x in list <==> x.handle in sources && x.terminated == sources[x.handle].terminated)
      && (forall i, j | 0 <= i < j < |list| :: list[i].handle < list[j].handle)
  {
    ListedFromExactly(sources, Next(sources.Keys, 0), 0);
  }

  ghost predicate ReportedBy(sets: seq<TermSet>, now: nat, i: nat, x: OfflineSource) {
    i < |sets| && Settled(sets[i], now) && x.handle in sets[i].sources
      && x.terminated == sets[i].sources[x.handle].terminated
  }

  /** Reported are exactly the members of settled sets, with the way each one was lost. */
  lemma {:induction false} LostExactly(sets: seq<TermSet>, now: nat, x: OfflineSource)
    ensures x in Lost(sets, now) <==> exists i :: ReportedBy(sets, now, i, x)
  {
    if sets != [] {
      var front, last := sets[..|sets| - 1], sets[|sets| - 1];
      LostExactly(front, now, x);
      InOrderExactly(last.sources);
      assert sets == front + [last];
      if i :| ReportedBy(sets, now, i, x) {
        assert i == |front| || ReportedBy(front, now, i, x);
      }
      if i :| ReportedBy(front, now, i, x) {
        assert ReportedBy(sets, now, i, x);
      }
      if x in Lost(sets, now) && x !in Lost(front, now) {
        assert ReportedBy(sets, now, |front|, x);
      }
    }
  }

  /** All sources of a set are reported together or not at all. */
  lemma ReportedTogether(sets: seq<TermSet>, now: nat, i: nat, h: Handle)
    requires WellKept(sets) && i < |sets| && h in sets[i].sources
    ensures h in Handles(Lost(sets, now)) <==> Settled(sets[i], now)
  {
    var x := OfflineSource(h, sets[i].sources[h].terminated);
    LostExactly(sets, now, x);
    if Settled(sets[i], now) {
      assert ReportedBy(sets, now, i, x);
      var j :| 0 <= j < |Lost(sets, now)| && Lost(sets, now)[j] == x;
      assert Handles(Lost(sets, now))[j] == h;
    }
    if h in Handles(Lost(sets, now)) {
      var j :| 0 <= j < |Lost(sets, now)| && Handles(Lost(sets, now))[j] == h;
      LostExactly(sets, now, Lost(sets, now)[j]);
      var k :| ReportedBy(sets, now, k, Lost(sets, now)[j]);
      assert k == i;
    }
  }

  /** What is reported was held offline, is covered no longer, and nobody else leaves. */
  lemma {:induction false} UnsettledExactly(sets: seq<TermSet>, now: nat)
    requires WellKept(sets)
    ensures WellKept(Unsettled(sets, now))
    ensures forall k: Handle :: Covers(sets, k) <==> Covers(Unsettled(sets, now), k) || k in Handles(Lost(sets, now))
    ensures forall k: Handle :: k in Handles(Lost(sets, now)) ==>
      HeldOffline(sets, k) && !Covers(Unsettled(sets, now), k)
    ensures forall k: Handle ::
      HeldOffline(Unsettled(sets, now), k) <==> HeldOffline(sets, k) && k !in Handles(Lost(sets, now))
  {
    if sets != [] {
      var front, last := sets[..|sets| - 1], sets[|sets| - 1];
      assert sets == front + [last];
      OneMoreSet(front, last);
      UnsettledExactly(front, now);
      OneMoreSet(Unsettled(front, now), last);
      LastReported(front, last, now);
    }
  }

  lemma LastReported(front: seq<TermSet>, last: TermSet, now: nat)
    ensures forall k: Handle ::
      k in Handles(Lost(front + [last], now)) <==>
        k in Handles(Lost(front, now)) || (Settled(last, now) && k in last.sources)
  {
    var sets := front + [last];
    assert sets[..|sets| - 1] == front;
    var list := if Settled(last, now) then InOrder(last.sources) else [];
    assert Handles(Lost(sets, now)) == Handles(Lost(front, now)) + Handles(list);
    InOrderExactly(last.sources);
    forall k: Handle ensures k in Handles(list) <==> Settled(last, now) && k in last.sources {
      if Settled(last, now) && k in last.sources {
        var j :| 0 <= j < |list| && list[j] == OfflineSource(k, last.sources[k].terminated);
        assert Handles(list)[j] == k;
      }
      if k in Handles(list) {
        var j :| 0 <= j < |list| && Handles(list)[j] == k;
        assert list[j] in list;
      }
    }
  }

  lemma {:induction false} NobodyReportedTwice(sets: seq<TermSet>, now: nat)
    requires WellKept(sets)
    ensures forall i, j | 0 <= i < j < |Lost(sets, now)| :: Lost(sets, now)[i].handle != Lost(sets, now)[j].handle
  {
    if sets != [] {
      var front, last := sets[..|sets| - 1], sets[|sets| - 1];
      assert sets == front + [last];
      OneMoreSet(front, last);
      NobodyReportedTwice(front, now);
      UnsettledExactly(front, now);
      InOrderExactly(last.sources);
      var earlier, list := Lost(front, now), if Settled(last, now) then InOrder(last.sources) else [];
      forall i, j | 0 <= i < |earlier| && 0 <= j < |list| ensures earlier[i].handle != list[j].handle {
        assert Handles(earlier)[i] in Handles(earlier);
        assert list[j] in list;
      }
    }
  }

  /** With nobody else to verify and no wait set, a lost source is reported by the tick that finds it. */
  lemma LoneLoss(o: OfflineSource, now: nat)
    ensures Lost(Judged([], Lists([o], [], [], []), now, 0), now) == [o]
  {
    var none: seq<TermSet> := [];
    var lone := TermSet(Timer(now, 0), map[o.handle := Entry(true, o.terminated)]);
    assert Opened(none, o, [], now, 0) == lone;
    assert [o][..0] == [] && MarkOffline(none, [], [], now, 0) == none && OneOffline(none, o, [], now, 0) == [lone];
    assert MarkOffline(none, [o], [], now, 0) == [lone] && MarkOnline([lone], []) == [lone];
    assert [lone][..0] == none && Lost(none, now) == [] && Settled(lone, now);
    LoneMember(lone.sources, o);
  }

  lemma LoneMember(sources: map<Handle, Entry>, o: OfflineSource)
    requires sources.Keys == {o.handle} && sources[o.handle].terminated == o.terminated
    ensures InOrder(sources) == [o]
  {
    assert Next(sources.Keys, 0) == Some(o.handle) && After(sources.Keys, o.handle) == None;
    assert ListedFrom(sources, None) == [];
  }

  // ---- The list itself ----

  lemma ConfirmOneMore(sets: seq<TermSet>, n: nat, h: Handle)
    requires n < |sets|
    ensures var front, last := ConfirmOnline(sets[..n], h), Without(sets[n], h);
      ConfirmOnline(sets[..n + 1], h) == if |last.sources| == 0 then front else front + [last]
  {
    assert sets[..n + 1][..n] == sets[..n];
  }

  lemma SettleOneMore(sets: seq<TermSet>, n: nat, now: nat)
    requires n < |sets|
    ensures var settled := Settled(sets[n], now);
      && Lost(sets[..n + 1], now) == Lost(sets[..n], now) + (if settled then InOrder(sets[n].sources) else [])
      && Unsettled(sets[..n + 1], now) == if settled then Unsettled(sets[..n], now)
           else Unsettled(sets[..n], now) + [sets[n]]
  {
    assert sets[..n + 1][..n] == sets[..n];
  }

  /** Unlinking, replacing or passing the first element after `done`. */
  lemma Spliced<E>(done: seq<E>, rest: seq<E>, x: E)
    requires rest != []
    ensures var all := done + rest;
      && all[|done|] == rest[0]
      && all[..|done|] + all[|done| + 1..] == done + rest[1..]
      && all[|done| := x] == (done + [x]) + rest[1..]
      && all == (done + [rest[0]]) + rest[1..]
  {
  }

  /** The termination sets of one receiver, in the order they were opened. */
  class TermSetList {
    var sets: seq<TermSet>

    constructor ()
      ensures sets == []
    {
      sets := [];
    }

    method Clear()
      modifies this
      ensures sets == []
    {
      sets := [];
    }

    /** Take one source out of its set, unlinking a set that becomes empty. */
    method RemoveFromAll(h: Handle)
      modifies this
      ensures sets == ConfirmOnline(old(sets), h)
    {
      ghost var done: seq<TermSet>, rest, n := [], sets, 0;
      var i := 0;
      while i < |sets|
        invariant n <= |old(sets)| && i == |done| && sets == done + rest
        invariant rest == old(sets)[n..] && done == ConfirmOnline(old(sets)[..n], h)
        decreases |rest|
      {
        ConfirmOneMore(old(sets), n, h);
        Spliced(done, rest, Without(rest[0], h));
        var without := Without(sets[i], h);
        if |without.sources| == 0 {
          sets := sets[..i] + sets[i + 1..];
        } else {
          sets := sets[i := without];
          i := i + 1;
          done := done + [without];
        }
        rest, n := rest[1..], n + 1;
      }
      assert old(sets)[..n] == old(sets);
    }

    method MarkSourcesOnline(online: seq<Handle>)
      modifies this
      ensures sets == MarkOnline(old(sets), online)
    {
      for k := 0 to |online|
        invariant sets == MarkOnline(old(sets), online[..k])
      {
        assert online[..k + 1] == online[..k] + [online[k]];
        RemoveFromAll(online[k]);
      }
      assert online[..|online|] == online;
    }

    /** Look a source up across all sets. */
    method FindExisting(h: Handle) returns (index: nat, found: bool)
      ensures found == Covers(sets, h)
      ensures found ==> index < |sets| && h in sets[index].sources
    {
      index, found := 0, false;
      while !found && index < |sets|
        invariant index <= |sets| && forall i | 0 <= i < index :: h !in sets[i].sources
        invariant found ==> index < |sets| && h in sets[index].sources
        decreases |sets| - index, !found
      {
        if h in sets[index].sources {
          found := true;
        } else {
          index := index + 1;
        }
      }
    }

    /** Open a set for a source just lost. */
    method OpenSet(o: OfflineSource, unknown: seq<Handle>, now: nat, wait: nat)
      modifies this
      ensures sets == old(sets) + [Opened(old(sets), o, unknown, now, wait)]
    {
      var members: map<Handle, Entry> := map[];
      for k := 0 to |unknown|
        invariant sets == old(sets)
        invariant members == map u | u in unknown[..k] && !Covers(sets, u) :: Entry(false, false)
      {
        assert unknown[..k + 1] == unknown[..k] + [unknown[k]];
        var _, found := FindExisting(unknown[k]);
        if !found {
          members := members[unknown[k] := Entry(false, false)];
        }
      }
      assert unknown[..|unknown|] == unknown;
      assert members[o.handle := Entry(true, o.terminated)] == Opened(sets, o, unknown, now, wait).sources;
      sets := sets + [TermSet(Timer(now, wait), members[o.handle := Entry(true, o.terminated)])];
    }

    method MarkSourceOffline(o: OfflineSource, unknown: seq<Handle>, now: nat, wait: nat)
      requires WellKept(sets)
      modifies this
      ensures sets == OneOffline(old(sets), o, unknown, now, wait)
    {
      var index, found := FindExisting(o.handle);
      if found {
        ghost var before := sets;
        if !sets[index].sources[o.handle].offline {
          sets := sets[index := sets[index].(sources := sets[index].sources[o.handle := Entry(true, o.terminated)])];
        }
        forall j | 0 <= j < |before| ensures sets[j] == Verified(before[j], o) {
          assert j != index ==> o.handle !in before[j].sources;
        }
        assert sets == OneOffline(before, o, unknown, now, wait);
      } else {
        OpenSet(o, unknown, now, wait);
      }
    }

    method MarkSourcesOffline(offline: seq<OfflineSource>, unknown: seq<Handle>, now: nat, wait: nat)
      requires WellKept(sets)
      modifies this
      ensures sets == MarkOffline(old(sets), offline, unknown, now, wait)
    {
      for k := 0 to |offline|
        invariant sets == MarkOffline(old(sets), offline[..k], unknown, now, wait)
      {
        assert offline[..k + 1] == offline[..k] + [offline[k]];
        MarkOfflineExactly(old(sets), offline[..k], unknown, now, wait);
        MarkSourceOffline(offline[k], unknown, now, wait);
      }
      assert offline[..|offline|] == offline;
    }

    /**
     Add the members of a set to the report one by one; the first one that is not verified offline rolls
     the report back.
     */
    method ReportSet(s: TermSet, sofar: seq<OfflineSource>) returns (lost: seq<OfflineSource>, settled: bool)
      ensures settled == AllOffline(s)
      ensures lost == if settled then sofar + InOrder(s.sources) else sofar
    {
      lost, settled := sofar, true;
      var added := 0;
      var keys := s.sources.Keys;
      var source := Next(keys, 0);
      ghost var bound: int := 0;
      while settled && source.Some?
        invariant IsNext(keys, bound, source) && 0 <= bound
        invariant settled ==> added + |sofar| == |lost| && lost[..|sofar|] == sofar
        invariant settled ==> lost + ListedFrom(s.sources, source) == sofar + InOrder(s.sources)
        invariant settled ==> forall h | h in keys && h < bound :: s.sources[h].offline
        invariant !settled ==> !AllOffline(s) && lost == sofar
        decreases Remaining(source), settled
      {
        var h := source.value;
        if s.sources[h].offline {
          ghost var rest := ListedFrom(s.sources, After(keys, h));
          ghost var entry := OfflineSource(h, s.sources[h].terminated);
          assert lost + ([entry] + rest) == (lost + [entry]) + rest;
          lost := lost + [OfflineSource(h, s.sources[h].terminated)];
          added := added + 1;
          bound := h as int + 1;
          source := After(keys, h);
        } else {
          lost := lost[..|lost| - added];
          settled := false;
        }
      }
      if settled {
        assert lost + [] == lost;
      }
    }

    /** Report every set whose wait is over and whose members are all verified offline, and drop it. */
    method GetExpiredSources(now: nat) returns (lost: seq<OfflineSource>)
      modifies this
      ensures lost == Lost(old(sets), now) && sets == Unsettled(old(sets), now)
    {
      ghost var done: seq<TermSet>, rest, n := [], sets, 0;
      lost := [];
      var i := 0;
      while i < |sets|
        invariant n <= |old(sets)| && i == |done| && sets == done + rest
        invariant rest == old(sets)[n..] && done == Unsettled(old(sets)[..n], now) && lost == Lost(old(sets)[..n], now)
        decreases |rest|
      {
        SettleOneMore(old(sets), n, now);
        Spliced(done, rest, rest[0]);
        var settled := false;
        if Expired(sets[i].wait, now) {
          lost, settled := ReportSet(sets[i], lost);
        }
        if settled {
          sets := sets[..i] + sets[i + 1..];
        } else {
          i := i + 1;
          done := done + [rest[0]];
        }
        rest, n := rest[1..], n + 1;
      }
      assert old(sets)[..n] == old(sets);
    }
  }
}
