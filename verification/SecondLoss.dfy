/** A run of one receiver in which a second lost source is reported before the first. */
module SecondLoss {
  import opened Common
  import opened Interfaces
  import opened SourceTracking
  import opened StatusLists
  import opened SourceLoss
  import opened LossRuns
  import M = ReceiverModel
  import S = SamplingPeriod

  const HERE := Netint(1, 1)
  const LISTED := [Interface(HERE, true)]
  const WAIT: nat := 1000

  ghost const START := Created(M.Settings(false, 0), 0, LISTED)

  function Dmx(now: nat, h: Handle, sequence: byte): Event {
    Other(M.Data(now, h, HERE, Packet(STARTCODE_DMX, sequence, false, false)))
  }

  function Goodbye(now: nat, h: Handle, sequence: byte): Event {
    Other(M.Data(now, h, HERE, Packet(STARTCODE_DMX, sequence, false, true)))
  }

  const ALL_ONLINE := Lists([], [1, 2, 3], [], [])
  const FIRST_OFFLINE := Lists([OfflineSource(1, true)], [2], [3], [])
  const BOTH_OFFLINE := Lists([OfflineSource(1, true), OfflineSource(2, true)], [], [3], [])

  /** All three are online, then 1 says goodbye while only 2 goes on sending, then 2 says goodbye. */
  const EVENTS: seq<Event> := [
    Dmx(0, 1, 0), Dmx(0, 2, 0), Dmx(0, 3, 0), Ticked(10, WAIT, ALL_ONLINE),
    Goodbye(20, 1, 1), Dmx(25, 2, 1), Ticked(30, WAIT, FIRST_OFFLINE),
    Goodbye(40, 2, 2), Ticked(50, WAIT, BOTH_OFFLINE), Ticked(1051, WAIT, BOTH_OFFLINE)]

  // ---- The sources ----

  const HEARD := Source(HERE, Timer(0, SOURCE_LOSS_TIMEOUT), 0, false, true, HaveDmxOnly, Timer(0, 0))
  const QUIET := HEARD.(dmxSinceLastTick := false)
  const FIRST_GONE := QUIET.(terminated := true, packetTimer := Timer(20, 0))
  const SECOND_SENDS := HEARD.(sequence := 1, packetTimer := Timer(25, SOURCE_LOSS_TIMEOUT))
  const SECOND_QUIET := SECOND_SENDS.(dmxSinceLastTick := false)
  const SECOND_GONE := SECOND_QUIET.(terminated := true, packetTimer := Timer(40, 0))

  function Three(a: Source, b: Source, c: Source): map<Handle, Source> {
    map[1 := a, 2 := b, 3 := c]
  }

  function Receiving(announced: bool, sources: map<Handle, Source>): M.Receiver {
    M.Receiver(M.Settings(false, 0), [HERE], S.Sampling(true, announced, Timer(0, S.SAMPLE_TIME), map[HERE := false]),
               sources, false)
  }

  // ---- The termination sets ----

  const FIRST_SET := TermSet(Timer(30, WAIT), map[1 := Entry(true, true), 3 := Entry(false, false)])
  const SECOND_SET := TermSet(Timer(50, WAIT), map[2 := Entry(true, true)])

  /** A source that is held offline already is not news. */
  lemma OldNews(sets: seq<TermSet>, o: OfflineSource, unknown: seq<Handle>, now: nat, wait: nat)
    requires WellKept(sets) && HeldOffline(sets, o.handle)
    ensures OneOffline(sets, o, unknown, now, wait) == sets
  {
    var i :| 0 <= i < |sets| && o.handle in sets[i].sources && sets[i].sources[o.handle].offline;
    forall j | 0 <= j < |sets| ensures Verified(sets[j], o) == sets[j] {
      assert j != i ==> o.handle !in sets[j].sources;
    }
  }

  lemma BothSets()
    ensures WellKept([FIRST_SET, SECOND_SET]) && WellKept([FIRST_SET])
    ensures HeldOffline([FIRST_SET], 1) && HeldOffline([FIRST_SET, SECOND_SET], 1)
      && HeldOffline([FIRST_SET, SECOND_SET], 2)
    ensures Covers([FIRST_SET], 1) && Covers([FIRST_SET], 3) && !Covers([FIRST_SET], 2)
  {
    var sets := [FIRST_SET, SECOND_SET];
    assert 1 in sets[0].sources && 2 in sets[1].sources;
    assert 1 in [FIRST_SET][0].sources && 3 in [FIRST_SET][0].sources;
  }

  lemma FirstSetIsOpened()
    ensures Opened([], OfflineSource(1, true), [3], 30, WAIT) == FIRST_SET
  {
    var sets: seq<TermSet> := [];
    assert forall u: Handle :: u in [3] && !Covers(sets, u) <==> u == 3;
  }

  /** The second loss finds source 3 spoken for and opens a set of its own. */
  lemma SecondSetIsOpened()
    ensures Opened([FIRST_SET], OfflineSource(2, true), [3], 50, WAIT) == SECOND_SET
  {
    BothSets();
  }

  lemma JudgedAtFirst()
    ensures Judged([], FIRST_OFFLINE, 30, WAIT) == [FIRST_SET]
  {
    var none: seq<TermSet> := [];
    var offline := FIRST_OFFLINE.offline;
    FirstSetIsOpened();
    assert offline[..0] == [] && MarkOffline(none, [], [3], 30, WAIT) == none;
    assert OneOffline(none, offline[0], [3], 30, WAIT) == [FIRST_SET];
    assert MarkOffline(none, offline, [3], 30, WAIT) == [FIRST_SET];
    assert Without(FIRST_SET, 2) == FIRST_SET && 1 in FIRST_SET.sources;
    assert [FIRST_SET][..0] == none && ConfirmOnline(none, 2) == none && ConfirmOnline([FIRST_SET], 2) == [FIRST_SET];
    assert [2][..0] == [] && MarkOnline([FIRST_SET], []) == [FIRST_SET];
    assert MarkOnline([FIRST_SET], [2]) == [FIRST_SET];
  }

  lemma JudgedBoth(sets: seq<TermSet>, now: nat, one: seq<TermSet>, both: seq<TermSet>)
    requires one == OneOffline(sets, OfflineSource(1, true), [3], now, WAIT)
    requires both == OneOffline(one, OfflineSource(2, true), [3], now, WAIT)
    ensures Judged(sets, BOTH_OFFLINE, now, WAIT) == both
  {
    var offline := BOTH_OFFLINE.offline;
    assert offline[..1] == [OfflineSource(1, true)] && offline[..1][..0] == [];
    assert MarkOffline(sets, [], [3], now, WAIT) == sets;
    assert MarkOffline(sets, offline[..1], [3], now, WAIT) == one;
    assert MarkOffline(sets, offline, [3], now, WAIT) == both;
    assert MarkOnline(both, []) == both;
  }

  lemma JudgedAtSecond()
    ensures Judged([FIRST_SET], BOTH_OFFLINE, 50, WAIT) == [FIRST_SET, SECOND_SET]
  {
    BothSets();
    SecondSetIsOpened();
    OldNews([FIRST_SET], OfflineSource(1, true), [3], 50, WAIT);
    JudgedBoth([FIRST_SET], 50, [FIRST_SET], [FIRST_SET, SECOND_SET]);
  }

  lemma JudgedLater()
    ensures Judged([FIRST_SET, SECOND_SET], BOTH_OFFLINE, 1051, WAIT) == [FIRST_SET, SECOND_SET]
  {
    BothSets();
    OldNews([FIRST_SET, SECOND_SET], OfflineSource(1, true), [3], 1051, WAIT);
    OldNews([FIRST_SET, SECOND_SET], OfflineSource(2, true), [3], 1051, WAIT);
    JudgedBoth([FIRST_SET, SECOND_SET], 1051, [FIRST_SET, SECOND_SET], [FIRST_SET, SECOND_SET]);
  }

  lemma FirstSetWaits(now: nat)
    ensures Lost([FIRST_SET], now) == [] && Unsettled([FIRST_SET], now) == [FIRST_SET]
  {
    var none: seq<TermSet> := [];
    assert FIRST_SET.sources[3] == Entry(false, false);
    assert [FIRST_SET][..0] == none && Unsettled(none, now) == [] && Lost(none, now) == [];
  }

  lemma BothWait()
    ensures Lost([FIRST_SET, SECOND_SET], 50) == [] && Unsettled([FIRST_SET, SECOND_SET], 50) == [FIRST_SET, SECOND_SET]
  {
    FirstSetWaits(50);
    assert [FIRST_SET, SECOND_SET][..1] == [FIRST_SET] && !Expired(SECOND_SET.wait, 50);
  }

  lemma SecondSetSettles()
    ensures Lost([FIRST_SET, SECOND_SET], 1051) == [OfflineSource(2, true)]
    ensures Unsettled([FIRST_SET, SECOND_SET], 1051) == [FIRST_SET]
  {
    FirstSetWaits(1051);
    assert [FIRST_SET, SECOND_SET][..1] == [FIRST_SET] && Settled(SECOND_SET, 1051);
    LoneMember(SECOND_SET.sources, OfflineSource(2, true));
  }

  // ---- The run ----

  ghost function Standing(announced: bool, sources: map<Handle, Source>, sets: seq<TermSet>): Tracking {
    Tracking(Receiving(announced, sources), sets)
  }

  ghost const ONE_HEARD := Standing(false, map[1 := HEARD], [])
  ghost const TWO_HEARD := Standing(false, map[1 := HEARD, 2 := HEARD], [])
  ghost const ALL_HEARD := Standing(false, Three(HEARD, HEARD, HEARD), [])
  ghost const ALL_QUIET := Standing(true, Three(QUIET, QUIET, QUIET), [])
  ghost const FIRST_LEFT := Standing(true, Three(FIRST_GONE, QUIET, QUIET), [])
  ghost const SECOND_HEARD := Standing(true, Three(FIRST_GONE, SECOND_SENDS, QUIET), [])
  ghost const FIRST_FOUND := Standing(true, Three(FIRST_GONE, SECOND_QUIET, QUIET), [FIRST_SET])
  ghost const SECOND_LEFT := Standing(true, Three(FIRST_GONE, SECOND_GONE, QUIET), [FIRST_SET])
  ghost const SECOND_FOUND := Standing(true, Three(FIRST_GONE, SECOND_GONE, QUIET), [FIRST_SET, SECOND_SET])
  ghost const SECOND_REPORTED := Standing(true, map[1 := FIRST_GONE, 3 := QUIET], [FIRST_SET])

  lemma StartsEmpty()
    ensures START == Standing(false, map[], [])
  {
    assert LISTED[..0] == [] && Usable(LISTED[..0]) == [] && Usable(LISTED) == [HERE];
    assert M.AllCurrent([HERE]) == map[HERE := false];
  }

  lemma AllAreHeard()
    ensures Advanced(Standing(false, map[], []), Dmx(0, 1, 0)) == ONE_HEARD
    ensures Advanced(ONE_HEARD, Dmx(0, 2, 0)) == TWO_HEARD && Advanced(TWO_HEARD, Dmx(0, 3, 0)) == ALL_HEARD
  {
    assert NewSource(HERE, Packet(STARTCODE_DMX, 0, false, false), true, 0) == HEARD;
    var none: map<Handle, Source> := map[];
    assert none[1 := HEARD] == map[1 := HEARD] && map[1 := HEARD][2 := HEARD] == map[1 := HEARD, 2 := HEARD];
    assert map[1 := HEARD, 2 := HEARD][3 := HEARD] == Three(HEARD, HEARD, HEARD);
  }

  lemma FirstSaysGoodbye()
    ensures Advanced(ALL_QUIET, Goodbye(20, 1, 1)) == FIRST_LEFT
  {
    assert Three(QUIET, QUIET, QUIET)[1 := FIRST_GONE] == Three(FIRST_GONE, QUIET, QUIET);
  }

  lemma SecondGoesOn()
    ensures Advanced(FIRST_LEFT, Dmx(25, 2, 1)) == SECOND_HEARD
  {
    assert Three(FIRST_GONE, QUIET, QUIET)[2 := SECOND_SENDS] == Three(FIRST_GONE, SECOND_SENDS, QUIET);
  }

  lemma SecondSaysGoodbye()
    ensures Advanced(FIRST_FOUND, Goodbye(40, 2, 2)) == SECOND_LEFT
  {
    assert Three(FIRST_GONE, SECOND_QUIET, QUIET)[2 := SECOND_GONE] == Three(FIRST_GONE, SECOND_GONE, QUIET);
  }

  /** A tick inside the sampling period, once it has been announced or not. */
  lemma StillSampling(announced: bool, sources: map<Handle, Source>, now: nat, lost: seq<Handle>)
    requires now <= S.SAMPLE_TIME
    ensures M.Step(Receiving(announced, sources), M.Tick(now, lost)).0
      == Receiving(true, M.SourcesKept(sources, now, lost))
  {
  }

  /** What a tick does once it is known how it judges the sets, what becomes of them and which sources stay. */
  lemma TickStep(announced: bool, sources: map<Handle, Source>, sets: seq<TermSet>, now: nat, l: Lists,
          judged: seq<TermSet>, lost: seq<OfflineSource>, kept: seq<TermSet>, after: map<Handle, Source>)
    requires now <= S.SAMPLE_TIME && Sorted(l, sources, now, 0x10000)
    requires Judged(sets, l, now, WAIT) == judged && Lost(judged, now) == lost && Unsettled(judged, now) == kept
    requires M.SourcesKept(sources, now, Handles(lost)) == after
    ensures var s := Standing(announced, sources, sets);
      && Possible(s, Ticked(now, WAIT, l)) && Report(s, Ticked(now, WAIT, l)) == lost
      && Advanced(s, Ticked(now, WAIT, l)) == Standing(true, after, kept)
  {
    StillSampling(announced, sources, now, Handles(lost));
  }

  lemma ThreeInOrder(sources: map<Handle, Source>, now: nat)
    requires sources.Keys == {1, 2, 3}
    ensures IsNext(sources.Keys, 0, Some(1)) && IsNext(sources.Keys, 2, Some(2)) && IsNext(sources.Keys, 3, Some(3))
    ensures IsNext(sources.Keys, 4, None) && Sorted(EMPTY, sources, now, 0)
  {
    assert forall h: Handle :: h in sources ==> h == 1 || h == 2 || h == 3;
  }

  /** The lists of three sources, filled in handle order. */
  function ThreeListed(a: Source, b: Source, c: Source, now: nat): Lists {
    var one := Listed(EMPTY, 1, Classify(a, now));
    var two := Listed(one, 2, Classify(b, now));
    Listed(two, 3, Classify(c, now))
  }

  lemma ThreeSorted(a: Source, b: Source, c: Source, now: nat)
    ensures Sorted(ThreeListed(a, b, c, now), Three(a, b, c), now, 0x10000)
  {
    var sources := Three(a, b, c);
    var one := Listed(EMPTY, 1, Classify(a, now));
    var two := Listed(one, 2, Classify(b, now));
    ThreeInOrder(sources, now);
    SortedOneMore(EMPTY, sources, now, 0, 1);
    SortedOneMore(one, sources, now, 2, 2);
    SortedOneMore(two, sources, now, 3, 3);
    SortedAll(Listed(two, 3, Classify(c, now)), sources, now, 4);
  }

  function ThreeTicked(a: Source, b: Source, c: Source, now: nat): map<Handle, Source> {
    Three(SourceTracking.Ticked(a, now), SourceTracking.Ticked(b, now), SourceTracking.Ticked(c, now))
  }

  lemma ThreeKept(a: Source, b: Source, c: Source, now: nat)
    requires a.state != WaitingForPap && b.state != WaitingForPap && c.state != WaitingForPap
    ensures M.SourcesKept(Three(a, b, c), now, []) == ThreeTicked(a, b, c, now)
  {
  }

  lemma NothingToJudge()
    ensures Judged([], ALL_ONLINE, 10, WAIT) == [] && Lost([], 10) == [] && Unsettled([], 10) == []
  {
    var none: seq<TermSet> := [];
    assert [1, 2, 3][..2] == [1, 2] && [1, 2][..1] == [1] && [1][..0] == [];
    assert MarkOffline(none, [], [], 10, WAIT) == none && MarkOnline(none, []) == none;
    assert MarkOnline(none, [1]) == none && MarkOnline(none, [1, 2]) == none;
  }

  /** A tick of three sources that reports nobody. */
  lemma SilentTick(announced: bool, a: Source, b: Source, c: Source, sets: seq<TermSet>, now: nat, l: Lists,
          kept: seq<TermSet>)
    requires a.state != WaitingForPap && b.state != WaitingForPap && c.state != WaitingForPap && now <= S.SAMPLE_TIME
    requires l == ThreeListed(a, b, c, now)
    requires Judged(sets, l, now, WAIT) == kept && Lost(kept, now) == [] && Unsettled(kept, now) == kept
    ensures var s := Standing(announced, Three(a, b, c), sets);
      && Possible(s, Ticked(now, WAIT, l)) && Report(s, Ticked(now, WAIT, l)) == []
      && Advanced(s, Ticked(now, WAIT, l)) == Standing(true, ThreeTicked(a, b, c, now), kept)
  {
    ThreeSorted(a, b, c, now);
    ThreeKept(a, b, c, now);
    assert Handles([]) == [];
    TickStep(announced, Three(a, b, c), sets, now, l, kept, [], kept,
             ThreeTicked(a, b, c, now));
  }

  lemma ListsOfTheTicks()
    ensures ThreeListed(HEARD, HEARD, HEARD, 10) == ALL_ONLINE
    ensures ThreeListed(FIRST_GONE, SECOND_SENDS, QUIET, 30) == FIRST_OFFLINE
  {
    assert Listed(Listed(EMPTY, 1, Online), 2, Online) == Lists([], [1, 2], [], []);
    assert Classify(FIRST_GONE, 30) == Offline(true);
    assert Classify(SECOND_SENDS, 30) == Online && Classify(QUIET, 30) == Unknown;
    assert Listed(Listed(EMPTY, 1, Offline(true)), 2, Online) == Lists([OfflineSource(1, true)], [2], [], []);
  }

  lemma ListsOfBothOffline(now: nat)
    requires 50 <= now <= 2000
    ensures ThreeListed(FIRST_GONE, SECOND_GONE, QUIET, now) == BOTH_OFFLINE
  {
    assert Classify(FIRST_GONE, now) == Offline(true) && Classify(SECOND_GONE, now) == Offline(true);
    assert Classify(QUIET, now) == Unknown;
    assert Listed(EMPTY, 1, Offline(true)) == Lists([OfflineSource(1, true)], [], [], []);
    assert Listed(Lists([OfflineSource(1, true)], [], [], []), 2, Offline(true))
      == Lists([OfflineSource(1, true), OfflineSource(2, true)], [], [], []);
  }

  lemma AllAreOnline()
    ensures Possible(ALL_HEARD, Ticked(10, WAIT, ALL_ONLINE))
      && Advanced(ALL_HEARD, Ticked(10, WAIT, ALL_ONLINE)) == ALL_QUIET
  {
    NothingToJudge();
    ListsOfTheTicks();
    SilentTick(false, HEARD, HEARD, HEARD, [], 10, ALL_ONLINE, []);
  }

  lemma FirstIsFoundOffline()
    ensures Possible(SECOND_HEARD, Ticked(30, WAIT, FIRST_OFFLINE))
    ensures Advanced(SECOND_HEARD, Ticked(30, WAIT, FIRST_OFFLINE)) == FIRST_FOUND
  {
    JudgedAtFirst();
    FirstSetWaits(30);
    ListsOfTheTicks();
    SilentTick(true, FIRST_GONE, SECOND_SENDS, QUIET, [], 30, FIRST_OFFLINE, [FIRST_SET]);
  }

  lemma SecondIsFoundOffline()
    ensures Possible(SECOND_LEFT, Ticked(50, WAIT, BOTH_OFFLINE))
    ensures Advanced(SECOND_LEFT, Ticked(50, WAIT, BOTH_OFFLINE)) == SECOND_FOUND
  {
    JudgedAtSecond();
    BothWait();
    ListsOfBothOffline(50);
    SilentTick(true, FIRST_GONE, SECOND_GONE, QUIET, [FIRST_SET], 50, BOTH_OFFLINE, [FIRST_SET, SECOND_SET]);
  }

  lemma BothAreListed()
    ensures Sorted(BOTH_OFFLINE, Three(FIRST_GONE, SECOND_GONE, QUIET), 1051, 0x10000)
  {
    ThreeSorted(FIRST_GONE, SECOND_GONE, QUIET, 1051);
    ListsOfBothOffline(1051);
  }

  lemma SecondIsForgotten()
    ensures Handles([OfflineSource(2, true)]) == [2]
    ensures M.SourcesKept(Three(FIRST_GONE, SECOND_GONE, QUIET), 1051, [2]) == map[1 := FIRST_GONE, 3 := QUIET]
  {
  }

  lemma SecondIsReported()
    ensures Possible(SECOND_FOUND, Ticked(1051, WAIT, BOTH_OFFLINE))
    ensures Report(SECOND_FOUND, Ticked(1051, WAIT, BOTH_OFFLINE)) == [OfflineSource(2, true)]
    ensures Advanced(SECOND_FOUND, Ticked(1051, WAIT, BOTH_OFFLINE)) == SECOND_REPORTED
  {
    var sources, lost := Three(FIRST_GONE, SECOND_GONE, QUIET), [OfflineSource(2, true)];
    BothAreListed();
    SecondIsForgotten();
    JudgedLater();
    SecondSetSettles();
    TickStep(true, sources, [FIRST_SET, SECOND_SET], 1051, BOTH_OFFLINE, [FIRST_SET, SECOND_SET], lost, [FIRST_SET],
             map[1 := FIRST_GONE, 3 := QUIET]);
  }

  /** The run has come to `now` after its first `k` events, each of them possible. */
  ghost predicate ComesTo(run: seq<Event>, k: nat, now: Tracking) {
    k <= |run| && Before(START, run, k) == now && forall j | 0 <= j < k :: PossibleAt(START, run, j)
  }

  lemma GoesOn(run: seq<Event>, k: nat, now: Tracking, e: Event, next: Tracking)
    requires ComesTo(run, k, now) && k < |run| && run[k] == e && Possible(now, e) && Advanced(now, e) == next
    ensures ComesTo(run, k + 1, next)
  {
    assert PossibleAt(START, run, k);
  }

  ghost predicate AllSend(run: seq<Event>) {
    |run| >= 3 && run[0] == Dmx(0, 1, 0) && run[1] == Dmx(0, 2, 0) && run[2] == Dmx(0, 3, 0)
  }

  ghost predicate FirstLeaves(run: seq<Event>) {
    && |run| >= 7 && run[3] == Ticked(10, WAIT, ALL_ONLINE) && run[4] == Goodbye(20, 1, 1) && run[5] == Dmx(25, 2, 1)
    && run[6] == Ticked(30, WAIT, FIRST_OFFLINE)
  }

  ghost predicate SecondLeaves(run: seq<Event>) {
    && |run| == 10 && run[7] == Goodbye(40, 2, 2) && run[8] == Ticked(50, WAIT, BOTH_OFFLINE)
    && run[9] == Ticked(1051, WAIT, BOTH_OFFLINE)
  }

  lemma ToAllHeard(run: seq<Event>)
    requires AllSend(run)
    ensures ComesTo(run, 3, ALL_HEARD)
  {
    StartsEmpty();
    AllAreHeard();
    GoesOn(run, 0, Standing(false, map[], []), Dmx(0, 1, 0), ONE_HEARD);
    GoesOn(run, 1, ONE_HEARD, Dmx(0, 2, 0), TWO_HEARD);
    GoesOn(run, 2, TWO_HEARD, Dmx(0, 3, 0), ALL_HEARD);
  }

  lemma ToFirstLeft(run: seq<Event>)
    requires FirstLeaves(run) && ComesTo(run, 3, ALL_HEARD)
    ensures ComesTo(run, 5, FIRST_LEFT)
  {
    AllAreOnline();
    GoesOn(run, 3, ALL_HEARD, Ticked(10, WAIT, ALL_ONLINE), ALL_QUIET);
    FirstSaysGoodbye();
    GoesOn(run, 4, ALL_QUIET, Goodbye(20, 1, 1), FIRST_LEFT);
  }

  lemma ToSecondHeard(run: seq<Event>)
    requires FirstLeaves(run) && ComesTo(run, 5, FIRST_LEFT)
    ensures ComesTo(run, 6, SECOND_HEARD)
  {
    SecondGoesOn();
    GoesOn(run, 5, FIRST_LEFT, Dmx(25, 2, 1), SECOND_HEARD);
  }

  lemma ToFirstFound(run: seq<Event>)
    requires FirstLeaves(run) && ComesTo(run, 5, FIRST_LEFT)
    ensures ComesTo(run, 7, FIRST_FOUND)
  {
    ToSecondHeard(run);
    FirstIsFoundOffline();
    GoesOn(run, 6, SECOND_HEARD, Ticked(30, WAIT, FIRST_OFFLINE), FIRST_FOUND);
  }

  lemma ToSecondFound(run: seq<Event>)
    requires SecondLeaves(run) && ComesTo(run, 7, FIRST_FOUND)
    ensures ComesTo(run, 9, SECOND_FOUND)
  {
    SecondSaysGoodbye();
    GoesOn(run, 7, FIRST_FOUND, Goodbye(40, 2, 2), SECOND_LEFT);
    SecondIsFoundOffline();
    GoesOn(run, 8, SECOND_LEFT, Ticked(50, WAIT, BOTH_OFFLINE), SECOND_FOUND);
  }

  lemma ToSecondReported(run: seq<Event>)
    requires SecondLeaves(run) && ComesTo(run, 9, SECOND_FOUND)
    ensures ComesTo(run, 10, SECOND_REPORTED)
    ensures Report(Before(START, run, 9), run[9]) == [OfflineSource(2, true)]
  {
    SecondIsReported();
    GoesOn(run, 9, SECOND_FOUND, Ticked(1051, WAIT, BOTH_OFFLINE), SECOND_REPORTED);
  }

  /**
   Source 3 is unverified when first 1 and then 2 are lost. It only counts for the first loss, so 2, found
   offline while 1 still waits for 3, is reported alone.
   */
  lemma SecondLossDoesNotWait()
    ensures PossibleRun(START, EVENTS)
    ensures Report(Before(START, EVENTS, 9), EVENTS[9]) == [OfflineSource(2, true)]
    ensures Before(START, EVENTS, 10) == SECOND_REPORTED && SECOND_REPORTED.sets == [FIRST_SET]
  {
    EventsAreSo();
    ToAllHeard(EVENTS);
    ToFirstLeft(EVENTS);
    ToFirstFound(EVENTS);
    ToSecondFound(EVENTS);
    ToSecondReported(EVENTS);
  }

  lemma EventsAreSo()
    ensures AllSend(EVENTS) && FirstLeaves(EVENTS) && SecondLeaves(EVENTS)
  {
  }
}
