/** What holds over every run of a receiver. */
module ReceiverRuns {
  import opened Common
  import opened Interfaces
  import opened SourceTracking
  import opened ReceiverModel
  import S = SamplingPeriod
  import SourceRuns

  // ---- Source limit ----

  predicate WithinLimit(rx: Receiver) {
    rx.settings.sourceCountMax == INFINITE_SOURCES || |rx.sources| <= rx.settings.sourceCountMax
  }

  lemma StepKeepsLimit(rx: Receiver, e: Event)
    requires WithinLimit(rx)
    ensures WithinLimit(Step(rx, e).0) && Step(rx, e).0.settings == rx.settings
  {
    var after := Step(rx, e).0;
    if after.sources.Keys <= rx.sources.Keys {
      NoMoreKeys(after.sources, rx.sources);
    } else {
      assert e.Data? && e.handle !in rx.sources && HasRoom(rx);
      assert |after.sources| == |rx.sources| + 1 by {
        assert after.sources.Keys == rx.sources.Keys + {e.handle};
      }
    }
  }

  /** However a run goes, a receiver never tracks more sources than its limit. */
  lemma {:induction false} NeverMoreThanTheLimit(settings: Settings, now: nat, listed: seq<Interface>,
          run: seq<Event>, k: nat)
    requires k <= |run|
    ensures WithinLimit(Before(Created(settings, now, listed), run, k))
    ensures Before(Created(settings, now, listed), run, k).settings == settings
  {
    if k > 0 {
      NeverMoreThanTheLimit(settings, now, listed, run, k - 1);
      StepKeepsLimit(Before(Created(settings, now, listed), run, k - 1), run[k - 1]);
    }
  }

  /** The events after which a full receiver announces the limit again. */
  predicate MakesRoomKnown(e: Event) {
    e.UniverseChange? || (e.Tick? && e.lost != [])
  }

  /** A packet that would make its sender a source if there were room. */
  predicate TurnedAway(rx: Receiver, e: Event) {
    e.Data? && !IsFuture(rx, e.from) && e.handle !in rx.sources && !e.packet.terminated && Tracked(e.packet.startCode)
    && !HasRoom(rx)
  }

  lemma SuppressionStep(rx: Receiver, e: Event)
    requires !Step(rx, e).1.limitExceeded
    ensures Step(rx, e).0.suppressed == (rx.suppressed && !MakesRoomKnown(e))
  {
  }

  lemma NoticeSuppresses(rx: Receiver, e: Event)
    requires Step(rx, e).1.limitExceeded
    ensures Step(rx, e).0.suppressed
  {
  }

  /** No event between the two announces the limit. */
  predicate NotAnnounced(rx: Receiver, run: seq<Event>, i: nat, k: nat)
    requires k <= |run|
  {
    forall j | i < j < k :: !At(rx, run, j).limitExceeded
  }

  predicate RoomIsKnown(run: seq<Event>, i: nat, k: nat)
    requires k <= |run|
  {
    exists j :: i < j < k && MakesRoomKnown(run[j])
  }

  lemma OneEventLater(rx: Receiver, run: seq<Event>, i: nat, k: nat)
    requires i + 1 < k <= |run| && NotAnnounced(rx, run, i, k)
    ensures NotAnnounced(rx, run, i, k - 1) && !Step(Before(rx, run, k - 1), run[k - 1]).1.limitExceeded
    ensures RoomIsKnown(run, i, k) <==> RoomIsKnown(run, i, k - 1) || MakesRoomKnown(run[k - 1])
  {
    assert !At(rx, run, k - 1).limitExceeded;
    if j :| i < j < k - 1 && MakesRoomKnown(run[j]) {
      assert i < j < k;
    }
  }

  lemma {:induction false} SuppressedUnlessRoomIsKnown(rx: Receiver, run: seq<Event>, i: nat, k: nat)
    requires i < k <= |run| && At(rx, run, i).limitExceeded && NotAnnounced(rx, run, i, k)
    ensures Before(rx, run, k).suppressed <==> !RoomIsKnown(run, i, k)
  {
    if k > i + 1 {
      OneEventLater(rx, run, i, k);
      SuppressedUnlessRoomIsKnown(rx, run, i, k - 1);
      SuppressionStep(Before(rx, run, k - 1), run[k - 1]);
    } else {
      NoticeSuppresses(Before(rx, run, i), run[i]);
    }
  }

  /**
   The limit is announced when a packet is first turned away; after that the next packet turned away is
   announced exactly when sources were lost, or the universe changed, since.
   */
  lemma AnnouncedAgainIff(rx: Receiver, run: seq<Event>, i: nat, k: nat)
    requires i < k < |run| && At(rx, run, i).limitExceeded && TurnedAway(Before(rx, run, k), run[k])
    requires forall j | i < j < k :: !At(rx, run, j).limitExceeded
    ensures At(rx, run, k).limitExceeded <==> exists j :: i < j < k && MakesRoomKnown(run[j])
  {
    SuppressedUnlessRoomIsKnown(rx, run, i, k);
  }

  /** A receiver with room for one source, past its sampling period. */
  const IDLE := Receiver(
    Settings(false, 1), [NETINT], S.Sampling(false, true, Timer(0, S.SAMPLE_TIME), map[]), map[], false)

  const NETINT := Netint(1, 1)

  /** Created with one interface, and ticked during and after its first period. */
  lemma IdleIsReached()
    ensures Before(Created(Settings(false, 1), 0, [Interface(NETINT, true)]), [Tick(100, []), Tick(1600, [])], 2)
      == IDLE
  {
    var listed := [Interface(NETINT, true)];
    var created := Created(Settings(false, 1), 0, listed);
    var run: seq<Event> := [Tick(100, []), Tick(1600, [])];
    assert listed[..0] == [] && Usable(listed[..0]) == [];
    assert Usable(listed) == [NETINT];
    var announced := Step(created, run[0]).0;
    assert announced == created.(sampling := created.sampling.(notifiedStarted := true));
    assert S.Upcoming(announced.sampling.netints) == map[];
    assert Step(announced, run[1]).0 == IDLE;
    assert Before(created, run, 0) == created && Before(created, run, 1) == announced;
  }

  /**
   A waiting source that times out makes room without saying so: the limit is reached again, and this
   time nobody is told, although the documentation promises a new call.
   */
  lemma ErasedSourceKeepsLimitQuiet()
    ensures var dmx := Packet(STARTCODE_DMX, 0, false, false);
      var run := [Data(2000, 1, NETINT, dmx), Data(2010, 2, NETINT, dmx), Tick(5000, []),
                  Data(5010, 3, NETINT, dmx), Data(5020, 4, NETINT, dmx)];
      && At(IDLE, run, 1).limitExceeded
      && |Before(IDLE, run, 3).sources| == 0
      && TurnedAway(Before(IDLE, run, 4), run[4]) && !At(IDLE, run, 4).limitExceeded
  {
    var dmx := Packet(STARTCODE_DMX, 0, false, false);
    var run := [Data(2000, 1, NETINT, dmx), Data(2010, 2, NETINT, dmx), Tick(5000, []),
                Data(5010, 3, NETINT, dmx), Data(5020, 4, NETINT, dmx)];
    var waiting := NewSource(NETINT, dmx, false, 2000);
    var first := IDLE.(sources := map[1 := waiting]);
    assert Before(IDLE, run, 0) == IDLE;
    assert Step(IDLE, run[0]).0 == first;
    assert Before(IDLE, run, 1) == first;
    assert TurnedAway(first, run[1]);
    assert Before(IDLE, run, 2) == first.(suppressed := true);
    assert Classify(waiting, 5000) == Erased;
    assert SourcesKept(map[1 := waiting], 5000, []) == map[];
    assert Before(IDLE, run, 3) == IDLE.(suppressed := true);
    assert Before(IDLE, run, 4) == IDLE.(suppressed := true, sources := map[3 := NewSource(NETINT, dmx, false, 5010)]);
  }

  // ---- Sampling ----

  /** Outside a sampling period no interface is left in one. */
  predicate SamplingSound(rx: Receiver) {
    rx.sampling.active || rx.sampling.netints == map[]
  }

  lemma {:induction false} SamplingStaysSound(settings: Settings, now: nat, listed: seq<Interface>, run: seq<Event>,
          k: nat)
    requires k <= |run|
    ensures SamplingSound(Before(Created(settings, now, listed), run, k))
  {
    if k > 0 {
      SamplingStaysSound(settings, now, listed, run, k - 1);
    }
  }

  /** Notified data are marked as sampling data exactly inside a period and from an interface that takes part in it. */
  lemma SamplingDataOnlyInItsPeriod(settings: Settings, now: nat, listed: seq<Interface>, run: seq<Event>, k: nat)
    requires k < |run| && run[k].Data?
    ensures var created := Created(settings, now, listed);
      var rx, report := Before(created, run, k), At(created, run, k);
      && (report.samplingData <==>
            && report.data && rx.sampling.active
            && run[k].from in rx.sampling.netints && !rx.sampling.netints[run[k].from])
      && (report.data && !rx.sampling.active ==> !report.samplingData)
      && (report.data ==> !IsFuture(rx, run[k].from))
  {
    SamplingStaysSound(settings, now, listed, run, k);
  }

  /**
   A valid packet as the documentation means it: in sequence, not terminating, and not filtered as preview
   data.
   */
  predicate ValidPacket(rx: Receiver, h: Handle, p: Packet) {
    && !p.terminated && !(p.preview && rx.settings.filterPreview)
    && (h in rx.sources ==> InSequence(p.sequence, rx.sources[h].sequence))
  }

  /**
   "Any valid packet received in the sampling period is notified, no matter the start code": that is so
   exactly when its interface is not pending for the next period, its source was not terminated and is not
   still waiting for PAP from before the period, and a new source brings a start code that is tracked and
   finds room.
   */
  lemma SamplingPeriodNotifiesIff(rx: Receiver, now: nat, h: Handle, from: Netint, p: Packet)
    requires rx.sampling.active && ValidPacket(rx, h, p)
    ensures HandleData(rx, now, h, from, p).1.data <==>
      && !IsFuture(rx, from)
      && (if h in rx.sources
          then !rx.sources[h].terminated
            && !(p.startCode == STARTCODE_DMX && rx.sources[h].state == WaitingForPap
                 && !Expired(rx.sources[h].papTimer, now))
          else Tracked(p.startCode) && HasRoom(rx))
  {
  }

  /**
   Outside a sampling period PAP and all start codes other than NULL "always" notify, and NULL data once the PAP
   wait is over: that is so exactly when the packet comes from the source's own interface, its source was not
   terminated, and a new source is first seen through PAP and finds room.
   */
  lemma OutsideSamplingNotifiesIff(rx: Receiver, now: nat, h: Handle, from: Netint, p: Packet)
    requires SamplingSound(rx) && !rx.sampling.active && ValidPacket(rx, h, p)
    ensures HandleData(rx, now, h, from, p).1.data <==>
      if h in rx.sources
      then rx.sources[h].netint == from && !rx.sources[h].terminated
        && !(p.startCode == STARTCODE_DMX && rx.sources[h].state == WaitingForPap
             && !Expired(rx.sources[h].papTimer, now))
      else p.startCode == STARTCODE_PRIORITY && HasRoom(rx)
  {
  }

  /** A source whose first packet has another start code is not even tracked, so that packet never notifies. */
  lemma OtherStartCodeIsIgnored(now: nat, h: Handle, startCode: byte)
    requires startCode != STARTCODE_DMX && startCode != STARTCODE_PRIORITY
    ensures ValidPacket(IDLE, h, Packet(startCode, 0, false, false))
    ensures HandleData(IDLE, now, h, NETINT, Packet(startCode, 0, false, false)) == (IDLE, NOTHING)
  {
  }

  /** A source that was waiting when a network reset began a new period goes on waiting inside it. */
  lemma WaitingOutlastsANewPeriod()
    ensures var n := NETINT;
      var run := [Data(2000, 1, n, Packet(STARTCODE_DMX, 0, false, false)),
                  NetworkReset(2010, [Interface(n, true)], false),
                  Data(2020, 1, n, Packet(STARTCODE_DMX, 1, false, false))];
      && Before(IDLE, run, 2).sampling.active && ValidPacket(Before(IDLE, run, 2), 1, run[2].packet)
      && !At(IDLE, run, 2).data
  {
    var n := NETINT;
    var first, second := Packet(STARTCODE_DMX, 0, false, false), Packet(STARTCODE_DMX, 1, false, false);
    var listed := [Interface(n, true)];
    var run := [Data(2000, 1, n, first), NetworkReset(2010, listed, false), Data(2020, 1, n, second)];
    var waiting := NewSource(n, first, false, 2000);
    var heard := IDLE.(sources := map[1 := waiting]);
    assert Before(IDLE, run, 0) == IDLE;
    assert Before(IDLE, run, 1) == Step(IDLE, run[0]).0 == heard;
    UsableExactly(listed);
    NothingUsable(listed);
    assert listed[0] in listed && n in Usable(listed);
    var reset := Before(IDLE, run, 2);
    assert reset == WithInterfaces(heard, 2010, listed);
    assert reset.sources[1] == waiting;
    assert reset.sampling.active && !IsFuture(reset, n);
  }

  /** What a receiver event means for the sampling period alone. */
  function SamplingPart(rx: Receiver, e: Event): seq<S.SamplingEvent> {
    match e
    case Data(_, _, _, _) => []
    case Tick(now, _) => [S.Tick(now)]
    case NetworkReset(now, listed, noNetints) =>
      if ResetOutcome(listed, noNetints) != Ok then []
      else
        var used := if noNetints then [] else listed;
        [S.Begun(now, Updated(rx.sampling.netints, rx.netints, rx.sampling.active, used))]
    case UniverseChange(now) => [S.Begun(now, AllCurrent(rx.netints))]
  }

  function SamplingRun(rx: Receiver, run: seq<Event>): seq<S.SamplingEvent>
    decreases |run|
  {
    if run == [] then [] else SamplingPart(rx, run[0]) + SamplingRun(Step(rx, run[0]).0, run[1..])
  }

  function Notices(rx: Receiver, run: seq<Event>): seq<S.Notice>
    decreases |run|
  {
    if run == [] then [] else Step(rx, run[0]).1.notices + Notices(Step(rx, run[0]).0, run[1..])
  }

  /** One event changes the sampling period, and announces, as its own part of that event does. */
  lemma SamplingStep(rx: Receiver, e: Event)
    ensures var part, after := SamplingPart(rx, e), Step(rx, e);
      if part == [] then after.0.sampling == rx.sampling && after.1.notices == []
      else (&& part == [part[0]]
            && after.0.sampling == S.Next(rx.sampling, part[0])
            && after.1.notices == (if part[0].Tick? then S.TickSampling(rx.sampling, part[0].now).1 else []))
  {
  }

  /** The receiver's sampling notices are those of its sampling period run on its own. */
  lemma {:induction false} NoticesComeFromSampling(rx: Receiver, run: seq<Event>)
    ensures Notices(rx, run) == S.Notices(rx.sampling, SamplingRun(rx, run))
    decreases |run|
  {
    if run != [] {
      var next := Step(rx, run[0]).0;
      var part, later := SamplingPart(rx, run[0]), SamplingRun(next, run[1..]);
      NoticesComeFromSampling(next, run[1..]);
      SamplingStep(rx, run[0]);
      if part == [] {
        assert SamplingRun(rx, run) == later;
      } else {
        assert (part + later)[1..] == later;
      }
    }
  }

  /** Time never runs backwards, and no tick comes more than a sampling time after the one before. */
  predicate TickedOften(lastTick: nat, clock: nat, run: seq<Event>)
    decreases |run|
  {
    run == [] ||
    (&& run[0].now >= clock
     && (run[0].Tick? ==> run[0].now <= lastTick + S.SAMPLE_TIME)
     && TickedOften(if run[0].Tick? then run[0].now else lastTick, run[0].now, run[1..]))
  }

  lemma {:induction false} SamplingTickedOften(rx: Receiver, lastTick: nat, clock: nat, run: seq<Event>)
    requires TickedOften(lastTick, clock, run)
    ensures S.TickedOften(lastTick, clock, SamplingRun(rx, run))
    decreases |run|
  {
    if run != [] {
      var e, next := run[0], Step(rx, run[0]).0;
      var part, later := SamplingPart(rx, e), SamplingRun(next, run[1..]);
      SamplingTickedOften(next, if e.Tick? then e.now else lastTick, e.now, run[1..]);
      if part == [] {
        assert SamplingRun(rx, run) == later;
        EarlierClock(lastTick, clock, e.now, later);
      } else {
        assert (part + later)[1..] == later;
      }
    }
  }

  lemma EarlierClock(lastTick: nat, clock: nat, later: nat, run: seq<S.SamplingEvent>)
    requires clock <= later && S.TickedOften(lastTick, later, run)
    ensures S.TickedOften(lastTick, clock, run)
  {
  }

  /** A receiver that is ticked in time announces its periods in strict alternation, whatever else happens to it. */
  lemma NoticesAlternate(settings: Settings, now: nat, listed: seq<Interface>, run: seq<Event>)
    requires TickedOften(now, now, run)
    ensures S.Alternating(Notices(Created(settings, now, listed), run), true)
  {
    var rx := Created(settings, now, listed);
    NoticesComeFromSampling(rx, run);
    SamplingTickedOften(rx, now, now, run);
    S.FrequentTicksAlternate(now, AllCurrent(Usable(listed)), SamplingRun(rx, run));
  }

  predicate TicksPast(timer: Timer, run: seq<Event>) {
    exists i :: 0 <= i < |run| && run[i].Tick? && Expired(timer, run[i].now)
  }

  predicate TickedInTime(timer: Timer, run: seq<Event>)
    decreases |run|
  {
    run != [] && if run[0].Tick? then !Expired(timer, run[0].now) else TickedInTime(timer, run[1..])
  }

  /** Ticks are all that matters to when a period is announced. */
  lemma {:induction false} SamplingTicks(rx: Receiver, timer: Timer, run: seq<Event>)
    ensures TicksPast(timer, run) ==> S.RunsOut(timer, SamplingRun(rx, run))
    ensures TickedInTime(timer, run) == S.TickedInTime(timer, SamplingRun(rx, run))
    decreases |run|
  {
    if run != [] {
      var part, later := SamplingPart(rx, run[0]), SamplingRun(Step(rx, run[0]).0, run[1..]);
      SamplingTicks(Step(rx, run[0]).0, timer, run[1..]);
      if i :| 0 <= i < |run| && run[i].Tick? && Expired(timer, run[i].now) {
        if i == 0 {
          assert (part + later)[0] == S.Tick(run[0].now);
        } else {
          assert run[1..][i - 1] == run[i];
          var j :| 0 <= j < |later| && later[j].Tick? && Expired(timer, later[j].now);
          assert (part + later)[|part| + j] == later[j];
        }
      }
      if part == [] {
        assert SamplingRun(rx, run) == later;
      } else {
        assert (part + later)[1..] == later;
      }
    }
  }

  /**
   A universe change promises a sampling period with both notices. Over the rest of a run that outlasts
   the period, both come, the start first, exactly when no period was running that had been announced
   already, and a tick comes in time.
   */
  lemma NewUniverseIsAnnouncedIff(rx: Receiver, now: nat, rest: seq<Event>)
    requires TicksPast(MoveUniverse(rx, now).sampling.timer, rest)
    ensures var moved := MoveUniverse(rx, now);
      && moved.sampling.active
      && (S.StartsAndEnds(Notices(moved, rest)) <==>
            (!rx.sampling.active || !rx.sampling.notifiedStarted) && TickedInTime(moved.sampling.timer, rest))
      && (rx.sampling.active && rx.sampling.notifiedStarted ==>
           Notices(moved, rest) != [] && Notices(moved, rest)[0] == S.Ended)
  {
    var moved := MoveUniverse(rx, now);
    NoticesComeFromSampling(moved, rest);
    SamplingTicks(moved, moved.sampling.timer, rest);
    S.PeriodIsAnnouncedIff(moved.sampling, SamplingRun(moved, rest));
  }

  /** A universe change in the middle of an announced period: the new universe is only told of an end. */
  lemma UniverseChangedMidPeriod(settings: Settings)
    ensures var before := Before(Created(settings, 0, []), [Tick(100, [])], 1);
      && Notices(Created(settings, 0, []), [Tick(100, [])]) == [S.Started]
      && Notices(MoveUniverse(before, 200), [Tick(300, []), Tick(1600, [])]) == [S.Ended]
  {
    var created := Created(settings, 0, []);
    var first: seq<Event> := [Tick(100, [])];
    assert AllCurrent([]) == map[];
    assert Before(created, first, 0) == created;
    var started := Step(created, first[0]).0;
    assert started.sampling == created.sampling.(notifiedStarted := true);
    assert Notices(started, first[1..]) == [];
    var moved := MoveUniverse(started, 200);
    assert moved.sampling == started.sampling;
    var rest: seq<Event> := [Tick(300, []), Tick(1600, [])];
    var second := Step(moved, rest[0]).0;
    assert second.sampling == moved.sampling && Step(moved, rest[0]).1.notices == [];
    assert S.Upcoming(moved.sampling.netints) == map[];
    assert Step(second, rest[1]).1.notices == [S.Ended];
    assert rest[1..][1..] == [] && rest[1..][0] == rest[1];
    assert Notices(second, rest[1..]) == [S.Ended];
  }

  /** The receiver after a successful network reset. */
  function Reset(rx: Receiver, now: nat, listed: seq<Interface>, noNetints: bool): Receiver {
    Step(rx, NetworkReset(now, listed, noNetints)).0
  }

  /**
   A network reset promises a sampling period with both notices, too, and keeps the promise under the same
   condition: no period was running that had been announced already, and a tick comes in time.
   */
  lemma ResetIsAnnouncedIff(rx: Receiver, now: nat, listed: seq<Interface>, noNetints: bool, rest: seq<Event>)
    requires ResetOutcome(listed, noNetints) == Ok && TicksPast(Reset(rx, now, listed, noNetints).sampling.timer, rest)
    ensures var reset := Reset(rx, now, listed, noNetints);
      && reset.sampling.active
      && (S.StartsAndEnds(Notices(reset, rest)) <==>
            (!rx.sampling.active || !rx.sampling.notifiedStarted) && TickedInTime(reset.sampling.timer, rest))
      && (rx.sampling.active && rx.sampling.notifiedStarted ==>
           Notices(reset, rest) != [] && Notices(reset, rest)[0] == S.Ended)
  {
    var reset := Reset(rx, now, listed, noNetints);
    NoticesComeFromSampling(reset, rest);
    SamplingTicks(reset, reset.sampling.timer, rest);
    S.PeriodIsAnnouncedIff(reset.sampling, SamplingRun(reset, rest));
  }

  predicate OnlyDataAndTicks(run: seq<Event>) {
    forall i | 0 <= i < |run| :: run[i].Data? || run[i].Tick?
  }

  lemma {:induction false} OnlySamplingTicks(rx: Receiver, run: seq<Event>)
    requires OnlyDataAndTicks(run)
    ensures S.OnlyTicks(SamplingRun(rx, run))
    decreases |run|
  {
    if run != [] {
      var next := Step(rx, run[0]).0;
      assert run[0].Data? || run[0].Tick?;
      forall i | 0 <= i < |run[1..]| ensures run[1..][i].Data? || run[1..][i].Tick? {
        assert run[1..][i] == run[i + 1];
      }
      OnlySamplingTicks(next, run[1..]);
    }
  }

  /**
   When it falls into an announced period, a start is notified for the application after all exactly when the
   reset brought in an interface that has to wait for the next period.
   */
  lemma ResetMidPeriodIsAnnouncedIff(rx: Receiver, now: nat, listed: seq<Interface>, noNetints: bool, rest: seq<Event>)
    requires rx.sampling.active && rx.sampling.notifiedStarted && ResetOutcome(listed, noNetints) == Ok
    requires OnlyDataAndTicks(rest) && TicksPast(Reset(rx, now, listed, noNetints).sampling.timer, rest)
    ensures var reset := Reset(rx, now, listed, noNetints);
      S.Started in Notices(reset, rest) <==> exists n :: IsFuture(reset, n)
  {
    var reset := Reset(rx, now, listed, noNetints);
    NoticesComeFromSampling(reset, rest);
    SamplingTicks(reset, reset.sampling.timer, rest);
    OnlySamplingTicks(reset, rest);
    S.AnnouncedPeriodIsFollowedIff(reset.sampling, SamplingRun(reset, rest));
    if n :| n in reset.sampling.netints && reset.sampling.netints[n] {
      assert IsFuture(reset, n);
    }
  }

  /** A reset in the middle of an announced period that changes no interface: only an end is notified. */
  lemma ResetMidPeriod()
    ensures var listed := [Interface(NETINT, true)];
      var before := Before(Created(Settings(false, 1), 0, listed), [Tick(100, [])], 1);
      && Notices(Created(Settings(false, 1), 0, listed), [Tick(100, [])]) == [S.Started]
      && Notices(Reset(before, 200, listed, false), [Tick(300, []), Tick(1600, [])]) == [S.Ended]
  {
    var listed := [Interface(NETINT, true)];
    var created := Created(Settings(false, 1), 0, listed);
    assert listed[..0] == [] && Usable(listed[..0]) == [] && Usable(listed) == [NETINT];
    var first: seq<Event> := [Tick(100, [])];
    var started := created.(sampling := created.sampling.(notifiedStarted := true));
    assert Step(created, first[0]).0 == started && Notices(started, first[1..]) == [];
    assert Before(created, first, 0) == created && Before(created, first, 1) == started;
    SameInterfacesStay(started);
    EndsOnly(Reset(started, 200, listed, false));
  }

  lemma SameInterfacesStay(rx: Receiver)
    requires rx.sampling == S.Sampling(true, true, Timer(0, S.SAMPLE_TIME), map[NETINT := false])
    requires rx.netints == [NETINT]
    ensures Reset(rx, 200, [Interface(NETINT, true)], false).sampling == rx.sampling
  {
    var listed := [Interface(NETINT, true)];
    assert listed[..0] == [] && Usable(listed[..0]) == [] && Usable(listed) == [NETINT];
    assert listed[0].netint == NETINT;
    assert Updated(rx.sampling.netints, [NETINT], true, listed) == map[NETINT := false];
  }

  lemma EndsOnly(rx: Receiver)
    requires rx.sampling == S.Sampling(true, true, Timer(0, S.SAMPLE_TIME), map[NETINT := false])
    ensures Notices(rx, [Tick(300, []), Tick(1600, [])]) == [S.Ended]
  {
    var rest: seq<Event> := [Tick(300, []), Tick(1600, [])];
    var second := Step(rx, rest[0]).0;
    assert second.sampling == rx.sampling && Step(rx, rest[0]).1.notices == [];
    assert S.Upcoming(rx.sampling.netints) == map[];
    assert Step(second, rest[1]).1.notices == [S.Ended];
    assert rest[1..][1..] == [] && rest[1..][0] == rest[1];
    assert Notices(second, rest[1..]) == [S.Ended];
  }

  // ---- Each source on its own ----

  /** What a receiver event means for one of its sources. */
  function SourcePart(rx: Receiver, e: Event, h: Handle): seq<SourceRuns.SourceEvent>
    requires h in rx.sources
  {
    match e
    case Data(now, handle, from, p) =>
      if handle == h && !IsFuture(rx, from) then [SourceRuns.Data(now, from, p, rx.sampling.active)] else []
    case Tick(now, _) => [SourceRuns.Tick(now)]
    case NetworkReset(now, listed, noNetints) =>
      if ResetOutcome(listed, noNetints) == Ok && rx.sources[h].netint !in Usable(if noNetints then [] else listed)
      then [SourceRuns.NetintRemoved(now)] else []
    case UniverseChange(_) => []
  }

  ghost predicate TrackedThroughout(rx: Receiver, run: seq<Event>, h: Handle, k: nat)
    requires k <= |run|
  {
    h in rx.sources && forall i | 0 <= i <= k :: h in Before(rx, run, i).sources
  }

  /** The first `k` events of a run, as one source sees them. */
  ghost function SourceRun(rx: Receiver, run: seq<Event>, h: Handle, k: nat): seq<SourceRuns.SourceEvent>
    requires k <= |run| && TrackedThroughout(rx, run, h, k)
  {
    if k == 0 then [] else
      assert h in Before(rx, run, k - 1).sources;
      SourceRun(rx, run, h, k - 1) + SourcePart(Before(rx, run, k - 1), run[k - 1], h)
  }

  /** One event changes a source that stays tracked as its own part of that event does. */
  lemma SourceStep(rx: Receiver, e: Event, h: Handle)
    requires h in rx.sources && h in Step(rx, e).0.sources
    ensures var part, after := SourcePart(rx, e, h), Step(rx, e).0.sources[h];
      if part == [] then after == rx.sources[h]
      else after == SourceRuns.Apply(rx.sources[h], part[0], rx.settings.filterPreview).source
  {
  }

  lemma {:induction false} LongerRun(s: Source, run: seq<SourceRuns.SourceEvent>, more: seq<SourceRuns.SourceEvent>,
          f: bool, k: nat)
    requires k <= |run|
    ensures SourceRuns.Before(s, run + more, f, k) == SourceRuns.Before(s, run, f, k)
  {
    if k > 0 {
      LongerRun(s, run, more, f, k - 1);
    }
  }

  lemma {:induction false} SettingsNeverChange(rx: Receiver, run: seq<Event>, k: nat)
    requires k <= |run|
    ensures Before(rx, run, k).settings == rx.settings
  {
    if k > 0 {
      SettingsNeverChange(rx, run, k - 1);
    }
  }

  /** At most one more event of a source on its own. */
  lemma AloneOneMore(s: Source, earlier: seq<SourceRuns.SourceEvent>, part: seq<SourceRuns.SourceEvent>, f: bool,
          later: Source)
    requires |part| <= 1
    requires var before := SourceRuns.Before(s, earlier, f, |earlier|);
      later == if part == [] then before else SourceRuns.Apply(before, part[0], f).source
    ensures later == SourceRuns.Before(s, earlier + part, f, |earlier + part|)
  {
    LongerRun(s, earlier, part, f, |earlier|);
    if part == [] {
      assert earlier + part == earlier;
    } else {
      assert (earlier + part)[|earlier|] == part[0];
    }
  }

  /** The step of the argument: one more event after `earlier`. */
  lemma OneMoreEvent(s: Source, earlier: seq<SourceRuns.SourceEvent>, rx: Receiver, e: Event, h: Handle,
          after: Receiver, alone: seq<SourceRuns.SourceEvent>)
    requires h in rx.sources && after == Step(rx, e).0 && h in after.sources
    requires alone == earlier + SourcePart(rx, e, h)
    requires rx.sources[h] == SourceRuns.Before(s, earlier, rx.settings.filterPreview, |earlier|)
    ensures after.sources[h] == SourceRuns.Before(s, alone, rx.settings.filterPreview, |alone|)
  {
    SourceStep(rx, e, h);
    AloneOneMore(s, earlier, SourcePart(rx, e, h), rx.settings.filterPreview, after.sources[h]);
  }

  lemma TrackedBefore(rx: Receiver, run: seq<Event>, h: Handle, k: nat)
    requires k < |run| && TrackedThroughout(rx, run, h, k + 1)
    ensures TrackedThroughout(rx, run, h, k)
    ensures h in Before(rx, run, k).sources && h in Before(rx, run, k + 1).sources
    ensures Before(rx, run, k + 1) == Step(Before(rx, run, k), run[k]).0
    ensures SourceRun(rx, run, h, k + 1) == SourceRun(rx, run, h, k) + SourcePart(Before(rx, run, k), run[k], h)
  {
  }

  /** As long as a source stays tracked, it runs exactly as if its own part of the events were all there is. */
  lemma {:induction false} EachSourceRunsAlone(rx: Receiver, run: seq<Event>, h: Handle, k: nat)
    requires k <= |run| && TrackedThroughout(rx, run, h, k)
    ensures var alone := SourceRun(rx, run, h, k);
      Before(rx, run, k).sources[h] == SourceRuns.Before(rx.sources[h], alone, rx.settings.filterPreview, |alone|)
  {
    if k > 0 {
      var last: nat := k - 1;
      TrackedBefore(rx, run, h, last);
      EachSourceRunsAlone(rx, run, h, last);
      SettingsNeverChange(rx, run, last);
      var earlier, before := SourceRun(rx, run, h, last), Before(rx, run, last);
      OneMoreEvent(rx.sources[h], earlier, before, run[last], h, Before(rx, run, k), SourceRun(rx, run, h, k));
    }
  }

  lemma SeenAs(rx: Receiver, e: Event, h: Handle)
    requires h in rx.sources && e.Data? && e.handle == h && !IsFuture(rx, e.from)
    ensures |SourcePart(rx, e, h)| == 1
    ensures var reaction := SourceRuns.Apply(rx.sources[h], SourcePart(rx, e, h)[0], rx.settings.filterPreview);
      Step(rx, e).1.data == reaction.notify && Step(rx, e).1.papLost == reaction.papLost
  {
  }

  /** And the application sees of each of its packets exactly what it would see with the source on its own. */
  lemma EachSourceIsSeenAlone(rx: Receiver, run: seq<Event>, h: Handle, k: nat)
    requires k < |run| && TrackedThroughout(rx, run, h, k)
    requires run[k].Data? && run[k].handle == h && !IsFuture(Before(rx, run, k), run[k].from)
    ensures h in Before(rx, run, k).sources
    ensures var alone := SourceRun(rx, run, h, k) + SourcePart(Before(rx, run, k), run[k], h);
      var reaction := SourceRuns.At(rx.sources[h], alone, rx.settings.filterPreview, |alone| - 1);
      At(rx, run, k).data == reaction.notify && At(rx, run, k).papLost == reaction.papLost
  {
    EachSourceRunsAlone(rx, run, h, k);
    SettingsNeverChange(rx, run, k);
    var was, earlier, f := Before(rx, run, k), SourceRun(rx, run, h, k), rx.settings.filterPreview;
    assert h in was.sources;
    SeenAs(was, run[k], h);
    LongerRun(rx.sources[h], earlier, SourcePart(was, run[k], h), f, |earlier|);
    assert (earlier + SourcePart(was, run[k], h))[|earlier|] == SourcePart(was, run[k], h)[0];
  }

  // ---- What that gives an application ----

  ghost predicate Timed(run: seq<Event>) {
    forall i, j | 0 <= i <= j < |run| :: run[i].now <= run[j].now
  }

  lemma PrefixIsTracked(rx: Receiver, run: seq<Event>, h: Handle, i: nat, k: nat)
    requires i <= k <= |run| && TrackedThroughout(rx, run, h, k)
    ensures TrackedThroughout(rx, run, h, i)
  {
  }

  /** In order of time, and over by `end`. */
  ghost predicate OverBy(run: seq<SourceRuns.SourceEvent>, end: nat) {
    SourceRuns.Timed(run, 0) && forall i | 0 <= i < |run| :: run[i].now <= end
  }

  lemma OneMoreIsTimed(earlier: seq<SourceRuns.SourceEvent>, end: nat, rx: Receiver, e: Event, h: Handle)
    requires OverBy(earlier, end) && end <= e.now && h in rx.sources
    ensures OverBy(earlier + SourcePart(rx, e, h), e.now)
  {
    var part := SourcePart(rx, e, h);
    assert |part| <= 1 && (part != [] ==> part[0].now == e.now);
  }

  lemma {:induction false} SourceRunIsTimed(rx: Receiver, run: seq<Event>, h: Handle, k: nat)
    requires Timed(run) && k <= |run| && TrackedThroughout(rx, run, h, k)
    ensures OverBy(SourceRun(rx, run, h, k), if k == 0 then 0 else run[k - 1].now)
  {
    if k > 0 {
      PrefixIsTracked(rx, run, h, k - 1, k);
      SourceRunIsTimed(rx, run, h, k - 1);
      OneMoreIsTimed(SourceRun(rx, run, h, k - 1), if k == 1 then 0 else run[k - 2].now,
                     Before(rx, run, k - 1), run[k - 1], h);
    }
  }

  /** Every event of a source's own run is that source's part of some event of the receiver. */
  lemma {:induction false} OriginOf(rx: Receiver, run: seq<Event>, h: Handle, k: nat, j: nat) returns (i: nat)
    requires k <= |run| && TrackedThroughout(rx, run, h, k) && j < |SourceRun(rx, run, h, k)|
    ensures HasOrigin(rx, run, h, k, j, i)
  {
    OneMorePart(rx, run, h, k);
    var last: nat := k - 1;
    if j < |SourceRun(rx, run, h, last)| {
      i := OriginOf(rx, run, h, last, j);
      OriginOneLater(rx, run, h, last, k, j, i);
    } else {
      i := last;
      OriginIsLast(rx, run, h, k, j);
    }
  }

  /** The event at index `j` of the source's own run is its part of event `i`. */
  ghost predicate HasOrigin(rx: Receiver, run: seq<Event>, h: Handle, k: nat, j: nat, i: nat)
    requires k <= |run| && TrackedThroughout(rx, run, h, k)
  {
    var alone := SourceRun(rx, run, h, k);
    j < |alone| && IsOrigin(rx, run, h, k, i, alone[..j + 1], alone[j])
  }

  lemma OriginOneLater(rx: Receiver, run: seq<Event>, h: Handle, last: nat, k: nat, j: nat, i: nat)
    requires k == last + 1 <= |run| && TrackedThroughout(rx, run, h, k) && TrackedThroughout(rx, run, h, last)
    requires HasOrigin(rx, run, h, last, j, i)
    ensures HasOrigin(rx, run, h, k, j, i)
  {
    var earlier := SourceRun(rx, run, h, last);
    OneMorePart(rx, run, h, k);
    FirstIsFirst(earlier, SourcePart(Before(rx, run, last), run[last], h), j);
    OriginStays(rx, run, h, k, i, earlier[..j + 1], earlier[j]);
  }

  lemma OriginIsLast(rx: Receiver, run: seq<Event>, h: Handle, k: nat, j: nat)
    requires 0 < k <= |run| && TrackedThroughout(rx, run, h, k) && TrackedThroughout(rx, run, h, k - 1)
    requires |SourceRun(rx, run, h, k - 1)| <= j < |SourceRun(rx, run, h, k)|
    ensures HasOrigin(rx, run, h, k, j, k - 1)
  {
    OneMorePart(rx, run, h, k);
    var part := SourcePart(Before(rx, run, k - 1), run[k - 1], h);
    LastIsLast(SourceRun(rx, run, h, k - 1), part, j);
    OriginHere(rx, run, h, k, part[0]);
  }

  /** Event `i` adds `last`, and the source's own run up to it is `upto`. */
  ghost predicate IsOrigin(rx: Receiver, run: seq<Event>, h: Handle, k: nat, i: nat, upto: seq<SourceRuns.SourceEvent>,
          last: SourceRuns.SourceEvent)
    requires k <= |run| && TrackedThroughout(rx, run, h, k)
  {
    && i < k && h in Before(rx, run, i).sources
    && SourceRun(rx, run, h, i + 1) == upto
    && SourcePart(Before(rx, run, i), run[i], h) == [last]
  }

  lemma OriginHere(rx: Receiver, run: seq<Event>, h: Handle, k: nat, last: SourceRuns.SourceEvent)
    requires 0 < k <= |run| && TrackedThroughout(rx, run, h, k) && h in Before(rx, run, k - 1).sources
    requires SourcePart(Before(rx, run, k - 1), run[k - 1], h) == [last]
    ensures IsOrigin(rx, run, h, k, k - 1, SourceRun(rx, run, h, k), last)
  {
  }

  lemma OriginStays(rx: Receiver, run: seq<Event>, h: Handle, k: nat, i: nat, upto: seq<SourceRuns.SourceEvent>,
          last: SourceRuns.SourceEvent)
    requires 0 < k <= |run| && TrackedThroughout(rx, run, h, k) && TrackedThroughout(rx, run, h, k - 1)
    requires IsOrigin(rx, run, h, k - 1, i, upto, last)
    ensures IsOrigin(rx, run, h, k, i, upto, last)
  {
  }

  lemma FirstIsFirst<E>(earlier: seq<E>, part: seq<E>, j: nat)
    requires j < |earlier|
    ensures (earlier + part)[..j + 1] == earlier[..j + 1] && (earlier + part)[j] == earlier[j]
  {
  }

  lemma LastIsLast<E>(earlier: seq<E>, part: seq<E>, j: nat)
    requires |part| <= 1 && |earlier| <= j < |earlier + part|
    ensures (earlier + part)[..j + 1] == earlier + part && |part| == 1 && part[0] == (earlier + part)[j]
  {
  }

  lemma OneMorePart(rx: Receiver, run: seq<Event>, h: Handle, k: nat)
    requires 0 < k <= |run| && TrackedThroughout(rx, run, h, k)
    ensures TrackedThroughout(rx, run, h, k - 1) && h in Before(rx, run, k - 1).sources
    ensures var part := SourcePart(Before(rx, run, k - 1), run[k - 1], h);
      |part| <= 1 && SourceRun(rx, run, h, k) == SourceRun(rx, run, h, k - 1) + part
  {
  }

  predicate IsFrom(e: Event, h: Handle, startCode: byte) {
    e.Data? && e.handle == h && e.packet.startCode == startCode
  }

  /** What a packet is worth is settled by the events up to it. */
  lemma SettledByPrefix(s: Source, run: seq<SourceRuns.SourceEvent>, f: bool, j: nat)
    requires j < |run|
    ensures SourceRuns.At(s, run, f, j) == SourceRuns.At(s, run[..j + 1], f, j)
  {
    assert run == run[..j + 1] + run[j + 1..];
    LongerRun(s, run[..j + 1], run[j + 1..], f, j);
  }

  lemma PapComesFromPap(rx: Receiver, e: Event, h: Handle, part: SourceRuns.SourceEvent)
    requires h in rx.sources && SourcePart(rx, e, h) == [part] && SourceRuns.IsPap(part)
    ensures IsFrom(e, h, STARTCODE_PRIORITY) && !IsFuture(rx, e.from)
  {
    assert part == SourcePart(rx, e, h)[0];
  }

  /** PAP that a source accepts on its own was notified to the application by its receiver. */
  lemma AcceptedPapWasNotified(rx: Receiver, run: seq<Event>, h: Handle, k: nat, j: nat)
    requires k <= |run| && TrackedThroughout(rx, run, h, k) && j < |SourceRun(rx, run, h, k)|
    requires !rx.settings.filterPreview && SourceRuns.PapAccepted(rx.sources[h], SourceRun(rx, run, h, k), false, j)
    ensures exists i :: 0 <= i < k && IsFrom(run[i], h, STARTCODE_PRIORITY) && At(rx, run, i).data
  {
    var alone := SourceRun(rx, run, h, k);
    var upto := alone[..j + 1];
    var i := OriginOf(rx, run, h, k, j);
    assert IsOrigin(rx, run, h, k, i, upto, alone[j]);
    SourceRuns.UnfilteredPapNotifies(rx.sources[h], alone, j);
    SettledByPrefix(rx.sources[h], alone, false, j);
    assert |upto| - 1 == j;
    OriginWasNotified(rx, run, h, k, i, upto, alone[j]);
  }

  lemma OriginWasNotified(rx: Receiver, run: seq<Event>, h: Handle, k: nat, i: nat, upto: seq<SourceRuns.SourceEvent>,
          last: SourceRuns.SourceEvent)
    requires k <= |run| && TrackedThroughout(rx, run, h, k) && !rx.settings.filterPreview
    requires IsOrigin(rx, run, h, k, i, upto, last) && SourceRuns.IsPap(last)
    requires upto != [] && SourceRuns.At(rx.sources[h], upto, false, |upto| - 1).notify
    ensures IsFrom(run[i], h, STARTCODE_PRIORITY) && At(rx, run, i).data
  {
    PapComesFromPap(Before(rx, run, i), run[i], h, last);
    PrefixIsTracked(rx, run, h, i, k);
    EachSourceIsSeenAlone(rx, run, h, i);
  }

  /**
   As documented: unless preview data is filtered, the application is given no NULL start code data of a
   source that started out waiting before it was given PAP of that source or the wait has expired.
   */
  lemma NullDataWaitsForPap(rx: Receiver, run: seq<Event>, h: Handle, k: nat)
    requires Timed(run) && k < |run| && TrackedThroughout(rx, run, h, k)
    requires !rx.settings.filterPreview && rx.sources[h].state == WaitingForPap
    requires IsFrom(run[k], h, STARTCODE_DMX) && At(rx, run, k).data
    ensures
      || Expired(rx.sources[h].papTimer, run[k].now)
      || exists i :: 0 <= i < k && IsFrom(run[i], h, STARTCODE_PRIORITY) && At(rx, run, i).data
  {
    assert h in Before(rx, run, k).sources;
    EachSourceIsSeenAlone(rx, run, h, k);
    var s, earlier := rx.sources[h], SourceRun(rx, run, h, k);
    var part := SourcePart(Before(rx, run, k), run[k], h);
    LastEventIsTimed(rx, run, h, k);
    SourceRuns.NullWaitsForPapOrTimeout(s, earlier + part, false, |earlier|);
    if j :| 0 <= j < |earlier| && SourceRuns.PapAccepted(s, earlier + part, false, j) {
      LongerRun(s, earlier, part, false, j);
      AcceptedPapWasNotified(rx, run, h, k, j);
    }
  }

  lemma LastEventIsTimed(rx: Receiver, run: seq<Event>, h: Handle, k: nat)
    requires Timed(run) && k < |run| && TrackedThroughout(rx, run, h, k) && h in Before(rx, run, k).sources
    ensures SourceRuns.Timed(SourceRun(rx, run, h, k) + SourcePart(Before(rx, run, k), run[k], h), 0)
  {
    SourceRunIsTimed(rx, run, h, k);
    OneMoreIsTimed(SourceRun(rx, run, h, k), if k == 0 then 0 else run[k - 1].now, Before(rx, run, k), run[k], h);
  }
}
