/** The sampling period of one receiver: when it runs, which interfaces take part, what is notified. */
module SamplingPeriod {
  import opened Common
  import opened Interfaces
  import opened SourceTracking
  import Runs

  const SAMPLE_TIME: nat := 1500

  /** `netints` maps each sampling period interface to whether it is in the next period only. */
  datatype Sampling = Sampling(active: bool, notifiedStarted: bool, timer: Timer, netints: map<Netint, bool>)

  datatype Notice = Started | Ended

  function Begin(s: Sampling, now: nat): Sampling {
    if s.active then s else s.(active := true, notifiedStarted := false, timer := Timer(now, SAMPLE_TIME))
  }

  /** The interfaces of the next period, made current. */
  function Upcoming(netints: map<Netint, bool>): map<Netint, bool> {
    map n | n in netints && netints[n] :: false
  }

  function EndPeriod(s: Sampling, now: nat): Sampling {
    var ended := s.(active := false, netints := Upcoming(s.netints));
    if ended.netints != map[] then Begin(ended, now) else ended
  }

  function TickSampling(s: Sampling, now: nat): (Sampling, seq<Notice>) {
    var ends := s.active && Expired(s.timer, now);
    var after := if ends then EndPeriod(s, now) else s;
    (after.(notifiedStarted := true),
     (if ends then [Ended] else []) + (if after.notifiedStarted then [] else [Started]))
  }

  /** Ending a period leaves no interface marked future; a new period runs exactly when some were pending. */
  lemma EndingStartsThePendingPeriod(s: Sampling, now: nat)
    requires s.active
    ensures var after := EndPeriod(s, now);
      && (forall n | n in after.netints :: !after.netints[n])
      && (forall n :: n in after.netints <==> n in s.netints && s.netints[n])
      && (after.active <==> exists n :: n in s.netints && s.netints[n])
      && (after.active ==> after.timer == Timer(now, SAMPLE_TIME) && !after.notifiedStarted)
  {
    var upcoming := Upcoming(s.netints);
    if n :| n in s.netints && s.netints[n] {
      assert n in upcoming;
    } else {
      assert upcoming.Keys == {};
    }
  }

  // ---- Runs ----

  /** A networking reset or universe change leaves some set of interfaces and begins a period. */
  datatype SamplingEvent = Begun(now: nat, netints: map<Netint, bool>) | Tick(now: nat)

  function Next(s: Sampling, e: SamplingEvent): Sampling {
    match e
    case Begun(now, netints) => Begin(s.(netints := netints), now)
    case Tick(now) => TickSampling(s, now).0
  }

  function Notices(s: Sampling, run: seq<SamplingEvent>): seq<Notice>
    decreases |run|
  {
    if run == [] then [] else
      (if run[0].Tick? then TickSampling(s, run[0].now).1 else []) + Notices(Next(s, run[0]), run[1..])
  }

  /** No tick ends a period whose start has not been notified yet. */
  predicate Punctual(s: Sampling, run: seq<SamplingEvent>)
    decreases |run|
  {
    run == [] ||
    (&& (run[0].Tick? && s.active && Expired(s.timer, run[0].now) ==> s.notifiedStarted)
     && Punctual(Next(s, run[0]), run[1..]))
  }

  /** Strictly alternating notices, the first of them a start when `start` holds. */
  predicate Alternating(notices: seq<Notice>, start: bool) {
    notices == [] || (notices[0] == (if start then Started else Ended) && Alternating(notices[1..], !start))
  }

  /** Where a receiver stands: `start` says whether the next notice is due to be a start. */
  predicate Phase(s: Sampling, start: bool) {
    if s.notifiedStarted then s.active == !start else s.active && start
  }

  lemma {:induction false} AlternatingFromPhase(s: Sampling, run: seq<SamplingEvent>, start: bool)
    requires Phase(s, start)
    ensures Alternating(Notices(s, run), start) <==> Punctual(s, run)
    decreases |run|
  {
    if run != [] {
      var next, rest := Next(s, run[0]), run[1..];
      var later := Notices(next, rest);
      if run[0].Begun? {
        AlternatingFromPhase(next, rest, start);
        assert Notices(s, run) == later;
      } else {
        var now := TickSampling(s, run[0].now).1;
        assert Notices(s, run) == now + later;
        if now == [] {
          AlternatingFromPhase(next, rest, start);
          assert Notices(s, run) == later;
        } else if now == [Ended, Started] {
          assert (now + later)[1..] == [Started] + later && ([Started] + later)[1..] == later;
          if !start {
            AlternatingFromPhase(next, rest, false);
          }
        } else {
          assert |now| == 1 && (now + later)[1..] == later;
          AlternatingFromPhase(next, rest, !start);
        }
      }
    }
  }

  /** A tick comes after the running period's time is up. */
  predicate RunsOut(timer: Timer, run: seq<SamplingEvent>)
  {
    exists i :: 0 <= i < |run| && run[i].Tick? && Expired(timer, run[i].now)
  }

  /** The first tick comes while the period's time is not up yet. */
  predicate TickedInTime(timer: Timer, run: seq<SamplingEvent>)
    decreases |run|
  {
    run != [] && if run[0].Tick? then !Expired(timer, run[0].now) else TickedInTime(timer, run[1..])
  }

  lemma RunsOutLater(timer: Timer, run: seq<SamplingEvent>)
    requires run != [] && RunsOut(timer, run) && !(run[0].Tick? && Expired(timer, run[0].now))
    ensures RunsOut(timer, run[1..])
  {
    var i :| 0 <= i < |run| && run[i].Tick? && Expired(timer, run[i].now);
    assert run[1..][i - 1] == run[i];
  }

  /** The notices of a period are to come: its start, and then its end. */
  predicate StartsAndEnds(notices: seq<Notice>) {
    |notices| >= 2 && notices[0] == Started && notices[1] == Ended
  }

  /**
   Over the rest of a run that outlasts it, a running period is announced as started and then as ended
   exactly when its start is still to be announced and a tick comes in time to do so.
   */
  lemma {:induction false} PeriodIsAnnouncedIff(s: Sampling, run: seq<SamplingEvent>)
    requires s.active && RunsOut(s.timer, run)
    ensures StartsAndEnds(Notices(s, run)) <==> !s.notifiedStarted && TickedInTime(s.timer, run)
    ensures Notices(s, run) != []
    ensures s.notifiedStarted || !TickedInTime(s.timer, run) ==> Notices(s, run)[0] == Ended
    decreases |run|
  {
    var next, later := Next(s, run[0]), Notices(Next(s, run[0]), run[1..]);
    if run[0].Begun? {
      RunsOutLater(s.timer, run);
      PeriodIsAnnouncedIff(next, run[1..]);
      assert Notices(s, run) == later;
    } else if !Expired(s.timer, run[0].now) {
      RunsOutLater(s.timer, run);
      PeriodIsAnnouncedIff(next, run[1..]);
      assert Notices(s, run) == (if s.notifiedStarted then [] else [Started]) + later;
    } else {
      assert TickSampling(s, run[0].now).1[0] == Ended;
      assert Notices(s, run)[0] == Ended;
    }
  }

  predicate OnlyTicks(run: seq<SamplingEvent>) {
    forall i | 0 <= i < |run| :: run[i].Tick?
  }

  /** Ticks alone start no period. */
  lemma {:induction false} NoPeriodNoNotice(s: Sampling, run: seq<SamplingEvent>)
    requires !s.active && s.notifiedStarted && OnlyTicks(run)
    ensures Notices(s, run) == []
    decreases |run|
  {
    if run != [] {
      assert run[0].Tick?;
      NoPeriodNoNotice(Next(s, run[0]), run[1..]);
    }
  }

  /** After a period that has been announced, another start is announced exactly when interfaces wait for one. */
  lemma {:induction false} AnnouncedPeriodIsFollowedIff(s: Sampling, run: seq<SamplingEvent>)
    requires s.active && s.notifiedStarted && OnlyTicks(run) && RunsOut(s.timer, run)
    ensures Started in Notices(s, run) <==> exists n :: n in s.netints && s.netints[n]
    decreases |run|
  {
    assert run[0].Tick?;
    var next, later := Next(s, run[0]), Notices(Next(s, run[0]), run[1..]);
    if !Expired(s.timer, run[0].now) {
      RunsOutLater(s.timer, run);
      AnnouncedPeriodIsFollowedIff(next, run[1..]);
      assert Notices(s, run) == later;
    } else {
      EndingStartsThePendingPeriod(s, run[0].now);
      if n :| n in s.netints && s.netints[n] {
        assert TickSampling(s, run[0].now).1[1] == Started;
        assert Notices(s, run)[1] == Started;
      } else {
        NoPeriodNoNotice(next, run[1..]);
        assert Notices(s, run) == [Ended];
      }
    }
  }

  /** A receiver as its creation leaves it. */
  function Created(now: nat, netints: map<Netint, bool>): Sampling {
    Begin(Sampling(false, false, Timer(0, 0), netints), now)
  }

  /** Started, ended, started, ... : the notices of a receiver alternate exactly in punctual runs. */
  lemma NoticesAlternateIffPunctual(now: nat, netints: map<Netint, bool>, run: seq<SamplingEvent>)
    ensures Alternating(Notices(Created(now, netints), run), true) <==> Punctual(Created(now, netints), run)
  {
    AlternatingFromPhase(Created(now, netints), run, true);
  }

  /** A first tick that comes only after the sampling time announces the end before the start. */
  lemma LateTickEndsBeforeItStarts()
    ensures Notices(Created(0, map[]), [Tick(2000)]) == [Ended, Started]
  {
    var s := Created(0, map[]);
    assert Upcoming(s.netints) == map[];
    assert TickSampling(s, 2000).1 == [Ended, Started];
    assert Notices(Next(s, Tick(2000)), []) == [];
  }

  /** Time never runs backwards, and no tick comes more than a sampling time after the one before. */
  predicate TickedOften(lastTick: nat, clock: nat, run: seq<SamplingEvent>)
    decreases |run|
  {
    run == [] ||
    (&& run[0].now >= clock
     && (run[0].Tick? ==> run[0].now <= lastTick + SAMPLE_TIME)
     && TickedOften(if run[0].Tick? then run[0].now else lastTick, run[0].now, run[1..]))
  }

  /** Whatever else happens, ticking that often announces every start in time. */
  lemma {:induction false} FrequentTicksArePunctual(s: Sampling, lastTick: nat, clock: nat, run: seq<SamplingEvent>)
    requires TickedOften(lastTick, clock, run) && lastTick <= clock
    requires s.active && !s.notifiedStarted ==> s.timer.interval == SAMPLE_TIME && lastTick <= s.timer.start
    ensures Punctual(s, run)
    decreases |run|
  {
    if run != [] {
      var e := run[0];
      FrequentTicksArePunctual(Next(s, e), if e.Tick? then e.now else lastTick, e.now, run[1..]);
    }
  }

  lemma FrequentTicksAlternate(now: nat, netints: map<Netint, bool>, run: seq<SamplingEvent>)
    requires TickedOften(now, now, run)
    ensures Alternating(Notices(Created(now, netints), run), true)
  {
    FrequentTicksArePunctual(Created(now, netints), now, now, run);
    NoticesAlternateIffPunctual(now, netints, run);
  }

  // ---- How long a period runs ----

  const DORMANT := Sampling(false, false, Timer(0, 0), map[])

  ghost function Steps(): (Sampling, SamplingEvent) -> Sampling {
    (s: Sampling, e: SamplingEvent) => Next(s, e)
  }

  ghost function TimedRight(): Sampling -> bool {
    (s: Sampling) => s.active ==> s.timer.interval == 1500
  }

  /** A period is running that began at time `begin`. */
  ghost function RunsSince(begin: nat): Sampling -> bool {
    (s: Sampling) => s.active && s.timer.start == begin
  }

  /** A period begins: none was running, or the tick that ends the one before finds interfaces waiting. */
  ghost function BeginsAt(begin: nat): (Sampling, SamplingEvent) -> bool {
    (s: Sampling, e: SamplingEvent) =>
      e.now == begin && match e
        case Begun(_, _) => !s.active
        case Tick(_) => s.active && begin > s.timer.start + 1500 && exists n :: n in s.netints && s.netints[n]
  }

  /** No tick comes more than 1.5 seconds after the beginning. */
  ghost function OutlastedBy(begin: nat): (Sampling, SamplingEvent) -> bool {
    (s: Sampling, e: SamplingEvent) => !(e.Tick? && e.now > begin + 1500)
  }

  lemma PeriodStep(s: Sampling, e: SamplingEvent, begin: nat)
    requires TimedRight()(s)
    ensures TimedRight()(Next(s, e))
    ensures RunsSince(begin)(Next(s, e)) <==>
      OutlastedBy(begin)(s, e) && (RunsSince(begin)(s) || BeginsAt(begin)(s, e))
  {
    if e.Tick? && s.active && Expired(s.timer, e.now) {
      EndingStartsThePendingPeriod(s, e.now);
    }
  }

  /** In every run, a period is running exactly when one began and no tick since came more than 1.5 seconds later. */
  lemma PeriodRunsIff(run: seq<SamplingEvent>, k: nat, begin: nat)
    requires k <= |run|
    ensures RunsSince(begin)(Runs.StateAt(Steps(), DORMANT, run, k)) <==>
      Runs.HasHeldSince(Steps(), DORMANT, run, BeginsAt(begin), OutlastedBy(begin), k)
  {
    forall s: Sampling, e: SamplingEvent | TimedRight()(s)
      ensures TimedRight()(Next(s, e))
      ensures RunsSince(begin)(Next(s, e)) <==>
        OutlastedBy(begin)(s, e) && (RunsSince(begin)(s) || BeginsAt(begin)(s, e))
    {
      PeriodStep(s, e, begin);
    }
    Runs.LatchedMeansHeldSince(Steps(), DORMANT, run, TimedRight(), RunsSince(begin), BeginsAt(begin),
                               OutlastedBy(begin), k);
  }
}
