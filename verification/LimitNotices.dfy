/** When a receiver that is full again says so, with its lost sources found by its own termination sets. */
module LimitNotices {
  import opened Common
  import opened Interfaces
  import opened StatusLists
  import opened LossRuns
  import M = ReceiverModel
  import R = ReceiverRuns

  /** The receiver's own part of a run. */
  ghost function ReceiverRun(s: Tracking, run: seq<Event>): (own: seq<M.Event>)
    ensures |own| == |run|
  {
    seq(|run|, k requires 0 <= k < |run| => ReceiverEvent(Before(s, run, k), run[k]))
  }

  lemma AdvancesAlike(s: Tracking, e: Event)
    ensures Advanced(s, e).rx == M.Step(s.rx, ReceiverEvent(s, e)).0
  {
  }

  ghost predicate IsOwnEvent(s: Tracking, run: seq<Event>, own: seq<M.Event>, k: nat)
    requires k < |run| == |own|
  {
    own[k] == ReceiverEvent(Before(s, run, k), run[k])
  }

  ghost predicate IsOwnRun(s: Tracking, run: seq<Event>, own: seq<M.Event>) {
    |own| == |run| && forall k | 0 <= k < |run| :: IsOwnEvent(s, run, own, k)
  }

  lemma OneFurther(s: Tracking, run: seq<Event>, own: seq<M.Event>, k: nat)
    requires 0 < k <= |run| == |own| && IsOwnEvent(s, run, own, k - 1)
    requires Before(s, run, k - 1).rx == M.Before(s.rx, own, k - 1)
    ensures Before(s, run, k).rx == M.Before(s.rx, own, k)
  {
    AdvancesAlike(Before(s, run, k - 1), run[k - 1]);
  }

  lemma {:induction false} OwnRunsAlong(s: Tracking, run: seq<Event>, own: seq<M.Event>, k: nat)
    requires IsOwnRun(s, run, own) && k <= |run|
    ensures Before(s, run, k).rx == M.Before(s.rx, own, k)
  {
    if k > 0 {
      OwnRunsAlong(s, run, own, k - 1);
      OneFurther(s, run, own, k);
    }
  }

  lemma ReceiverRunsAlong(s: Tracking, run: seq<Event>, k: nat)
    requires k <= |run|
    ensures Before(s, run, k).rx == M.Before(s.rx, ReceiverRun(s, run), k)
  {
    assert IsOwnRun(s, run, ReceiverRun(s, run));
    OwnRunsAlong(s, run, ReceiverRun(s, run), k);
  }

  /** Event `k` announces that the source limit is exceeded. */
  ghost predicate Announces(s: Tracking, run: seq<Event>, k: nat)
    requires k < |run|
  {
    M.Step(Before(s, run, k).rx, ReceiverEvent(Before(s, run, k), run[k])).1.limitExceeded
  }

  /** Event `k` is a packet of a source beyond the limit. */
  ghost predicate Exceeds(s: Tracking, run: seq<Event>, k: nat)
    requires k < |run|
  {
    R.TurnedAway(Before(s, run, k).rx, ReceiverEvent(Before(s, run, k), run[k]))
  }

  ghost predicate SilentBetween(s: Tracking, run: seq<Event>, i: nat, k: nat)
    requires k <= |run|
  {
    forall j | i < j < k :: !Announces(s, run, j)
  }

  ghost predicate IsBelow(s: Tracking, run: seq<Event>, j: nat)
    requires j <= |run|
  {
    |Before(s, run, j).rx.sources| < Before(s, run, j).rx.settings.sourceCountMax
  }

  /** The number of sources was below the limit in between. */
  ghost predicate WasBelow(s: Tracking, run: seq<Event>, i: nat, k: nat)
    requires k <= |run|
  {
    exists j :: i < j <= k && IsBelow(s, run, j)
  }

  /** Sources were reported lost in between, or the universe changed. */
  ghost predicate DropWasKnown(s: Tracking, run: seq<Event>, i: nat, k: nat)
    requires k <= |run|
  {
    exists j :: i < j < k && IsKnownDrop(s, run, j)
  }

  ghost predicate IsKnownDrop(s: Tracking, run: seq<Event>, j: nat)
    requires j < |run|
  {
    if run[j].Ticked? then Report(Before(s, run, j), run[j]) != [] else run[j].event.UniverseChange?
  }

  lemma KnownDropMakesRoom(s: Tracking, run: seq<Event>, j: nat)
    requires PossibleRun(s, run) && j < |run|
    ensures IsKnownDrop(s, run, j) <==> R.MakesRoomKnown(ReceiverRun(s, run)[j])
  {
    assert PossibleAt(s, run, j);
    var lost := Report(Before(s, run, j), run[j]);
    assert |Handles(lost)| == |lost|;
  }

  /** After sources were reported lost, or the universe changed, there are fewer than the limit allows. */
  lemma StepBelow(s: Tracking, e: Event)
    requires HoldsTracked(s) && Possible(s, e) && R.WithinLimit(s.rx)
    requires s.rx.settings.sourceCountMax != M.INFINITE_SOURCES
    requires if e.Ticked? then Report(s, e) != [] else e.event.UniverseChange?
    ensures |Advanced(s, e).rx.sources| < s.rx.settings.sourceCountMax
    ensures Advanced(s, e).rx.settings == s.rx.settings
  {
    if e.Ticked? {
      StepKeepsTracked(s, e);
      var gone := Handles(Report(s, e))[0];
      assert gone in Handles(Report(s, e));
      FewerKeys(Advanced(s, e).rx.sources, s.rx.sources, gone);
    }
  }

  lemma KnownDropIsBelow(settings: M.Settings, now: nat, listed: seq<Interface>, run: seq<Event>, j: nat)
    requires PossibleRun(Created(settings, now, listed), run) && j < |run|
    requires settings.sourceCountMax != M.INFINITE_SOURCES
    requires IsKnownDrop(Created(settings, now, listed), run, j)
    ensures IsBelow(Created(settings, now, listed), run, j + 1)
  {
    var s := Created(settings, now, listed);
    RunKeepsTracked(s, run, j);
    ReceiverRunsAlong(s, run, j);
    R.NeverMoreThanTheLimit(settings, now, listed, ReceiverRun(s, run), j);
    assert PossibleAt(s, run, j);
    StepBelow(Before(s, run, j), run[j]);
  }

  /** After the limit was announced, the next packet beyond it is announced exactly when a drop was known of. */
  lemma AnnouncedWhenKnownIff(s: Tracking, run: seq<Event>, i: nat, k: nat)
    requires PossibleRun(s, run) && i < k < |run| && Announces(s, run, i) && SilentBetween(s, run, i, k)
    requires Exceeds(s, run, k)
    ensures Announces(s, run, k) <==> DropWasKnown(s, run, i, k)
  {
    var own := ReceiverRun(s, run);
    forall j | i <= j <= k ensures M.At(s.rx, own, j).limitExceeded == Announces(s, run, j) {
      ReceiverRunsAlong(s, run, j);
    }
    forall j | i < j < k ensures !M.At(s.rx, own, j).limitExceeded {
      assert !Announces(s, run, j);
    }
    ReceiverRunsAlong(s, run, k);
    R.AnnouncedAgainIff(s.rx, own, i, k);
    forall j | i < j < k ensures IsKnownDrop(s, run, j) <==> R.MakesRoomKnown(own[j]) {
      KnownDropMakesRoom(s, run, j);
    }
  }

  /**
   The documented promise: once announced, the limit is not announced again until the number of sources drops
   below it and hits it again. Never before that, in every run; and then, exactly when the drop came with a
   report of lost sources or with a universe change.
   */
  lemma AnnouncedAfterDropIff(settings: M.Settings, now: nat, listed: seq<Interface>, run: seq<Event>, i: nat, k: nat)
    requires PossibleRun(Created(settings, now, listed), run) && i < k < |run|
    requires var s := Created(settings, now, listed);
      Announces(s, run, i) && SilentBetween(s, run, i, k) && Exceeds(s, run, k)
    ensures var s := Created(settings, now, listed);
      && (Announces(s, run, k) ==> WasBelow(s, run, i, k))
      && ((Announces(s, run, k) <==> WasBelow(s, run, i, k))
           <==> (WasBelow(s, run, i, k) ==> DropWasKnown(s, run, i, k)))
  {
    var s := Created(settings, now, listed);
    AnnouncedWhenKnownIff(s, run, i, k);
    ReceiverRunsAlong(s, run, k);
    R.NeverMoreThanTheLimit(settings, now, listed, ReceiverRun(s, run), k);
    if j: nat :| i < j < k && IsKnownDrop(s, run, j) {
      KnownDropIsBelow(settings, now, listed, run, j);
      assert i < j + 1 <= k && IsBelow(s, run, j + 1);
    }
  }
}
