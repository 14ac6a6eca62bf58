/**
 When notified data go to the merger that has their source: without network resets and foreign interfaces, always.
 Then the only data that a merge receiver forgets are PAP beyond the levels at the end of a sampling period.
 */
module Routing {
  import opened Common
  import opened Interfaces
  import opened SourceTracking
  import opened MergedUniverse
  import S = SamplingPeriod
  import M = ReceiverModel
  import G = MergeReceiverModel
  import P = MergeReceiverProofs
  import N = NotifiedData
  import O = MergedOutputs
  import MergerModel
  import Runs

  /** No network reset, and no packet from an interface that the receiver does not use. */
  predicate Plain(rx: M.Receiver, e: M.Event) {
    !e.NetworkReset? && (e.Data? ==> e.from in rx.netints)
  }

  // ---- Flags ----

  ghost predicate AllFlagged(rx: G.Receiver, sampling: bool) {
    forall h | h in rx.sources :: rx.sources[h].sampling == sampling
  }

  /** The callback clears no flag and brings no source with another flag. */
  predicate Agrees(c: G.Event, sampling: bool) {
    && !c.SamplingEnded? && !c.ChangeUniverse?
    && (c.UniverseData? ==> c.packet.isSampling == sampling)
  }

  ghost predicate AllAgree(calls: seq<G.Event>, sampling: bool) {
    forall c | c in calls :: G.Deliverable(c) && Agrees(c, sampling)
  }

  lemma {:induction false} LosingKeepsFlags(rx: G.Receiver, lost: seq<Handle>, sampling: bool)
    requires G.WellFormedReceiver(rx) && AllFlagged(rx, sampling)
    ensures AllFlagged(G.Lose(rx, lost), sampling)
    decreases |lost|
  {
    if lost != [] {
      LosingKeepsFlags(rx, lost[..|lost| - 1], sampling);
    }
  }

  lemma AgreeingKeepsFlags(rx: G.Receiver, c: G.Event, sampling: bool)
    requires G.WellFormedReceiver(rx) && AllFlagged(rx, sampling) && G.Deliverable(c) && Agrees(c, sampling)
    ensures AllFlagged(G.React(rx, c), sampling)
  {
    match c
    case UniverseData(p) => FeedingKeepsSources(G.Track(rx, p), p);
    case SourcesLost(lost) => LosingKeepsFlags(rx, lost, sampling);
    case SamplingStarted =>
    case PapLost(h) =>
  }

  lemma FeedingKeepsSources(rx: G.Receiver, p: G.Packet)
    requires G.WellFormedReceiver(rx)
    ensures G.Feed(rx, p).sources == rx.sources
  {
  }

  lemma {:induction false} AgreeingRunKeepsFlags(rx: G.Receiver, calls: seq<G.Event>, sampling: bool)
    requires G.WellFormedReceiver(rx) && AllFlagged(rx, sampling) && AllAgree(calls, sampling)
    ensures AllFlagged(P.RunEvents(rx, calls), sampling)
    decreases |calls|
  {
    if calls != [] {
      AgreeingKeepsFlags(rx, calls[0], sampling);
      AgreeingRunKeepsFlags(G.React(rx, calls[0]), calls[1..], sampling);
    }
  }

  lemma EndingClearsFlags(rx: G.Receiver)
    requires G.WellFormedReceiver(rx)
    ensures AllFlagged(G.React(rx, G.SamplingEnded), false)
  {
    P.EndSamplingClearsFlags(rx.(sampling := false), Next(rx.sources.Keys, 0), 0);
  }

  /** Callbacks that agree with all the flags lose nothing. */
  lemma {:induction false} AgreeingIsCarried(h: N.Heard, calls: seq<G.Event>, sampling: bool)
    requires G.WellFormedReceiver(h.rx) && AllFlagged(h.rx, sampling) && AllAgree(calls, sampling)
    ensures O.AllCarried(h, calls)
    decreases |calls|
  {
    if calls != [] {
      AgreeingKeepsFlags(h.rx, calls[0], sampling);
      AgreeingIsCarried(N.Follow(h, calls[0]), calls[1..], sampling);
    }
  }

  // ---- One event ----

  /** The tick ends the sampling period. */
  predicate Ends(rx: M.Receiver, e: M.Event) {
    e.Tick? && rx.sampling.active && Expired(rx.sampling.timer, e.now)
  }

  /** During a period all the receiver's interfaces take part in it, and none is left for the next one. */
  predicate AllTakePart(rx: M.Receiver) {
    rx.sampling.netints == if rx.sampling.active then M.AllCurrent(rx.netints) else map[]
  }

  /** Every source is flagged for sampling exactly while the receiver samples. */
  ghost predicate Aligned(s: State) {
    AllTakePart(s.rx) && AllFlagged(s.merge, s.rx.sampling.active)
  }

  lemma TakingPartGoesOn(rx: M.Receiver, e: M.Event)
    requires AllTakePart(rx) && Plain(rx, e)
    ensures AllTakePart(M.Step(rx, e).0)
    ensures M.Step(rx, e).0.sampling.active == if e.UniverseChange? then true else rx.sampling.active && !Ends(rx, e)
  {
    if Ends(rx, e) {
      assert S.Upcoming(rx.sampling.netints) == map[];
    }
  }

  lemma OnlyTheFirstEnds(rx: M.Receiver, e: M.Event)
    requires e.Tick?
    ensures var notices := M.Step(rx, e).1.notices;
      && (forall i | 0 <= i < |notices| :: notices[i].Ended? ==> i == 0)
      && (Ends(rx, e) <==> notices != [] && notices[0].Ended?)
  {
  }

  lemma MarkedAsSampling(rx: M.Receiver, e: M.Event)
    requires AllTakePart(rx) && Plain(rx, e) && e.Data? && M.Step(rx, e).1.data
    ensures M.Step(rx, e).1.samplingData == rx.sampling.active
  {
  }

  lemma DataCalls(e: Event, report: M.Report, sampling: bool)
    requires e.cause.Data? && (report.data ==> report.samplingData == sampling)
    ensures AllAgree(Callbacks(e, report), sampling)
  {
  }

  /** The callbacks of a tick, after the end of a sampling period if there is one. */
  lemma TickCalls(e: Event, report: M.Report, ends: bool, sampling: bool) returns (rest: seq<G.Event>)
    requires e.cause.Tick? && forall i | 0 <= i < |report.notices| :: report.notices[i].Ended? ==> i == 0
    requires ends <==> report.notices != [] && report.notices[0].Ended?
    ensures Callbacks(e, report) == (if ends then [G.SamplingEnded] else []) + rest && AllAgree(rest, sampling)
  {
    var calls := Callbacks(e, report);
    if ends {
      rest := calls[1..];
      assert calls == [calls[0]] + rest;
    } else {
      rest := calls;
      assert calls == [] + rest;
    }
  }

  /** What an event calls back, after the end of a sampling period if there is one. */
  lemma OtherCalls(s: State, e: Event) returns (rest: seq<G.Event>)
    requires Aligned(s) && Plain(s.rx, e.cause) && !e.cause.UniverseChange?
    ensures O.CallsOf(s, e) == (if Ends(s.rx, e.cause) then [G.SamplingEnded] else []) + rest
    ensures AllAgree(rest, s.rx.sampling.active && !Ends(s.rx, e.cause))
  {
    var report, sampling := M.Step(s.rx, e.cause).1, s.rx.sampling.active;
    if e.cause.Tick? {
      OnlyTheFirstEnds(s.rx, e.cause);
      rest := TickCalls(e, report, Ends(s.rx, e.cause), sampling && !Ends(s.rx, e.cause));
    } else {
      if report.data {
        MarkedAsSampling(s.rx, e.cause);
      }
      DataCalls(e, report, sampling);
      rest := Callbacks(e, report);
      assert rest == [] + rest;
    }
  }

  lemma EndingGoesFirst(rx: G.Receiver, rest: seq<G.Event>)
    requires G.WellFormedReceiver(rx) && AllAgree(rest, false)
    ensures forall c | c in [G.SamplingEnded] + rest :: G.Deliverable(c)
    ensures AllFlagged(P.RunEvents(rx, [G.SamplingEnded] + rest), false)
  {
    EndingClearsFlags(rx);
    AgreeingRunKeepsFlags(G.React(rx, G.SamplingEnded), rest, false);
    RunEventsJoined(rx, [G.SamplingEnded], rest);
    OneCallback(rx, G.SamplingEnded);
  }

  lemma EndingIsCarriedIff(h: N.Heard, rest: seq<G.Event>)
    requires G.WellFormedReceiver(h.rx) && AllAgree(rest, false)
    ensures forall c | c in [G.SamplingEnded] + rest :: G.Deliverable(c)
    ensures O.AllCarried(h, [G.SamplingEnded] + rest) <==> N.NothingCutOff(h)
  {
    var calls := [G.SamplingEnded] + rest;
    assert calls[0] == G.SamplingEnded && calls[1..] == rest;
    EndingClearsFlags(h.rx);
    AgreeingIsCarried(N.Follow(h, G.SamplingEnded), rest, false);
  }

  lemma StaysAligned(s: State, e: Event)
    requires InStep(s) && Aligned(s) && Plain(s.rx, e.cause)
    ensures Aligned(Advanced(s, e))
  {
    TakingPartGoesOn(s.rx, e.cause);
    if e.cause.UniverseChange? {
      UniverseChangeLeaves(s, e);
    } else {
      var rest := OtherCalls(s, e);
      if Ends(s.rx, e.cause) {
        EndingGoesFirst(s.merge, rest);
      } else {
        assert O.CallsOf(s, e) == rest;
        AgreeingRunKeepsFlags(s.merge, rest, s.rx.sampling.active);
      }
    }
  }

  /** The only way to lose data is to cut off PAP at the end of a sampling period. */
  lemma CarriedIffNotCutOff(s: State, told: map<Handle, N.Told>, e: Event)
    requires Aligned(s) && Plain(s.rx, e.cause)
    ensures var heard := N.Heard(s.merge, told);
      O.AllCarried(heard, O.CallsOf(s, e)) <==> (Ends(s.rx, e.cause) ==> N.NothingCutOff(heard))
  {
    var heard := N.Heard(s.merge, told);
    if e.cause.UniverseChange? {
      var call := G.ChangeUniverse(e.universe, Ok);
      assert O.CallsOf(s, e) == [call] && [call][1..] == [];
      assert O.AllCarried(N.Follow(heard, call), []);
    } else {
      var rest := OtherCalls(s, e);
      if Ends(s.rx, e.cause) {
        EndingIsCarriedIff(heard, rest);
      } else {
        assert O.CallsOf(s, e) == rest;
        AgreeingIsCarried(heard, rest, s.rx.sampling.active);
      }
    }
  }

  // ---- Every run ----

  /** No sampling period ends at event `k` with a source in it whose PAP was told beyond its levels. */
  ghost predicate NothingCutOffAt(s: State, run: seq<Event>, k: nat)
    requires k < |run|
  {
    Ends(Before(s, run, k).rx, run[k].cause) ==> N.NothingCutOff(O.HeardAt(s, run, k))
  }

  ghost predicate NothingCutOffUpTo(s: State, run: seq<Event>, k: nat)
    requires k <= |run|
  {
    forall j | 0 <= j < k :: NothingCutOffAt(s, run, j)
  }

  ghost function StayingAligned(): State -> bool {
    (s: State) => InStep(s) && Aligned(s)
  }

  ghost function BeingPlain(): (State, Event) -> bool {
    (s: State, e: Event) => Plain(s.rx, e.cause) && !DropsSilently(s, e)
  }

  /** All of it plain, and no notified source dropped silently. */
  ghost predicate PlainUpTo(s: State, run: seq<Event>, k: nat)
    requires k <= |run|
  {
    Runs.FineUpTo(Advanced, s, run, BeingPlain(), k)
  }

  lemma AlignedIsInvariant()
    ensures Runs.IsInvariant(Advanced, StayingAligned(), BeingPlain())
  {
    forall s: State, e: Event | StayingAligned()(s) && BeingPlain()(s, e) ensures StayingAligned()(Advanced(s, e)) {
      StaysInStep(s, e);
      StaysAligned(s, e);
    }
  }

  lemma CreatedAligned(now: nat, listed: seq<Interface>, config: MergerModel.Config, usePap: bool)
    ensures StayingAligned()(Created(now, listed, config, usePap))
  {
    CreatedInStep(now, listed, config, usePap);
  }

  lemma AlignedInRuns(s: State, run: seq<Event>, k: nat)
    requires StayingAligned()(s) && k <= |run| && PlainUpTo(s, run, k)
    ensures Aligned(Before(s, run, k))
  {
    AlignedIsInvariant();
    Runs.InvariantHolds(Advanced, s, run, StayingAligned(), BeingPlain(), k);
  }

  lemma CarriedAtIff(s: State, run: seq<Event>, k: nat)
    requires StayingAligned()(s) && k < |run| && PlainUpTo(s, run, k) && Plain(Before(s, run, k).rx, run[k].cause)
    ensures O.CarriedAt(s, run, k) <==> NothingCutOffAt(s, run, k)
  {
    AlignedInRuns(s, run, k);
    CarriedIffNotCutOff(Before(s, run, k), O.ToldAt(s, run, k), run[k]);
  }

  lemma CarriedUpToIff(s: State, run: seq<Event>, k: nat)
    requires StayingAligned()(s) && k <= |run| && PlainUpTo(s, run, k)
    ensures O.CarriedUpTo(s, run, k) <==> NothingCutOffUpTo(s, run, k)
  {
    forall j | 0 <= j < k ensures O.CarriedAt(s, run, j) <==> NothingCutOffAt(s, run, j) {
      assert BeingPlain()(Before(s, run, j), run[j]);
      CarriedAtIff(s, run, j);
    }
  }

  lemma PlainDropsNobody(s: State, run: seq<Event>, k: nat)
    requires k <= |run| && PlainUpTo(s, run, k)
    ensures NobodyDropped(s, run, k)
  {
    forall j | 0 <= j < k ensures DroppingNobody()(Before(s, run, j), run[j]) {
      assert BeingPlain()(Before(s, run, j), run[j]);
    }
  }

  /**
   In every run from creation without network resets, with packets on the receiver's own interfaces and no notified
   source dropped silently, the merge receiver remembers all that was notified if and only if no sampling period
   ended with a source in it whose PAP reached beyond its levels; and then each live slot is the merge of it.
   */
  lemma OnlyPapIsForgottenIff(now: nat, listed: seq<Interface>, config: MergerModel.Config, usePap: bool,
          run: seq<Event>, k: nat)
    requires k <= |run| && PlainUpTo(Created(now, listed, config, usePap), run, k)
    ensures var s := Created(now, listed, config, usePap);
      && (O.RemembersUpTo(s, run, k) <==> NothingCutOffUpTo(s, run, k))
      && (NothingCutOffUpTo(s, run, k) ==> N.MergesTold(O.HeardAt(s, run, k)))
  {
    var s := Created(now, listed, config, usePap);
    CreatedAligned(now, listed, config, usePap);
    PlainDropsNobody(s, run, k);
    CarriedUpToIff(s, run, k);
    O.OutputsMergeTheNotifiedIff(now, listed, config, usePap, run, k);
  }
}
