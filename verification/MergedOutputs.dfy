/**
 Receiver and merge receiver together: when the merged outputs are the merge of what data notifications said, over
 whole runs.
 */
module MergedOutputs {
  import opened Common
  import opened Interfaces
  import opened SourceTracking
  import opened MergedUniverse
  import M = ReceiverModel
  import G = MergeReceiverModel
  import P = MergeReceiverProofs
  import N = NotifiedData
  import MergerModel
  import Runs

  // ---- What has been told ----

  /** The callbacks of one event. */
  ghost function CallsOf(s: State, e: Event): (calls: seq<G.Event>)
    ensures forall c | c in calls :: G.Deliverable(c)
  {
    Callbacks(e, M.Step(s.rx, e.cause).1)
  }

  /** What the notifications of an event, callback by callback, make of what was told before. */
  ghost function ToldBy(s: State, told: map<Handle, N.Told>, e: Event): map<Handle, N.Told> {
    N.FollowAll(N.Heard(s.merge, told), CallsOf(s, e)).told
  }

  ghost function ToldAt(s: State, run: seq<Event>, k: nat): map<Handle, N.Told>
    requires k <= |run|
  {
    if k == 0 then map[] else ToldBy(Before(s, run, k - 1), ToldAt(s, run, k - 1), run[k - 1])
  }

  /** The merge receiver, and what was told of its sources, before event `k`. */
  ghost function HeardAt(s: State, run: seq<Event>, k: nat): N.Heard
    requires k <= |run|
  {
    N.Heard(Before(s, run, k).merge, ToldAt(s, run, k))
  }

  // ---- One event ----

  /** Nothing that the callbacks bring or move gets lost on the way, room aside. */
  ghost predicate AllCarried(h: N.Heard, calls: seq<G.Event>)
    requires G.WellFormedReceiver(h.rx) && forall c | c in calls :: G.Deliverable(c)
    decreases |calls|
  {
    calls == [] || (N.Carried(h, calls[0]) && AllCarried(N.Follow(h, calls[0]), calls[1..]))
  }

  lemma AdmittedBelowLimit(rx: G.Receiver, c: G.Event)
    requires P.Sound(rx) && P.Roomy(rx)
    requires c.UniverseData? && c.packet.source !in rx.sources ==> P.RoomForOne(rx)
    ensures P.Admitted(rx, c)
  {
    if c.UniverseData? && c.packet.source !in rx.sources {
      P.RoomInBoth(rx);
    }
  }

  /** Below the limit, only what is carried decides. */
  lemma {:induction false} FineIffCarried(h: N.Heard, calls: seq<G.Event>)
    requires N.Faithful(h) && P.Roomy(h.rx) && (forall c | c in calls :: G.Deliverable(c))
    requires P.NewcomersBelowLimit(h.rx, calls)
    ensures N.AllFine(h, calls) <==> AllCarried(h, calls)
    decreases |calls|
  {
    if calls != [] {
      AdmittedBelowLimit(h.rx, calls[0]);
      if N.Carried(h, calls[0]) {
        N.FaithfulAfterIff(h, calls[0]);
        P.ReactKeepsRoomy(h.rx, calls[0]);
        FineIffCarried(N.Follow(h, calls[0]), calls[1..]);
      }
    }
  }

  /** The merge receiver remembers what was told all through the callbacks of event `k`. */
  ghost predicate RemembersThrough(s: State, run: seq<Event>, k: nat)
    requires k < |run|
  {
    N.FaithfulThroughout(HeardAt(s, run, k), CallsOf(Before(s, run, k), run[k]))
  }

  ghost predicate CarriedAt(s: State, run: seq<Event>, k: nat)
    requires k < |run|
  {
    AllCarried(HeardAt(s, run, k), CallsOf(Before(s, run, k), run[k]))
  }

  ghost predicate FaithfulAt(s: State, run: seq<Event>, k: nat)
    requires k <= |run|
  {
    N.Faithful(HeardAt(s, run, k))
  }

  lemma OneEventIff(s: State, told: map<Handle, N.Told>, e: Event)
    requires InStep(s) && N.Faithful(N.Heard(s.merge, told))
    ensures var heard := N.Heard(s.merge, told);
      && (N.FaithfulThroughout(heard, CallsOf(s, e)) <==> AllCarried(heard, CallsOf(s, e)))
      && (AllCarried(heard, CallsOf(s, e)) ==> N.Faithful(N.Heard(Advanced(s, e).merge, ToldBy(s, told, e))))
  {
    var heard := N.Heard(s.merge, told);
    CallbacksBelowLimit(s, e);
    FineIffCarried(heard, CallsOf(s, e));
    N.FaithfulWhileFine(heard, CallsOf(s, e));
    assert N.FollowAll(heard, CallsOf(s, e)) == N.Heard(Advanced(s, e).merge, ToldBy(s, told, e));
  }

  lemma NextHeard(s: State, run: seq<Event>, k: nat)
    requires k < |run|
    ensures HeardAt(s, run, k + 1) == N.Heard(Advanced(Before(s, run, k), run[k]).merge,
                                              ToldBy(Before(s, run, k), ToldAt(s, run, k), run[k]))
  {
  }

  lemma EventIff(s: State, run: seq<Event>, k: nat)
    requires k < |run| && InStep(Before(s, run, k)) && FaithfulAt(s, run, k)
    ensures RemembersThrough(s, run, k) <==> CarriedAt(s, run, k)
    ensures CarriedAt(s, run, k) ==> FaithfulAt(s, run, k + 1)
  {
    OneEventIff(Before(s, run, k), ToldAt(s, run, k), run[k]);
    NextHeard(s, run, k);
  }

  // ---- Every run ----

  ghost predicate RemembersUpTo(s: State, run: seq<Event>, k: nat)
    requires k <= |run|
  {
    forall j | 0 <= j < k :: RemembersThrough(s, run, j)
  }

  ghost predicate CarriedUpTo(s: State, run: seq<Event>, k: nat)
    requires k <= |run|
  {
    forall j | 0 <= j < k :: CarriedAt(s, run, j)
  }

  ghost function BeingFaithful(s: State, run: seq<Event>): nat -> bool {
    (k: nat) => k <= |run| && FaithfulAt(s, run, k)
  }

  ghost function Remembering(s: State, run: seq<Event>): nat -> bool {
    (k: nat) => k < |run| && RemembersThrough(s, run, k)
  }

  ghost function Carrying(s: State, run: seq<Event>): nat -> bool {
    (k: nat) => k < |run| && CarriedAt(s, run, k)
  }

  lemma EventGoesAlong(s: State, run: seq<Event>, j: nat)
    requires InStep(s) && j < |run| && NobodyDropped(s, run, j)
    ensures Runs.GoesAlong(BeingFaithful(s, run), Remembering(s, run), Carrying(s, run), j)
  {
    InStepUntilDropped(s, run, j);
    if FaithfulAt(s, run, j) {
      EventIff(s, run, j);
    }
  }

  lemma RemembersMeansAll(s: State, run: seq<Event>, k: nat)
    requires k <= |run|
    ensures RemembersUpTo(s, run, k) <==> Runs.AllUpTo(Remembering(s, run), k)
  {
    assert forall j: nat | j < k :: Remembering(s, run)(j) == RemembersThrough(s, run, j);
  }

  lemma CarriedMeansAll(s: State, run: seq<Event>, k: nat)
    requires k <= |run|
    ensures CarriedUpTo(s, run, k) <==> Runs.AllUpTo(Carrying(s, run), k)
  {
    assert forall j: nat | j < k :: Carrying(s, run)(j) == CarriedAt(s, run, j);
  }

  lemma AllGoAlong(s: State, run: seq<Event>, k: nat)
    requires InStep(s) && BeingFaithful(s, run)(0) && k <= |run| && NobodyDropped(s, run, k)
    ensures Runs.AllUpTo(Remembering(s, run), k) <==> Runs.AllUpTo(Carrying(s, run), k)
    ensures Runs.AllUpTo(Carrying(s, run), k) ==> BeingFaithful(s, run)(k)
  {
    var so, one, other := BeingFaithful(s, run), Remembering(s, run), Carrying(s, run);
    forall j: nat | j < k ensures Runs.GoesAlong(so, one, other, j) {
      EventGoesAlong(s, run, j);
    }
    Runs.AlongTheWay(so, one, other, k);
  }

  lemma RemembersWhileCarried(s: State, run: seq<Event>, k: nat)
    requires InStep(s) && FaithfulAt(s, run, 0) && k <= |run| && NobodyDropped(s, run, k)
    ensures RemembersUpTo(s, run, k) <==> CarriedUpTo(s, run, k)
    ensures CarriedUpTo(s, run, k) ==> FaithfulAt(s, run, k)
  {
    AllGoAlong(s, run, k);
    RemembersMeansAll(s, run, k);
    CarriedMeansAll(s, run, k);
  }

  /**
   As long as no tick has dropped a notified source silently, the merge receiver remembers exactly what was notified
   of every source it knows, all along the run, if and only if no data of a source were marked for the merger it is
   not in and no PAP reached beyond its source's levels when a sampling period ended; and then each live slot is the
   from-scratch merge of the last notified levels, priorities and PAP of the sources outside sampling.
   */
  lemma OutputsMergeTheNotifiedIff(now: nat, listed: seq<Interface>, config: MergerModel.Config, usePap: bool,
          run: seq<Event>, k: nat)
    requires k <= |run| && NobodyDropped(Created(now, listed, config, usePap), run, k)
    ensures var s := Created(now, listed, config, usePap);
      && (RemembersUpTo(s, run, k) <==> CarriedUpTo(s, run, k))
      && (CarriedUpTo(s, run, k) ==> N.MergesTold(HeardAt(s, run, k)))
  {
    var s := Created(now, listed, config, usePap);
    CreatedInStep(now, listed, config, usePap);
    N.UnheardIsFaithful(config, usePap);
    RemembersWhileCarried(s, run, k);
    if CarriedUpTo(s, run, k) {
      N.FaithfulMergesTold(HeardAt(s, run, k));
    }
  }
}
