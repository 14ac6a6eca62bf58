/** Runs of any machine: the state before each event, and what adding events does not change. */
module Runs {

  /** The state before event `k` of a run. */
  ghost function StateAt<S, E>(step: (S, E) -> S, s: S, run: seq<E>, k: nat): S
    requires k <= |run|
  {
    if k == 0 then s else step(StateAt(step, s, run, k - 1), run[k - 1])
  }

  lemma {:induction false} PrefixStays<S, E>(step: (S, E) -> S, s: S, run: seq<E>, more: seq<E>, k: nat)
    requires k <= |run|
    ensures StateAt(step, s, run + more, k) == StateAt(step, s, run, k)
  {
    if k > 0 {
      PrefixStays(step, s, run, more, k - 1);
    }
  }

  /** Some event made it so, and every event from that one on has kept it so. */
  ghost predicate HasHeldSince<S, E>(step: (S, E) -> S, s: S, run: seq<E>, makes: (S, E) -> bool,
          keeps: (S, E) -> bool, k: nat)
    requires k <= |run|
  {
    exists m :: HeldFrom(step, s, run, makes, keeps, m, k)
  }

  /** Event `m` made it so, and every event from that one on up to `k` has kept it so. */
  ghost predicate HeldFrom<S, E>(step: (S, E) -> S, s: S, run: seq<E>, makes: (S, E) -> bool,
          keeps: (S, E) -> bool, m: nat, k: nat)
    requires k <= |run|
  {
    && m < k && makes(StateAt(step, s, run, m), run[m])
    && forall j | m <= j < k :: keeps(StateAt(step, s, run, j), run[j])
  }

  lemma HeldOneLonger<S, E>(step: (S, E) -> S, s: S, run: seq<E>, makes: (S, E) -> bool, keeps: (S, E) -> bool, k: nat)
    requires 0 < k <= |run|
    ensures HasHeldSince(step, s, run, makes, keeps, k) <==>
      && keeps(StateAt(step, s, run, k - 1), run[k - 1])
      && (HasHeldSince(step, s, run, makes, keeps, k - 1) || makes(StateAt(step, s, run, k - 1), run[k - 1]))
  {
    var last: nat := k - 1;
    if keeps(StateAt(step, s, run, last), run[last]) {
      if makes(StateAt(step, s, run, last), run[last]) {
        assert HeldFrom(step, s, run, makes, keeps, last, k);
      } else if m :| HeldFrom(step, s, run, makes, keeps, m, last) {
        assert HeldFrom(step, s, run, makes, keeps, m, k);
      }
    }
    if m: nat :| HeldFrom(step, s, run, makes, keeps, m, k) {
      assert m < last ==> HeldFrom(step, s, run, makes, keeps, m, last);
    }
  }

  /** What an event does to a property that starts out false decides when the property holds. */
  ghost predicate Latches<S(!new), E(!new)>(step: (S, E) -> S, valid: S -> bool, holds: S -> bool,
          makes: (S, E) -> bool, keeps: (S, E) -> bool) {
    forall s: S, e: E | valid(s) ::
      valid(step(s, e)) && (holds(step(s, e)) <==> keeps(s, e) && (holds(s) || makes(s, e)))
  }

  lemma {:induction false} LatchedMeansHeldSince<S(!new), E(!new)>(step: (S, E) -> S, s: S, run: seq<E>,
          valid: S -> bool, holds: S -> bool, makes: (S, E) -> bool, keeps: (S, E) -> bool, k: nat)
    requires k <= |run| && valid(s) && !holds(s) && Latches(step, valid, holds, makes, keeps)
    ensures valid(StateAt(step, s, run, k))
    ensures holds(StateAt(step, s, run, k)) <==> HasHeldSince(step, s, run, makes, keeps, k)
  {
    if k > 0 {
      LatchedMeansHeldSince(step, s, run, valid, holds, makes, keeps, k - 1);
      HeldOneLonger(step, s, run, makes, keeps, k);
    }
  }

  /** A property that may have been true from the start holds if nothing ended it, or if something made it so since. */
  lemma {:induction false} LatchedFromStart<S(!new), E(!new)>(step: (S, E) -> S, s: S, run: seq<E>,
          valid: S -> bool, holds: S -> bool, makes: (S, E) -> bool, keeps: (S, E) -> bool, k: nat)
    requires k <= |run| && valid(s) && Latches(step, valid, holds, makes, keeps)
    ensures valid(StateAt(step, s, run, k))
    ensures holds(StateAt(step, s, run, k)) <==>
      HasHeldSince(step, s, run, makes, keeps, k) || (holds(s) && FineUpTo(step, s, run, keeps, k))
  {
    if k > 0 {
      LatchedFromStart(step, s, run, valid, holds, makes, keeps, k - 1);
      HeldOneLonger(step, s, run, makes, keeps, k);
      OneEventMore(step, s, run, holds, keeps, k);
    }
  }

  /** An event only leaves the property true if it keeps it, and makes it unless it was true. */
  ghost predicate LatchesAtMost<S(!new), E(!new)>(step: (S, E) -> S, valid: S -> bool, holds: S -> bool,
          makes: (S, E) -> bool, keeps: (S, E) -> bool) {
    forall s: S, e: E | valid(s) ::
      valid(step(s, e)) && (holds(step(s, e)) ==> keeps(s, e) && (holds(s) || makes(s, e)))
  }

  lemma {:induction false} LatchedOnlySince<S(!new), E(!new)>(step: (S, E) -> S, s: S, run: seq<E>,
          valid: S -> bool, holds: S -> bool, makes: (S, E) -> bool, keeps: (S, E) -> bool, k: nat)
    requires k <= |run| && valid(s) && !holds(s) && LatchesAtMost(step, valid, holds, makes, keeps)
    ensures valid(StateAt(step, s, run, k))
    ensures holds(StateAt(step, s, run, k)) ==> HasHeldSince(step, s, run, makes, keeps, k)
  {
    if k > 0 {
      LatchedOnlySince(step, s, run, valid, holds, makes, keeps, k - 1);
      HeldOneLonger(step, s, run, makes, keeps, k);
    }
  }

  /** It holds before each of the first `k` events, and after them. */
  ghost predicate HoldsUpTo<S, E>(step: (S, E) -> S, s: S, run: seq<E>, good: S -> bool, k: nat)
    requires k <= |run|
  {
    forall j | 0 <= j <= k :: good(StateAt(step, s, run, j))
  }

  /** Each of the first `k` events is as it should be in the state it meets. */
  ghost predicate FineUpTo<S, E>(step: (S, E) -> S, s: S, run: seq<E>, fine: (S, E) -> bool, k: nat)
    requires k <= |run|
  {
    forall j | 0 <= j < k :: fine(StateAt(step, s, run, j), run[j])
  }

  lemma OneEventMore<S, E>(step: (S, E) -> S, s: S, run: seq<E>, good: S -> bool, fine: (S, E) -> bool, k: nat)
    requires 0 < k <= |run|
    ensures HoldsUpTo(step, s, run, good, k)
      <==> HoldsUpTo(step, s, run, good, k - 1) && good(step(StateAt(step, s, run, k - 1), run[k - 1]))
    ensures FineUpTo(step, s, run, fine, k)
      <==> FineUpTo(step, s, run, fine, k - 1) && fine(StateAt(step, s, run, k - 1), run[k - 1])
  {
    assert StateAt(step, s, run, k) == step(StateAt(step, s, run, k - 1), run[k - 1]);
  }

  /** Where a property decides whether one thing goes on being so, and another goes along with it. */
  ghost predicate GoesAlong(so: nat -> bool, one: nat -> bool, other: nat -> bool, j: nat) {
    so(j) ==> (one(j) <==> other(j)) && (other(j) ==> so(j + 1))
  }

  ghost predicate AllUpTo(one: nat -> bool, k: nat) {
    forall j: nat | j < k :: one(j)
  }

  lemma {:induction false} AlongTheWay(so: nat -> bool, one: nat -> bool, other: nat -> bool, k: nat)
    requires so(0) && forall j: nat | j < k :: GoesAlong(so, one, other, j)
    ensures AllUpTo(one, k) <==> AllUpTo(other, k)
    ensures AllUpTo(other, k) ==> so(k)
  {
    if k > 0 {
      AlongTheWay(so, one, other, k - 1);
      assert GoesAlong(so, one, other, k - 1);
    }
  }

  ghost predicate IsInvariant<S(!new), E(!new)>(step: (S, E) -> S, inv: S -> bool, fine: (S, E) -> bool) {
    forall s: S, e: E | inv(s) && fine(s, e) :: inv(step(s, e))
  }

  lemma {:induction false} InvariantHolds<S(!new), E(!new)>(step: (S, E) -> S, s: S, run: seq<E>, inv: S -> bool,
        fine: (S, E) -> bool, k: nat)
    requires k <= |run| && inv(s) && IsInvariant(step, inv, fine) && FineUpTo(step, s, run, fine, k)
    ensures inv(StateAt(step, s, run, k))
  {
    if k > 0 {
      InvariantHolds(step, s, run, inv, fine, k - 1);
    }
  }

  /** Under the invariant, an event leads to a good state exactly when it is fine. */
  ghost predicate FineIffGood<S(!new), E(!new)>(step: (S, E) -> S, inv: S -> bool, good: S -> bool,
          fine: (S, E) -> bool) {
    && (forall s: S | inv(s) :: good(s))
    && forall s: S, e: E | inv(s) :: good(step(s, e)) <==> fine(s, e)
  }

  /** Then all states are good exactly as long as all events are fine. */
  lemma {:induction false} GoodWhileFine<S(!new), E(!new)>(step: (S, E) -> S, s: S, run: seq<E>, inv: S -> bool,
          good: S -> bool, fine: (S, E) -> bool, k: nat)
    requires k <= |run| && inv(s) && IsInvariant(step, inv, fine) && FineIffGood(step, inv, good, fine)
    ensures HoldsUpTo(step, s, run, good, k) <==> FineUpTo(step, s, run, fine, k)
  {
    if k > 0 {
      GoodWhileFine(step, s, run, inv, good, fine, k - 1);
      OneEventMore(step, s, run, good, fine, k);
      if FineUpTo(step, s, run, fine, k - 1) {
        InvariantHolds(step, s, run, inv, fine, k - 1);
      }
    }
  }
}
