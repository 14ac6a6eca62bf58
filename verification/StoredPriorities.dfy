/** What a merger stores as priorities beyond a source's level count. */
module StoredPriorities {
  import opened Common
  import opened MergeSpec
  import opened MergerModel

  /** As documented: no priority is stored beyond the level count. */
  predicate ZeroBeyondLevels(r: SourceRecord) {
    forall i | r.levelCount <= i < |r.addressPriority| :: r.addressPriority[i] == 0
  }

  /** What the history of a source has put into its stored priorities last. */
  datatype Sent = Nothing | UniversePriority | Pap(values: seq<byte>)

  /** PAP stays in force until it is removed; the universe priority fills in for it from then on. */
  function SentAfter(sent: Sent, op: Op, n: nat): Sent {
    match op
    case AddSource(_) => Nothing
    case RemoveSource(_) => Nothing
    case UpdateLevels(_, _) => sent
    case UpdatePap(_, pap) => if |Truncated(pap)| <= n then Pap(Truncated(pap)) else sent
    case UpdateUniversePriority(_, _) => if sent.Pap? then sent else UniversePriority
    case RemovePap(_) => UniversePriority
  }

  /** Only operations on the source itself that succeed count. */
  ghost function LastSent(m: Merger, ops: seq<Op>, h: Handle, sofar: Sent): Sent
    requires WellFormed(m)
    decreases |ops|
  {
    if ops == [] then sofar
    else
      var next := if ops[0].source == h && Outcome(m, ops[0]) == Ok then SentAfter(sofar, ops[0], m.config.slotCount)
                  else sofar;
      LastSent(Step(m, ops[0]), ops[1..], h, next)
  }

  /** The record stores exactly what was sent. */
  ghost predicate Stores(r: SourceRecord, sent: Sent, n: nat) {
    match sent
    case Nothing => r.usingUniversePriority && r.addressPriority == Filled(0, n)
    case UniversePriority =>
      r.usingUniversePriority && r.addressPriority == Filled(ConvertedPriority(r.universePriority), n)
    case Pap(values) => !r.usingUniversePriority && |values| <= n && r.addressPriority == Padded(values, n)
  }

  ghost predicate StoresSent(m: Merger, h: Handle, sent: Sent) {
    WellFormed(m) && (h in m.records ==> Stores(m.records[h], sent, m.config.slotCount))
  }

  lemma StepStoresSent(m: Merger, op: Op, h: Handle, sent: Sent)
    requires StoresSent(m, h, sent)
    ensures StoresSent(Step(m, op), h,
      if op.source == h && Outcome(m, op) == Ok then SentAfter(sent, op, m.config.slotCount) else sent)
  {
  }

  lemma {:induction false} RunStoresSent(m: Merger, ops: seq<Op>, h: Handle, sofar: Sent)
    requires StoresSent(m, h, sofar)
    ensures StoresSent(Run(m, ops), h, LastSent(m, ops, h, sofar))
    decreases |ops|
  {
    if ops != [] {
      StepStoresSent(m, ops[0], h, sofar);
      var next := if ops[0].source == h && Outcome(m, ops[0]) == Ok then SentAfter(sofar, ops[0], m.config.slotCount)
                  else sofar;
      RunStoresSent(Step(m, ops[0]), ops[1..], h, next);
    }
  }

  /** Nothing was sent at all, or the PAP that was sent stops at the levels. */
  predicate NothingSentBeyond(sent: Sent, levelCount: nat) {
    match sent
    case Nothing => true
    case UniversePriority => false
    case Pap(values) => forall i | levelCount <= i < |values| :: values[i] == 0
  }

  lemma ZeroInRecordIff(r: SourceRecord, sent: Sent, n: nat)
    requires RecordOk(r, n) && Stores(r, sent, n)
    ensures ZeroBeyondLevels(r) <==> r.levelCount == n || NothingSentBeyond(sent, r.levelCount)
  {
    if r.levelCount < n && sent.UniversePriority? {
      assert r.addressPriority[r.levelCount] > 0;
    }
    if r.levelCount < n && sent.Pap? && ZeroBeyondLevels(r) {
      assert forall i | r.levelCount <= i < |sent.values| :: sent.values[i] == r.addressPriority[i];
    }
  }

  /**
   After any history, no priority is stored beyond a source's levels exactly when its levels fill all slots, or what
   the history sent for it last was nothing, or PAP that does not reach beyond them.
   */
  lemma PrioritiesAreZeroedIff(config: Config, ops: seq<Op>, h: Handle)
    requires h in Run(Initial(config), ops).records
    ensures var r := Run(Initial(config), ops).records[h];
      ZeroBeyondLevels(r)
      <==> r.levelCount == config.slotCount
           || NothingSentBeyond(LastSent(Initial(config), ops, h, Nothing), r.levelCount)
  {
    RunStoresSent(Initial(config), ops, h, Nothing);
    ZeroInRecordIff(Run(Initial(config), ops).records[h], LastSent(Initial(config), ops, h, Nothing), config.slotCount);
  }

  const TWO_SLOTS := Config(2, 0, false, false)

  /** A source with one level in a merger of two slots keeps its universe priority in both. */
  lemma UniversePriorityIsNotZeroed()
    ensures var ops := [AddSource(1), UpdateLevels(1, [9]), UpdateUniversePriority(1, 100)];
      var records := Run(Initial(TWO_SLOTS), ops).records;
      && 1 in records && records[1].levelCount == 1 && records[1].addressPriority == [100, 100]
  {
    var ops := [AddSource(1), UpdateLevels(1, [9]), UpdateUniversePriority(1, 100)];
    var a := Step(Initial(TWO_SLOTS), ops[0]);
    var b := Step(a, ops[1]);
    var c := Step(b, ops[2]);
    assert Truncated([9]) == [9];
    assert a.records == map[1 := FreshRecord(2)];
    assert b.records == map[1 := WithLevels(FreshRecord(2), [9])];
    assert c.records == map[1 := WithUniversePriority(WithLevels(FreshRecord(2), [9]), 100)];
    assert c.records[1].addressPriority == Filled(100, 2) == [100, 100];
    assert ops[1..] == [ops[1], ops[2]] && ops[1..][1..] == [ops[2]] && ops[1..][1..][1..] == [];
    assert Run(c, []) == c && Run(b, [ops[2]]) == c && Run(a, [ops[1], ops[2]]) == c;
  }
}
