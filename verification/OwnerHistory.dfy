/** Owners, unlike levels and priorities, remember the order in which tied sources arrived. */
module OwnerHistory {
  import opened Common
  import opened MergeSpec
  import opened MergerModel

  /** Two sources share the best bid for a slot. */
  ghost predicate Tied(records: Records, n: nat, slot: nat)
    requires Sized(records, n) && slot < n
  {
    exists h, k :: h in records && k in records && h != k && SharedBest(records, n, slot, h, k)
  }

  ghost predicate SharedBest(records: Records, n: nat, slot: nat, h: Handle, k: Handle)
    requires Sized(records, n) && slot < n && h in records && k in records
  {
    var best := BidOf(records[h], slot);
    && best == BidOf(records[k], slot) && best.priority > 0
    && forall other | other in records :: !Beats(BidOf(records[other], slot), best)
  }

  lemma BothBest(records: Records, n: nat, slot: nat, o: SlotOutput, o': SlotOutput)
    requires Sized(records, n) && slot < n && Winner(records, n, slot, o) && Winner(records, n, slot, o')
    ensures o.bid == o'.bid
    ensures o != o' ==> o.owner in records && o'.owner in records && SharedBest(records, n, slot, o.owner, o'.owner)
  {
    assert o.bid.priority > 0 ==> !Beats(BidOf(records[o.owner], slot), o'.bid);
    assert o'.bid.priority > 0 ==> !Beats(BidOf(records[o'.owner], slot), o.bid);
  }

  // ---- A tied source can be made the owner ----

  /** No bid for the slot beats the source's. */
  ghost predicate IsBest(m: Merger, slot: nat, r: Handle)
    requires WellFormed(m) && slot < m.config.slotCount && r in m.records
  {
    BidOf(m.records[r], slot).priority > 0
    && forall other | other in m.records :: !Beats(BidOf(m.records[other], slot), BidOf(m.records[r], slot))
  }

  /** Whoever might still be tied with it is among `rivals`. */
  ghost predicate BestButFor(m: Merger, slot: nat, r: Handle, rivals: set<Handle>)
    requires WellFormed(m) && slot < m.config.slotCount && r in m.records
  {
    IsBest(m, slot, r) && r !in rivals && rivals <= m.records.Keys
    && forall other | other in m.records && other != r && other !in rivals ::
         Beats(BidOf(m.records[r], slot), BidOf(m.records[other], slot))
  }

  lemma UnrivalledOwns(m: Merger, slot: nat, r: Handle)
    requires Consistent(m) && slot < m.config.slotCount && r in m.records && BestButFor(m, slot, r, {})
    ensures m.slots[slot].owner == r
  {
    assert Winner(m.records, m.config.slotCount, slot, m.slots[slot]);
  }

  /** The best source keeps the slot, if it has it, whatever happens to the others. */
  lemma BestKeepsSlot(m: Merger, op: Op, slot: nat, r: Handle)
    requires Consistent(m) && slot < m.config.slotCount && m.slots[slot].owner == r
    requires r in Step(m, op).records && IsBest(Step(m, op), slot, r)
    ensures Step(m, op).slots[slot].owner == r
  {
    OwnersMoveOnlyWhenBeaten(m, op, slot);
  }

  /** A rival without levels does not bid. */
  lemma RivalFallsSilent(m: Merger, slot: nat, r: Handle, rivals: set<Handle>, h: Handle)
    requires Consistent(m) && slot < m.config.slotCount && r in m.records && BestButFor(m, slot, r, rivals)
    requires h in rivals
    ensures var silent := Step(m, UpdateLevels(h, []));
      && Consistent(silent) && silent.records == m.records[h := WithLevels(m.records[h], [])]
      && BestButFor(silent, slot, r, rivals - {h})
  {
    StepKeepsConsistent(m, UpdateLevels(h, []));
    var silent := Step(m, UpdateLevels(h, []));
    assert Truncated([]) == [];
    assert silent.records == m.records[h := WithLevels(m.records[h], [])];
    assert BidOf(silent.records[h], slot) == NO_BID;
  }

  lemma RivalReturns(m: Merger, silenced: Merger, slot: nat, r: Handle, h: Handle)
    requires Consistent(m) && slot < m.config.slotCount < 0x10000 && r in m.records && IsBest(m, slot, r)
    requires h in m.records && h != r && Consistent(silenced) && silenced.config == m.config
    requires silenced.records == m.records[h := WithLevels(m.records[h], [])] && silenced.slots[slot].owner == r
    ensures var back := UpdateLevels(h, m.records[h].levels[..m.records[h].levelCount]);
      Step(silenced, back).records == m.records && Step(silenced, back).slots[slot].owner == r
  {
    var levels := m.records[h].levels[..m.records[h].levelCount];
    LastLevelsDecideTheRecord(m.records[h], m.config.slotCount, []);
    assert Truncated(levels) == levels;
    assert Step(silenced, UpdateLevels(h, levels)).records == silenced.records[h := m.records[h]] == m.records;
    BestKeepsSlot(silenced, UpdateLevels(h, levels), slot, r);
  }

  /** Silence the rivals one after the other, then let them return: same records, but the best source owns the slot. */
  lemma {:induction false} TakesOver(m: Merger, slot: nat, r: Handle, rivals: set<Handle>) returns (ops: seq<Op>)
    requires Consistent(m) && slot < m.config.slotCount < 0x10000 && r in m.records && BestButFor(m, slot, r, rivals)
    ensures Run(m, ops).records == m.records && Run(m, ops).slots[slot].owner == r && Consistent(Run(m, ops))
    decreases rivals
  {
    if h :| h in rivals {
      var silent := Step(m, UpdateLevels(h, []));
      RivalFallsSilent(m, slot, r, rivals, h);
      var between := TakesOver(silent, slot, r, rivals - {h});
      var back := UpdateLevels(h, m.records[h].levels[..m.records[h].levelCount]);
      RivalReturns(m, Run(silent, between), slot, r, h);
      ops := [UpdateLevels(h, [])] + between + [back];
      FirstAndLast(m, UpdateLevels(h, []), between, back);
      RunKeepsConsistent(m, ops);
    } else {
      assert rivals == {};
      UnrivalledOwns(m, slot, r);
      ops := [];
    }
  }

  lemma FirstAndLast(m: Merger, first: Op, between: seq<Op>, last: Op)
    requires WellFormed(m)
    ensures Run(m, [first] + between + [last]) == Step(Run(Step(m, first), between), last)
  {
    var end := Run(Step(m, first), between);
    assert ([first] + between + [last])[1..] == between + [last];
    RunConcat(Step(m, first), between, [last]);
    assert Run(end, [last]) == Run(Step(end, last), []) by {
      assert [last][1..] == [];
    }
  }

  /** Every history that ends in the same records leaves the slot with the same owner. */
  ghost predicate SettledByRecords(config: Config, m: Merger, slot: nat)
    requires slot < config.slotCount && slot < |m.slots|
  {
    forall other: seq<Op> | Run(Initial(config), other).records == m.records ::
      Run(Initial(config), other).slots[slot].owner == m.slots[slot].owner
  }

  lemma TieIsNotSettled(config: Config, ops: seq<Op>, slot: nat, r: Handle)
    requires slot < config.slotCount < 0x10000
    requires var m := Run(Initial(config), ops);
      Sized(m.records, config.slotCount) && r in m.records && IsBest(m, slot, r) && m.slots[slot].owner != r
    ensures !SettledByRecords(config, Run(Initial(config), ops), slot)
  {
    var m := Run(Initial(config), ops);
    RunKeepsConsistent(Initial(config), ops);
    assert BestButFor(m, slot, r, m.records.Keys - {r});
    var more := TakesOver(m, slot, r, m.records.Keys - {r});
    RunConcat(Initial(config), ops, more);
    assert Run(Initial(config), ops + more).records == m.records;
  }

  /**
   The stored records settle who owns a slot exactly when no two sources are tied for it: otherwise another
   history ends in the same records and another owner.
   */
  lemma RecordsSettleOwnerIffNoTie(config: Config, ops: seq<Op>, slot: nat)
    requires slot < config.slotCount < 0x10000
    ensures var m := Run(Initial(config), ops);
      Sized(m.records, config.slotCount)
      && (SettledByRecords(config, m, slot) <==> !Tied(m.records, config.slotCount, slot))
  {
    var m, n := Run(Initial(config), ops), config.slotCount;
    RunKeepsConsistent(Initial(config), ops);
    if h, k :| h in m.records && k in m.records && h != k && SharedBest(m.records, n, slot, h, k) {
      TieIsNotSettled(config, ops, slot, if m.slots[slot].owner == h then k else h);
    } else {
      forall other: seq<Op> | Run(Initial(config), other).records == m.records
        ensures Run(Initial(config), other).slots[slot].owner == m.slots[slot].owner
      {
        RunKeepsConsistent(Initial(config), other);
        BothBest(m.records, n, slot, m.slots[slot], Run(Initial(config), other).slots[slot]);
      }
    }
  }

  // ---- Both outcomes of one tie ----

  const ONE_SLOT := Config(1, 0, true, true)

  const FED_RECORD := SourceRecord([5], 1, 10, true, [10], 1, false)

  function Fed(h: Handle): seq<Op> {
    [AddSource(h), UpdateLevels(h, [5]), UpdateUniversePriority(h, 10)]
  }

  /** A merger of one slot that has room and does not know `h`. */
  ghost predicate Open(m: Merger, h: Handle) {
    Consistent(m) && m.config == ONE_SLOT && h !in m.records && h != INVALID_SOURCE
  }

  lemma RunOfThree(m: Merger, x: Op, y: Op, z: Op)
    requires WellFormed(m)
    ensures Run(m, [x, y, z]) == Step(Step(Step(m, x), y), z)
  {
    var c := Step(Step(Step(m, x), y), z);
    assert Run(c, []) == c;
    assert [x, y, z][1..] == [y, z] && [y, z][1..] == [z] && [z][1..] == [];
    assert Run(Step(Step(m, x), y), [z]) == c;
    assert Run(Step(m, x), [y, z]) == c;
  }

  lemma FedInSteps(m: Merger, h: Handle)
    requires Open(m, h)
    ensures var a := Step(m, AddSource(h));
      var b := Step(a, UpdateLevels(h, [5]));
      var c := Step(b, UpdateUniversePriority(h, 10));
      && a.records == m.records[h := FreshRecord(1)]
      && b.records == m.records[h := WithLevels(FreshRecord(1), [5])]
      && c.records == m.records[h := FED_RECORD]
      && Run(m, Fed(h)) == c && Consistent(a) && Consistent(b) && Consistent(c)
  {
    var a := Step(m, AddSource(h));
    var levels := [5];
    assert Truncated(levels) == levels;
    var b := Step(a, UpdateLevels(h, levels));
    assert b.records == m.records[h := WithLevels(FreshRecord(1), levels)];
    assert WithUniversePriority(WithLevels(FreshRecord(1), levels), 10) == FED_RECORD;
    StepKeepsConsistent(m, AddSource(h));
    StepKeepsConsistent(a, UpdateLevels(h, levels));
    StepKeepsConsistent(b, UpdateUniversePriority(h, 10));
    RunOfThree(m, AddSource(h), UpdateLevels(h, levels), UpdateUniversePriority(h, 10));
  }

  /** A source that bids no more than the owner never takes the slot from it. */
  lemma OwnerKept(m: Merger, op: Op, owner: Handle, rival: Handle)
    requires Consistent(m) && m.config == ONE_SLOT && m.slots[0].owner == owner && owner != rival
    requires var after := Step(m, op).records;
      owner in after && after.Keys <= {owner, rival} && after[owner] == FED_RECORD
      && (rival in after ==> !Beats(BidOf(after[rival], 0), Bid(10, 5)))
    ensures Step(m, op).slots[0].owner == owner
  {
    OwnersMoveOnlyWhenBeaten(m, op, 0);
    assert BidOf(FED_RECORD, 0) == Bid(10, 5);
  }

  lemma SecondFedDoesNotTakeOver(m: Merger, a: Handle, b: Handle)
    requires Open(m, b) && m.records == map[a := FED_RECORD] && m.slots[0].owner == a
    ensures Run(m, Fed(b)).records == map[a := FED_RECORD, b := FED_RECORD] && Run(m, Fed(b)).slots[0].owner == a
  {
    FedInSteps(m, b);
    var added := Step(m, AddSource(b));
    var leveled := Step(added, UpdateLevels(b, [5]));
    assert BidOf(FreshRecord(1), 0) == NO_BID && BidOf(WithLevels(FreshRecord(1), [5]), 0) == NO_BID;
    OwnerKept(m, AddSource(b), a, b);
    OwnerKept(added, UpdateLevels(b, [5]), a, b);
    OwnerKept(leveled, UpdateUniversePriority(b, 10), a, b);
  }

  lemma FirstFedAlone(m: Merger, a: Handle)
    requires Open(m, a) && m.records == map[]
    ensures var fed := Run(m, Fed(a));
      Consistent(fed) && fed.config == ONE_SLOT && fed.records == map[a := FED_RECORD] && fed.slots[0].owner == a
  {
    FedInSteps(m, a);
    var fed := Run(m, Fed(a));
    assert BidOf(FED_RECORD, 0) == Bid(10, 5);
    assert Winner(fed.records, 1, 0, fed.slots[0]);
  }

  lemma FirstFedOwns(a: Handle, b: Handle)
    requires a != b && a != INVALID_SOURCE && b != INVALID_SOURCE
    ensures var m := Run(Initial(ONE_SLOT), Fed(a) + Fed(b));
      m.records == map[a := FED_RECORD, b := FED_RECORD] && m.slots[0].owner == a
  {
    FirstFedAlone(Initial(ONE_SLOT), a);
    SecondFedDoesNotTakeOver(Run(Initial(ONE_SLOT), Fed(a)), a, b);
    RunConcat(Initial(ONE_SLOT), Fed(a), Fed(b));
  }

  /** Two histories end in the same records and yet in different owners. */
  lemma OwnersDependOnHistory()
    ensures var one, other := Run(Initial(ONE_SLOT), Fed(1) + Fed(2)), Run(Initial(ONE_SLOT), Fed(2) + Fed(1));
      one.records == other.records && one.slots[0].owner == 1 && other.slots[0].owner == 2
  {
    FirstFedOwns(1, 2);
    FirstFedOwns(2, 1);
  }
}
