/**
 The merger as a value: what each operation does to the stored records, and the outputs that a
 from-scratch merge of those records gives. The class in module DmxMerger refines `Step`.
 */
module MergerModel {
  import opened Common
  import opened MergeSpec

  datatype Config = Config(
    slotCount: nat,
    sourceCountMax: nat,           // 0 means no limit
    tracksPapActive: bool,         // whether the optional outputs were configured
    tracksUniversePriority: bool)

  datatype Merger = Merger(
    config: Config,
    records: Records,
    slots: seq<SlotOutput>,
    papActive: bool,
    universePriority: byte)

  datatype Op =
    | AddSource(source: Handle)
    | RemoveSource(source: Handle)
    | UpdateLevels(source: Handle, levels: seq<byte>)
    | UpdatePap(source: Handle, pap: seq<byte>)
    | UpdateUniversePriority(source: Handle, priority: byte)
    | RemovePap(source: Handle)

  // ---- Records ----

  function FreshRecord(n: nat): SourceRecord {
    SourceRecord(Filled(0, n), 0, 0, true, Filled(0, n), 0, true)
  }

  function WithLevels(r: SourceRecord, data: seq<byte>): SourceRecord
    requires |data| <= |r.levels|
  {
    r.(levels := Padded(data, |r.levels|), levelCount := |data|)
  }

  function WithPap(r: SourceRecord, data: seq<byte>): SourceRecord
    requires |data| <= |r.addressPriority|
  {
    r.(addressPriority := Padded(data, |r.addressPriority|), papCount := |data|, usingUniversePriority := false)
  }

  /** Address priorities all set to the converted universe priority. */
  function WithConvertedPap(r: SourceRecord): SourceRecord {
    var n := |r.addressPriority|;
    r.(addressPriority := Filled(ConvertedPriority(r.universePriority), n), papCount := n)
  }

  function WithUniversePriority(r: SourceRecord, priority: byte): SourceRecord {
    var updated := r.(universePriority := priority, universePriorityUninitialized := false);
    if r.usingUniversePriority then WithConvertedPap(updated) else updated
  }

  function WithoutPap(r: SourceRecord): SourceRecord {
    WithConvertedPap(r.(usingUniversePriority := true))
  }

  lemma RepeatedLevelsChangeNothing(r: SourceRecord, n: nat)
    requires RecordOk(r, n)
    ensures WithLevels(r, r.levels[..r.levelCount]) == r
  {
    assert Padded(r.levels[..r.levelCount], n) == r.levels;
  }

  lemma RepeatedPapOnlyActivates(r: SourceRecord, n: nat)
    requires RecordOk(r, n)
    ensures WithPap(r, r.addressPriority[..r.papCount]) == r.(usingUniversePriority := false)
  {
    assert Padded(r.addressPriority[..r.papCount], n) == r.addressPriority;
  }

  lemma RepeatedUniversePriorityChangesNothing(r: SourceRecord, n: nat)
    requires RecordOk(r, n) && !r.universePriorityUninitialized
    ensures WithUniversePriority(r, r.universePriority) == r
  {
  }

  // ---- What is left to merge once a source's record has been updated ----

  ghost predicate Winners(records: Records, n: nat, slots: seq<SlotOutput>)
    requires Sized(records, n)
  {
    |slots| == n && forall i | 0 <= i < n :: Winner(records, n, i, slots[i])
  }

  /** Every slot as a from-scratch merge elects it, given who owned it before. */
  ghost function Election(records: Records, n: nat, slots: seq<SlotOutput>): (elected: seq<SlotOutput>)
    requires Sized(records, n) && |slots| == n
    ensures |elected| == n
  {
    seq(n, i requires 0 <= i < n => Elect(records, n, i, slots[i].owner))
  }

  lemma LevelsLeaveToMerge(before: Records, n: nat, h: Handle, data: seq<byte>, slot: nat, o: SlotOutput)
    requires RecordsOk(before, n) && h in before && |data| <= n && slot < n && Winner(before, n, slot, o)
    ensures var after := before[h := WithLevels(before[h], data)];
      var count := before[h].levelCount;
      && (slot < count && slot < |data| ==>
            AwaitsLevel(after, n, h, slot, o) && OnlyLevelsDecide(after, n, slot, o.bid.priority))
      && (count <= slot < |data| || |data| <= slot < count ==> AwaitsPriority(after, n, h, slot, o))
      && (count <= slot && |data| <= slot ==> Succeeds(after, n, slot, o.owner, o))
  {
    var after := before[h := WithLevels(before[h], data)];
    assert forall k | k in after && k != h :: BidOf(after[k], slot) == BidOf(before[k], slot);
  }

  lemma PrioritiesLeaveToMerge(before: Records, n: nat, h: Handle, r: SourceRecord, slot: nat, o: SlotOutput)
    requires Sized(before, n) && h in before && slot < n && Winner(before, n, slot, o)
    requires |r.addressPriority| == n && r.levels == before[h].levels && r.levelCount == before[h].levelCount
    ensures var after := before[h := r];
      && (slot < r.levelCount ==> AwaitsPriority(after, n, h, slot, o))
      && (r.levelCount <= slot ==> Succeeds(after, n, slot, o.owner, o))
  {
    var after := before[h := r];
    assert forall k | k in after && k != h :: BidOf(after[k], slot) == BidOf(before[k], slot);
  }

  /** The multi-source level update: merge the kept slots, then the gained or the lost ones. */
  ghost function LevelUpdateMerged(records: Records, n: nat, h: Handle, oldCount: nat, newCount: nat,
          slots: seq<SlotOutput>)
    : seq<SlotOutput>
    requires Sized(records, n) && h in records && |slots| == n
  {
    var kept := LevelsMerged(records, n, h, Min(oldCount, newCount), slots);
    PrioritiesMerged(records, n, h, newCount, oldCount, PrioritiesMerged(records, n, h, oldCount, newCount, kept))
  }

  lemma LevelUpdateElects(before: Records, n: nat, h: Handle, data: seq<byte>, slots: seq<SlotOutput>)
    requires RecordsOk(before, n) && h in before && |data| <= n && Winners(before, n, slots)
    ensures var after := before[h := WithLevels(before[h], data)];
      && LevelUpdateMerged(after, n, h, before[h].levelCount, |data|, slots) == Election(after, n, slots)
      && OnlyLevelsDecideBelow(after, n, Min(before[h].levelCount, |data|), slots)
  {
    var after := before[h := WithLevels(before[h], data)];
    var count := before[h].levelCount;
    var merged := LevelUpdateMerged(after, n, h, count, |data|, slots);
    forall i | 0 <= i < n
      ensures merged[i] == Elect(after, n, i, slots[i].owner)
      ensures i < Min(count, |data|) ==> OnlyLevelsDecide(after, n, i, slots[i].bid.priority)
    {
      LevelsLeaveToMerge(before, n, h, data, i, slots[i]);
      if i < count && i < |data| {
        LevelMergedSucceeds(after, n, h, i, slots[i]);
      } else if i < count || i < |data| {
        PriorityMergedSucceeds(after, n, h, i, slots[i]);
      }
      ElectIsTheSuccessor(after, n, i, slots[i].owner, merged[i]);
    }
  }

  lemma PriorityUpdateElects(before: Records, n: nat, h: Handle, r: SourceRecord, slots: seq<SlotOutput>)
    requires Sized(before, n) && h in before && Winners(before, n, slots)
    requires |r.addressPriority| == n && r.levels == before[h].levels && r.levelCount == before[h].levelCount
    ensures var after := before[h := r];
      PrioritiesMerged(after, n, h, 0, r.levelCount, slots) == Election(after, n, slots)
  {
    var after := before[h := r];
    var merged := PrioritiesMerged(after, n, h, 0, r.levelCount, slots);
    forall i | 0 <= i < n ensures merged[i] == Elect(after, n, i, slots[i].owner) {
      PrioritiesLeaveToMerge(before, n, h, r, i, slots[i]);
      if i < r.levelCount {
        PriorityMergedSucceeds(after, n, h, i, slots[i]);
      }
      ElectIsTheSuccessor(after, n, i, slots[i].owner, merged[i]);
    }
  }

  lemma SameBidsElectTheSame(before: Records, after: Records, n: nat, slot: nat, o: SlotOutput)
    requires Sized(before, n) && Sized(after, n) && slot < n && Winner(before, n, slot, o)
    requires before.Keys == after.Keys
    requires forall k | k in before :: BidOf(after[k], slot) == BidOf(before[k], slot)
    ensures o == Elect(after, n, slot, o.owner)
  {
    assert Succeeds(after, n, slot, o.owner, o);
    ElectIsTheSuccessor(after, n, slot, o.owner, o);
  }

  /** Flags, counts and the stored universe priority do not take part in the merge themselves. */
  lemma OnlyBuffersMatter(before: Records, n: nat, h: Handle, r: SourceRecord, slots: seq<SlotOutput>)
    requires Sized(before, n) && h in before && Winners(before, n, slots)
    requires r.levels == before[h].levels && r.levelCount == before[h].levelCount
    requires r.addressPriority == before[h].addressPriority
    ensures Election(before[h := r], n, slots) == slots
  {
    forall i | 0 <= i < n ensures slots[i] == Elect(before[h := r], n, i, slots[i].owner) {
      SameBidsElectTheSame(before, before[h := r], n, i, slots[i]);
    }
  }

  /** Storing a universe priority leaves at most its conversion to PAP to be merged. */
  lemma UniversePriorityLeavesToMerge(before: Records, n: nat, h: Handle, priority: byte, slots: seq<SlotOutput>)
    requires RecordsOk(before, n) && h in before && Winners(before, n, slots)
    ensures var stored := before[h := before[h].(universePriority := priority, universePriorityUninitialized := false)];
      var after := before[h := WithUniversePriority(before[h], priority)];
      && Sized(stored, n) && Winners(stored, n, slots)
      && (before[h].usingUniversePriority ==>
            after == stored[h := stored[h].(addressPriority := Filled(ConvertedPriority(priority), n), papCount := n)])
      && (!before[h].usingUniversePriority ==> after == stored && Election(after, n, slots) == slots)
  {
    var stored := before[h := before[h].(universePriority := priority, universePriorityUninitialized := false)];
    OnlyBuffersMatter(before, n, h, stored[h], slots);
    forall i | 0 <= i < n ensures Winner(stored, n, i, slots[i]) {
      ElectIsTheSuccessor(stored, n, i, slots[i].owner, slots[i]);
    }
  }

  /** A source about to be removed: its priorities are zeroed, and merged away. */
  function Silenced(r: SourceRecord): SourceRecord {
    r.(addressPriority := Filled(0, |r.addressPriority|))
  }

  lemma SilencedThenRemoved(before: Records, n: nat, h: Handle, slot: nat, o: SlotOutput)
    requires Sized(before, n) && h in before && slot < n && Winner(before, n, slot, o)
    ensures var silenced := before[h := Silenced(before[h])];
      PriorityMerged(silenced, n, h, slot, o) == Elect(before - {h}, n, slot, o.owner)
  {
    var silenced := before[h := Silenced(before[h])];
    var merged := PriorityMerged(silenced, n, h, slot, o);
    assert BidOf(silenced[h], slot) == NO_BID;
    assert forall k | k in silenced && k != h :: BidOf(silenced[k], slot) == BidOf(before[k], slot);
    PriorityMergedSucceeds(silenced, n, h, slot, o);
    assert Succeeds(before - {h}, n, slot, o.owner, merged);
    ElectIsTheSuccessor(before - {h}, n, slot, o.owner, merged);
  }

  lemma RemovalElects(before: Records, n: nat, h: Handle, slots: seq<SlotOutput>)
    requires Sized(before, n) && h in before && Winners(before, n, slots)
    ensures PrioritiesMerged(before[h := Silenced(before[h])], n, h, 0, n, slots) == Election(before - {h}, n, slots)
  {
    var silenced := before[h := Silenced(before[h])];
    var merged := PrioritiesMerged(silenced, n, h, 0, n, slots);
    forall i | 0 <= i < n ensures merged[i] == Elect(before - {h}, n, i, slots[i].owner) {
      SilencedThenRemoved(before, n, h, i, slots[i]);
    }
  }

  lemma AdditionElectsTheSame(before: Records, n: nat, h: Handle, slots: seq<SlotOutput>)
    requires Sized(before, n) && h !in before && h != INVALID_SOURCE && Winners(before, n, slots)
    ensures Election(before[h := FreshRecord(n)], n, slots) == slots
  {
    var after := before[h := FreshRecord(n)];
    forall i | 0 <= i < n ensures slots[i] == Elect(after, n, i, slots[i].owner) {
      assert forall k | k in after && k != h :: BidOf(after[k], i) == BidOf(before[k], i);
      ElectIsTheSuccessor(after, n, i, slots[i].owner, slots[i]);
    }
  }

  /** All outputs of a merger whose only source is `h`. */
  ghost function LoneOutputs(r: SourceRecord, n: nat, h: Handle): (outputs: seq<SlotOutput>)
    requires |r.levels| == n && |r.addressPriority| == n
    ensures |outputs| == n
  {
    seq(n, i requires 0 <= i < n => Lone(r, i, h))
  }

  lemma LoneSourceIsElected(before: Records, after: Records, n: nat, h: Handle, slots: seq<SlotOutput>)
    requires Sized(before, n) && Winners(before, n, slots) && before.Keys == {h}
    requires Sized(after, n) && after.Keys == {h}
    ensures slots == LoneOutputs(before[h], n, h)
    ensures Election(after, n, slots) == LoneOutputs(after[h], n, h)
  {
    forall i | 0 <= i < n
      ensures slots[i] == Lone(before[h], i, h)
      ensures Elect(after, n, i, slots[i].owner) == Lone(after[h], i, h)
    {
      LoneSourceWins(before, n, i, h, slots[i]);
      LoneSourceWins(after, n, i, h, Lone(after[h], i, h));
      ElectIsTheSuccessor(after, n, i, slots[i].owner, Lone(after[h], i, h));
    }
  }

  lemma UnchangedRecordsElectTheSame(records: Records, n: nat, slots: seq<SlotOutput>)
    requires Sized(records, n) && Winners(records, n, slots)
    ensures Election(records, n, slots) == slots
  {
    forall i | 0 <= i < n ensures slots[i] == Elect(records, n, i, slots[i].owner) {
      ElectIsTheSuccessor(records, n, i, slots[i].owner, slots[i]);
    }
  }

  // ---- Aggregate outputs ----

  ghost predicate PapActiveIn(records: Records) {
    exists h :: h in records && !records[h].usingUniversePriority
  }

  ghost predicate IsMaxUniversePriority(records: Records, u: byte) {
    && (forall h | h in records :: records[h].universePriority <= u)
    && (u > 0 ==> exists h :: h in records && records[h].universePriority == u)
  }

  lemma {:induction false} MaxUniversePriorityExists(records: Records, bound: nat)
    requires bound <= 0xFF && forall h | h in records :: records[h].universePriority <= bound
    ensures exists u: byte :: IsMaxUniversePriority(records, u)
  {
    if bound > 0 && !exists h :: h in records && records[h].universePriority == bound {
      MaxUniversePriorityExists(records, bound - 1);
    } else {
      assert IsMaxUniversePriority(records, bound);
    }
  }

  ghost function MaxUniversePriority(records: Records): (u: byte)
    ensures IsMaxUniversePriority(records, u)
  {
    MaxUniversePriorityExists(records, 0xFF);
    var u: byte :| IsMaxUniversePriority(records, u); u
  }

  lemma MaxUniversePriorityIsUnique(records: Records, u: byte)
    requires IsMaxUniversePriority(records, u)
    ensures u == MaxUniversePriority(records)
  {
  }

  /** Patching the maximum: enough to look at one source unless it could have been the maximum. */
  lemma MaxAfterUpdate(before: Records, h: Handle, r: SourceRecord, was: byte)
    requires h in before && IsMaxUniversePriority(before, was)
    ensures r.universePriority >= was ==> IsMaxUniversePriority(before[h := r], r.universePriority)
    ensures before.Keys == {h} ==> IsMaxUniversePriority(before[h := r], r.universePriority)
    ensures r.universePriority < was && before[h].universePriority < was ==> IsMaxUniversePriority(before[h := r], was)
  {
    var after := before[h := r];
    assert after[h].universePriority == r.universePriority;
    if was > 0 {
      var k :| k in before && before[k].universePriority == was;
      assert k != h ==> after[k] == before[k];
    }
  }

  // ---- States ----

  ghost predicate WellFormed(m: Merger) {
    |m.slots| == m.config.slotCount && RecordsOk(m.records, m.config.slotCount)
  }

  /** Every output is the from-scratch merge of the stored records. */
  ghost predicate Consistent(m: Merger) {
    && WellFormed(m)
    && Winners(m.records, m.config.slotCount, m.slots)
    && (m.config.tracksPapActive ==> m.papActive == PapActiveIn(m.records))
    && (m.config.tracksUniversePriority ==> IsMaxUniversePriority(m.records, m.universePriority))
  }

  function Initial(config: Config): Merger {
    Merger(config, map[], seq(config.slotCount, _ => UNSOURCED), false, 0)
  }

  predicate HasRoom(m: Merger) {
    m.config.sourceCountMax == 0 || |m.records| < m.config.sourceCountMax
  }

  /** The error code an operation returns. */
  function Outcome(m: Merger, op: Op): Status {
    if op.source == INVALID_SOURCE then ErrSys
    else if op.AddSource? then
      if !HasRoom(m) then ErrNoMem else if op.source in m.records then ErrSys else Ok
    else if op.source in m.records then Ok
    else if op.RemoveSource? then ErrInvalid
    else ErrNotFound
  }

  /** Counts are passed on as 16-bit values. */
  function Truncated(data: seq<byte>): seq<byte> {
    data[..|data| % 0x10000]
  }

  /** The stored records after a successful operation; oversized data is ignored. */
  ghost function NextRecords(m: Merger, op: Op): Records
    requires WellFormed(m) && Outcome(m, op) == Ok
    ensures RecordsOk(NextRecords(m, op), m.config.slotCount)
  {
    var n := m.config.slotCount;
    match op
    case AddSource(h) => m.records[h := FreshRecord(n)]
    case RemoveSource(h) => m.records - {h}
    case UpdateLevels(h, levels) =>
      if |Truncated(levels)| > n then m.records
      else m.records[h := WithLevels(m.records[h], Truncated(levels))]
    case UpdatePap(h, pap) =>
      if |Truncated(pap)| > n then m.records
      else m.records[h := WithPap(m.records[h], Truncated(pap))]
    case UpdateUniversePriority(h, priority) => m.records[h := WithUniversePriority(m.records[h], priority)]
    case RemovePap(h) => m.records[h := WithoutPap(m.records[h])]
  }

  /** Merge everything again from scratch; incumbents keep the slots whose best bid they still hold. */
  ghost function Remerged(m: Merger, records: Records): Merger
    requires |m.slots| == m.config.slotCount && RecordsOk(records, m.config.slotCount)
  {
    var n := m.config.slotCount;
    m.(records := records,
       slots := Election(records, n, m.slots),
       papActive := if m.config.tracksPapActive then PapActiveIn(records) else m.papActive,
       universePriority :=
         if m.config.tracksUniversePriority then MaxUniversePriority(records) else m.universePriority)
  }

  ghost function Step(m: Merger, op: Op): (m': Merger)
    requires WellFormed(m)
    ensures WellFormed(m') && m'.config == m.config
  {
    if Outcome(m, op) == Ok then Remerged(m, NextRecords(m, op)) else m
  }

  ghost function Run(m: Merger, ops: seq<Op>): (m': Merger)
    requires WellFormed(m)
    ensures WellFormed(m') && m'.config == m.config
    decreases |ops|
  {
    if ops == [] then m else Run(Step(m, ops[0]), ops[1..])
  }

  /** A state whose outputs have been patched to the election of `records` is the remerged state. */
  lemma PatchedIsRemerged(m: Merger, m': Merger, records: Records)
    requires WellFormed(m) && RecordsOk(records, m.config.slotCount)
    requires m'.config == m.config && m'.records == records
    requires m'.slots == Election(records, m.config.slotCount, m.slots)
    requires if m.config.tracksPapActive then m'.papActive == PapActiveIn(records) else m'.papActive == m.papActive
    requires if m.config.tracksUniversePriority then IsMaxUniversePriority(records, m'.universePriority)
             else m'.universePriority == m.universePriority
    ensures m' == Remerged(m, records) && Consistent(m')
  {
    if m.config.tracksUniversePriority {
      MaxUniversePriorityIsUnique(records, m'.universePriority);
    }
    RemergedIsConsistent(m, records);
  }

  /** Updating one source keeps the aggregates of the inputs it does not change. */
  lemma AggregatesKept(before: Records, h: Handle, r: SourceRecord, u: byte)
    requires h in before
    ensures r.usingUniversePriority == before[h].usingUniversePriority ==>
      PapActiveIn(before[h := r]) == PapActiveIn(before)
    ensures !r.usingUniversePriority ==> PapActiveIn(before[h := r])
    ensures r.universePriority == before[h].universePriority && IsMaxUniversePriority(before, u) ==>
      IsMaxUniversePriority(before[h := r], u)
  {
    var after := before[h := r];
    assert after[h] == r;
    assert forall k | k in before && k != h :: k in after && after[k] == before[k];
    if r.universePriority == before[h].universePriority && IsMaxUniversePriority(before, u) && u > 0 {
      var k :| k in before && before[k].universePriority == u;
      assert k in after && after[k].universePriority == u;
    }
  }

  /** Patching the outputs after one source's record changed: the aggregates follow the change. */
  lemma UpdateFinishes(m: Merger, m': Merger, h: Handle, r: SourceRecord)
    requires Consistent(m) && h in m.records && RecordsOk(m.records[h := r], m.config.slotCount)
    requires m'.config == m.config && m'.records == m.records[h := r]
    requires m'.slots == Election(m'.records, m.config.slotCount, m.slots)
    requires
      || (m'.papActive == m.papActive && r.usingUniversePriority == m.records[h].usingUniversePriority)
      || (m'.papActive == (m.config.tracksPapActive || m.papActive) && !r.usingUniversePriority)
      || m'.papActive == if m.config.tracksPapActive then PapActiveIn(m'.records) else m.papActive
    requires
      || (m'.universePriority == m.universePriority && r.universePriority == m.records[h].universePriority)
      || (if m.config.tracksUniversePriority then IsMaxUniversePriority(m'.records, m'.universePriority)
          else m'.universePriority == m.universePriority)
    ensures m' == Remerged(m, m.records[h := r]) && Consistent(m')
  {
    AggregatesKept(m.records, h, r, m.universePriority);
    PatchedIsRemerged(m, m', m.records[h := r]);
  }

  lemma SilencingKeepsAggregates(before: Records, h: Handle, u: byte)
    requires h in before
    ensures var silenced := before[h := Silenced(before[h])];
      && silenced - {h} == before - {h} && PapActiveIn(silenced) == PapActiveIn(before)
      && (IsMaxUniversePriority(before, u) ==> IsMaxUniversePriority(silenced, u))
  {
    AggregatesKept(before, h, Silenced(before[h]), u);
    assert before[h := Silenced(before[h])] - {h} == before - {h};
  }

  /** Removing a source: what is left of the aggregates once its own share has been withdrawn. */
  lemma AggregatesAfterRemoval(before: Records, h: Handle, withdrawn: SourceRecord, u: byte)
    requires h in before
    ensures withdrawn.usingUniversePriority ==> PapActiveIn(before[h := withdrawn]) == PapActiveIn(before - {h})
    ensures before[h].usingUniversePriority ==> PapActiveIn(before - {h}) == PapActiveIn(before)
    ensures !PapActiveIn(before) ==> !PapActiveIn(before - {h})
    ensures withdrawn.universePriority == 0 && IsMaxUniversePriority(before[h := withdrawn], u) ==>
      IsMaxUniversePriority(before - {h}, u)
    ensures before[h].universePriority < u && IsMaxUniversePriority(before, u) ==>
      IsMaxUniversePriority(before - {h}, u)
  {
    var mid, after := before[h := withdrawn], before - {h};
    assert mid[h] == withdrawn;
    assert forall k | k in before && k != h :: k in after && k in mid && after[k] == before[k] == mid[k];
    if withdrawn.universePriority == 0 && IsMaxUniversePriority(mid, u) && u > 0 {
      var k :| k in mid && mid[k].universePriority == u;
      assert k in after && after[k].universePriority == u;
    }
    if before[h].universePriority < u && IsMaxUniversePriority(before, u) {
      var k :| k in before && before[k].universePriority == u;
      assert k in after && after[k].universePriority == u;
    }
  }

  /** Turning a source's PAP off takes its share out of the PAP-active output and out of nothing else. */
  lemma PapWithdrawal(before: Records, h: Handle)
    requires h in before
    ensures var withdrawn := before[h := before[h].(usingUniversePriority := true)];
      && withdrawn - {h} == before - {h}
      && PapActiveIn(withdrawn) == PapActiveIn(before - {h})
      && (before[h].usingUniversePriority || !PapActiveIn(before) ==> PapActiveIn(before) == PapActiveIn(before - {h}))
      && forall u :: IsMaxUniversePriority(before, u) ==> IsMaxUniversePriority(withdrawn, u)
  {
    var withdrawn := before[h := before[h].(usingUniversePriority := true)];
    AggregatesAfterRemoval(before, h, withdrawn[h], 0);
    forall u | IsMaxUniversePriority(before, u) ensures IsMaxUniversePriority(withdrawn, u) {
      AggregatesKept(before, h, withdrawn[h], u);
    }
  }

  /** A source that has sent nothing yet adds nothing to the aggregates. */
  lemma AggregatesAfterAddition(before: Records, h: Handle, n: nat, u: byte)
    requires h !in before
    ensures PapActiveIn(before[h := FreshRecord(n)]) == PapActiveIn(before)
    ensures IsMaxUniversePriority(before, u) ==> IsMaxUniversePriority(before[h := FreshRecord(n)], u)
  {
    var after := before[h := FreshRecord(n)];
    assert after[h] == FreshRecord(n);
    assert forall k | k in before :: k in after && after[k] == before[k];
    if IsMaxUniversePriority(before, u) && u > 0 {
      var k :| k in before && before[k].universePriority == u;
      assert k in after && after[k].universePriority == u;
    }
  }

  // ---- The cached outputs are right after every history ----

  lemma RemergedIsConsistent(m: Merger, records: Records)
    requires |m.slots| == m.config.slotCount && RecordsOk(records, m.config.slotCount)
    ensures Consistent(Remerged(m, records))
  {
    var n := m.config.slotCount;
    forall i | 0 <= i < n
      ensures Winner(records, n, i, Remerged(m, records).slots[i])
    {
      ElectIsTheSuccessor(records, n, i, m.slots[i].owner, Remerged(m, records).slots[i]);
    }
  }

  lemma StepKeepsConsistent(m: Merger, op: Op)
    requires Consistent(m)
    ensures Consistent(Step(m, op))
  {
    if Outcome(m, op) == Ok {
      RemergedIsConsistent(m, NextRecords(m, op));
    }
  }

  lemma {:induction false} RunKeepsConsistent(m: Merger, ops: seq<Op>)
    requires Consistent(m)
    ensures Consistent(Run(m, ops))
    decreases |ops|
  {
    if ops != [] {
      StepKeepsConsistent(m, ops[0]);
      RunKeepsConsistent(Step(m, ops[0]), ops[1..]);
    }
  }

  /** Any history leaves, in every slot, exactly what the documented rule gives for the stored records. */
  lemma EveryHistoryIsMergedFromScratch(config: Config, ops: seq<Op>, slot: nat)
    requires slot < config.slotCount
    ensures var m := Run(Initial(config), ops);
      var o := m.slots[slot];
      && (forall h | h in m.records :: EffectivePriority(m.records[h], slot) <= o.bid.priority)
      && (forall h | h in m.records && EffectivePriority(m.records[h], slot) == o.bid.priority > 0 ::
            m.records[h].levels[slot] <= o.bid.level)
      && (o.bid.priority == 0 ==> o.bid.level == 0 && o.owner == INVALID_SOURCE)
      && (o.bid.priority > 0 ==>
            && o.owner in m.records
            && EffectivePriority(m.records[o.owner], slot) == o.bid.priority
            && m.records[o.owner].levels[slot] == o.bid.level)
    ensures var m := Run(Initial(config), ops);
      && (config.tracksPapActive ==> m.papActive == PapActiveIn(m.records))
      && (config.tracksUniversePriority ==> IsMaxUniversePriority(m.records, m.universePriority))
  {
    var m := Run(Initial(config), ops);
    assert Consistent(Initial(config));
    RunKeepsConsistent(Initial(config), ops);
    WinnerIsHighestPriorityThenLevel(m.records, config.slotCount, slot, m.slots[slot]);
  }

  // ---- History independence ----

  /** Equal outputs except, possibly, for which of several tied sources owns a slot. */
  ghost predicate SameOutputsUpToTies(a: Merger, b: Merger) {
    && a.config == b.config && WellFormed(a) && WellFormed(b)
    && (forall i | 0 <= i < a.config.slotCount :: a.slots[i].bid == b.slots[i].bid)
    && (forall i | 0 <= i < a.config.slotCount && a.slots[i].owner != b.slots[i].owner ::
          && a.slots[i].owner in b.records && BidOf(b.records[a.slots[i].owner], i) == b.slots[i].bid
          && b.slots[i].owner in a.records && BidOf(a.records[b.slots[i].owner], i) == a.slots[i].bid)
    && (a.config.tracksPapActive ==> a.papActive == b.papActive)
    && (a.config.tracksUniversePriority ==> a.universePriority == b.universePriority)
  }

  lemma ConsistentOutputsDependOnRecordsOnly(a: Merger, b: Merger)
    requires Consistent(a) && Consistent(b) && a.config == b.config && a.records == b.records
    ensures SameOutputsUpToTies(a, b)
  {
    forall i | 0 <= i < a.config.slotCount
      ensures a.slots[i].bid == b.slots[i].bid
    {
      var oa, ob := a.slots[i], b.slots[i];
      assert oa != UNSOURCED ==> !Beats(BidOf(b.records[oa.owner], i), ob.bid);
      assert ob != UNSOURCED ==> !Beats(BidOf(a.records[ob.owner], i), oa.bid);
    }
  }

  lemma HistoryIndependence(config: Config, one: seq<Op>, other: seq<Op>)
    requires Run(Initial(config), one).records == Run(Initial(config), other).records
    ensures SameOutputsUpToTies(Run(Initial(config), one), Run(Initial(config), other))
  {
    assert Consistent(Initial(config));
    RunKeepsConsistent(Initial(config), one);
    RunKeepsConsistent(Initial(config), other);
    ConsistentOutputsDependOnRecordsOnly(Run(Initial(config), one), Run(Initial(config), other));
  }

  // ---- Undo ----

  lemma OneStepChangesItsOwnRecord(m: Merger, op: Op)
    requires WellFormed(m)
    ensures Step(m, op).records - {op.source} == m.records - {op.source}
    ensures !m.config.tracksPapActive ==> Step(m, op).papActive == m.papActive
    ensures !m.config.tracksUniversePriority ==> Step(m, op).universePriority == m.universePriority
  {
  }

  lemma {:induction false} OnlyItsOwnRecordChanges(m: Merger, ops: seq<Op>, h: Handle)
    requires WellFormed(m) && forall op | op in ops :: op.source == h
    ensures Run(m, ops).records - {h} == m.records - {h}
    ensures !m.config.tracksPapActive ==> Run(m, ops).papActive == m.papActive
    ensures !m.config.tracksUniversePriority ==> Run(m, ops).universePriority == m.universePriority
    decreases |ops|
  {
    if ops != [] {
      OneStepChangesItsOwnRecord(m, ops[0]);
      OnlyItsOwnRecordChanges(Step(m, ops[0]), ops[1..], h);
    }
  }

  lemma {:induction false} RunConcat(m: Merger, first: seq<Op>, second: seq<Op>)
    requires WellFormed(m)
    ensures Run(m, first + second) == Run(Run(m, first), second)
    decreases |first|
  {
    if first == [] {
      assert first + second == second;
    } else {
      assert (first + second)[1..] == first[1..] + second;
      RunConcat(Step(m, first[0]), first[1..], second);
    }
  }

  lemma RemovedLastIsAbsent(m: Merger, ops: seq<Op>, h: Handle)
    requires WellFormed(m) && h != INVALID_SOURCE
    ensures h !in Run(m, ops + [RemoveSource(h)]).records
  {
    RunConcat(m, ops, [RemoveSource(h)]);
    var before := Run(m, ops);
    assert Run(before, [RemoveSource(h)]) == Run(Step(before, RemoveSource(h)), []);
  }

  /** Whatever a newcomer did, removing it restores every output and leaves it owning nothing. */
  lemma RemovingANewcomerUndoesIt(m: Merger, h: Handle, ops: seq<Op>)
    requires Consistent(m) && h !in m.records && h != INVALID_SOURCE
    requires forall op | op in ops :: op.source == h
    ensures var m' := Run(m, [AddSource(h)] + ops + [RemoveSource(h)]);
      && m'.records == m.records
      && SameOutputsUpToTies(m, m')
      && m'.papActive == m.papActive && m'.universePriority == m.universePriority
      && forall i | 0 <= i < |m'.slots| :: m'.slots[i].owner != h
  {
    var all := [AddSource(h)] + ops + [RemoveSource(h)];
    var m' := Run(m, all);
    RemovedLastIsAbsent(m, [AddSource(h)] + ops, h);
    OnlyItsOwnRecordChanges(m, all, h);
    UntouchedOutsideKey(m'.records, m.records, h);
    RunKeepsConsistent(m, all);
    ConsistentOutputsDependOnRecordsOnly(m, m');
  }

  lemma UntouchedOutsideKey(a: Records, b: Records, h: Handle)
    requires a - {h} == b - {h} && h !in a && h !in b
    ensures a == b
  {
    assert a - {h} == a && b - {h} == b;
  }

  lemma LastLevelsDecideTheRecord(r: SourceRecord, n: nat, fewer: seq<byte>)
    requires RecordOk(r, n) && |fewer| <= n
    ensures WithLevels(WithLevels(r, fewer), r.levels[..r.levelCount]) == r
  {
    RepeatedLevelsChangeNothing(r, n);
  }

  /** Shrinking a source's level count and sending the old levels again changes no output bid. */
  lemma ShrinkThenRegrowRestores(m: Merger, h: Handle, fewer: seq<byte>)
    requires Consistent(m) && h in m.records
    requires |fewer| <= m.config.slotCount && m.config.slotCount < 0x10000
    ensures var r := m.records[h];
      SameOutputsUpToTies(m, Step(Step(m, UpdateLevels(h, fewer)), UpdateLevels(h, r.levels[..r.levelCount])))
  {
    var r := m.records[h];
    var back := r.levels[..r.levelCount];
    var shrunk := Step(m, UpdateLevels(h, fewer));
    LastLevelsDecideTheRecord(r, m.config.slotCount, fewer);
    assert Truncated(fewer) == fewer && Truncated(back) == back;
    assert shrunk.records == m.records[h := WithLevels(r, fewer)];
    var regrown := Step(shrunk, UpdateLevels(h, back));
    assert regrown.records == m.records[h := WithLevels(r, fewer)][h := r] == m.records;
    StepKeepsConsistent(m, UpdateLevels(h, fewer));
    StepKeepsConsistent(shrunk, UpdateLevels(h, back));
    ConsistentOutputsDependOnRecordsOnly(m, regrown);
  }

  // ---- Ownership ----

  /** A slot leaves an owner that stays in the merger only for a source whose bid beats the owner's. */
  lemma OwnersMoveOnlyWhenBeaten(m: Merger, op: Op, slot: nat)
    requires Consistent(m) && slot < m.config.slotCount
    ensures var before := m.slots[slot].owner;
      var m' := Step(m, op);
      var after := m'.slots[slot].owner;
      before in m'.records && after != before ==>
        if after == INVALID_SOURCE then BidOf(m'.records[before], slot) == NO_BID
        else after in m'.records && Beats(BidOf(m'.records[after], slot), BidOf(m'.records[before], slot))
  {
    if Outcome(m, op) == Ok {
      var m' := Step(m, op);
      ElectIsTheSuccessor(m'.records, m.config.slotCount, slot, m.slots[slot].owner, m'.slots[slot]);
    }
  }
}
