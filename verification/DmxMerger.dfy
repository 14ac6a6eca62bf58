/**
 The incremental DMX merger: output buffers patched in place, slot by slot, so that they always equal
 the from-scratch merge of the stored source records.
 */
module DmxMerger {
  import opened Common
  import opened MergeSpec
  import opened MergerModel

  /** One source's stored input. Its buffers are part of the object itself. */
  class SourceState {
    const handle: Handle
    var levels: seq<byte>
    var addressPriority: seq<byte>
    var levelCount: nat
    var universePriority: byte
    var usingUniversePriority: bool
    var papCount: nat
    var universePriorityUninitialized: bool

    constructor (handle: Handle, n: nat)
      ensures this.handle == handle && Record() == FreshRecord(n)
    {
      this.handle := handle;
      levels := Filled(0, n);
      addressPriority := Filled(0, n);
      levelCount, papCount := 0, 0;
      universePriority, usingUniversePriority, universePriorityUninitialized := 0, true, true;
    }

    ghost function Record(): SourceRecord
      reads this
    {
      SourceRecord(levels, levelCount, universePriority, usingUniversePriority,
                   addressPriority, papCount, universePriorityUninitialized)
    }

    function EffectivePriorityAt(slot: nat): (p: byte)
      requires slot < |addressPriority|
      reads this
      ensures p == EffectivePriority(Record(), slot)
    {
      if slot < levelCount then addressPriority[slot] else 0
    }

    /** Copy the new levels in and zero the ones that were lost. */
    method StoreLevels(newLevels: seq<byte>, oldCount: nat)
      requires |newLevels| <= |levels| && oldCount <= |levels|
      requires forall i | oldCount <= i < |levels| :: levels[i] == 0
      modifies this`levels
      ensures levels == Padded(newLevels, old(|levels|))
    {
      levels := newLevels + levels[|newLevels|..];
      if oldCount > |newLevels| {
        levels := levels[..|newLevels|] + Filled(0, oldCount - |newLevels|) + levels[oldCount..];
      }
    }

    /** Copy the new priorities in and zero the ones that were lost. */
    method StorePap(pap: seq<byte>, oldCount: nat)
      requires |pap| <= |addressPriority| && oldCount <= |addressPriority|
      requires forall i | oldCount <= i < |addressPriority| :: addressPriority[i] == 0
      modifies this`addressPriority
      ensures addressPriority == Padded(pap, old(|addressPriority|))
    {
      addressPriority := pap + addressPriority[|pap|..];
      if oldCount > |pap| {
        addressPriority := addressPriority[..|pap|] + Filled(0, oldCount - |pap|) + addressPriority[oldCount..];
      }
    }
  }

  class MergerState {
    const config: Config
    const levels: array<byte>
    const priorities: array<byte>
    const owners: array<Handle>
    var papActive: bool
    var universePriority: byte
    var sources: map<Handle, SourceState>
    ghost var Repr: set<object>

    predicate Buffers() {
      && levels.Length == priorities.Length == owners.Length == config.slotCount
      && levels != priorities && owners as object != levels as object && owners as object != priorities as object
    }

    /** Sources are filed under their own handles, so no two of them are the same object. */
    ghost predicate Filed()
      reads this
    {
      && {this, levels as object, priorities, owners as object} <= Repr && Buffers()
      && (forall h | h in sources :: sources[h] in Repr && sources[h].handle == h)
    }

    ghost function Records(): Records
      reads this`sources, set h | h in sources :: sources[h]
    {
      map h | h in sources :: sources[h].Record()
    }

    function Slot(i: nat): SlotOutput
      requires Buffers() && i < config.slotCount
      reads levels, priorities, owners
    {
      SlotOutput(Bid(priorities[i], levels[i]), owners[i])
    }

    function Slots(): seq<SlotOutput>
      requires Buffers()
      reads levels, priorities, owners
    {
      seq(config.slotCount,
          i requires 0 <= i < config.slotCount && Buffers() reads levels, priorities, owners => Slot(i))
    }

    ghost function Model(): Merger
      requires Filed()
      reads this, Repr
    {
      Merger(config, Records(), Slots(), papActive, universePriority)
    }

    ghost predicate Valid()
      reads this, Repr
    {
      Filed() && Consistent(Model())
    }

    constructor (config: Config)
      ensures Valid() && fresh(Repr) && this.config == config
      ensures Model() == Initial(config)
    {
      this.config := config;
      levels := new byte[config.slotCount](_ => 0);
      priorities := new byte[config.slotCount](_ => 0);
      owners := new Handle[config.slotCount](_ => INVALID_SOURCE);
      papActive, universePriority := false, 0;
      sources := map[];
      new;
      Repr := {this, levels, priorities, owners};
    }

    // ---- Merging one slot ----

    /** `records` is what the sources hold. */
    ghost predicate Holds(records: Records)
      reads this, set h | h in sources :: sources[h]
    {
      Filed() && records == Records() && Sized(records, config.slotCount)
    }

    /** Likewise, and `source` is one of them. */
    ghost predicate Tracks(source: SourceState, records: Records)
      reads this, set h | h in sources :: sources[h]
    {
      Holds(records) && source.handle in sources && sources[source.handle] == source
    }

    twostate predicate OthersKept(slot: nat)
      requires Buffers()
      reads levels, priorities, owners
    {
      forall i | 0 <= i < config.slotCount && i != slot ::
        levels[i] == old(levels[i]) && priorities[i] == old(priorities[i]) && owners[i] == old(owners[i])
    }

    /** Write one slot's outputs. */
    method SetSlot(slot: nat, level: byte, owner: Handle, priority: byte)
      requires Filed() && slot < config.slotCount
      modifies levels, priorities, owners
      ensures Slot(slot) == SlotOutput(Bid(priority, level), owner)
      ensures OthersKept(slot)
      ensures Records() == old(Records())
    {
      levels[slot] := level;
      owners[slot] := owner;
      priorities[slot] := priority;
    }

    /** Hand the slot to the candidate if its bid beats what the output now holds. */
    method Challenge(h: Handle, candidate: Handle, slot: nat, ghost records: Records)
      requires Holds(records) && candidate in sources && slot < config.slotCount
      modifies levels, priorities, owners
      ensures Records() == old(Records())
      ensures OthersKept(slot)
      ensures Slot(slot) ==
        Challenged(records, config.slotCount, slot, h, candidate, old(Slot(slot)))
    {
      var other := sources[candidate];
      assert other.Record() == records[candidate];
      var pap := other.EffectivePriorityAt(slot);
      if other.handle != h
         && (pap > priorities[slot] || (pap > 0 && pap == priorities[slot] && other.levels[slot] > levels[slot]))
      {
        SetSlot(slot, other.levels[slot], other.handle, pap);
      }
    }

    /** Scan the other sources of the slot for a bid that beats what the output now holds. */
    method FindNewOwner(h: Handle, slot: nat, ghost records: Records)
      requires Holds(records) && h in records && slot < config.slotCount
      modifies levels, priorities, owners
      ensures Records() == old(Records())
      ensures Slot(slot) == ScannedFromStart(records, config.slotCount, slot, h, old(Slot(slot)))
      ensures OthersKept(slot)
    {
      ghost var n := config.slotCount;
      var keys := sources.Keys;
      assert keys == records.Keys;
      var candidate := Next(keys, 0);
      while candidate.Some?
        invariant candidate.Some? ==> candidate.value in keys
        invariant records == Records()
        invariant Scanned(records, n, slot, h, candidate, Slot(slot))
               == ScannedFromStart(records, n, slot, h, old(Slot(slot)))
        invariant OthersKept(slot)
        decreases Remaining(candidate)
      {
        Challenge(h, candidate.value, slot, records);
        candidate := After(keys, candidate.value);
      }
    }

    /** Hand the slot to the candidate if it has the winning priority and a higher level. */
    method ChallengeLevel(h: Handle, candidate: Handle, slot: nat, ghost records: Records)
      requires Holds(records)
      requires candidate in sources && slot < config.slotCount
      requires priorities[slot] > 0 && OnlyLevelsDecide(records, config.slotCount, slot, priorities[slot])
      modifies levels, priorities, owners
      ensures Records() == old(Records())
      ensures OthersKept(slot)
      ensures priorities[slot] == old(priorities[slot])
      ensures Slot(slot) ==
        Challenged(records, config.slotCount, slot, h, candidate, old(Slot(slot)))
    {
      var other := sources[candidate];
      assert other.Record() == records[candidate];
      if other.handle != h {
        var candidateLevel := other.levels[slot];
        if other.addressPriority[slot] == priorities[slot] && candidateLevel > levels[slot] {
          levels[slot] := candidateLevel;
          owners[slot] := other.handle;
        }
      }
    }

    /** Scan the other sources for a higher level at the slot's winning priority. */
    method FindLouderOwner(h: Handle, slot: nat, ghost records: Records)
      requires Holds(records) && h in records && slot < config.slotCount
      requires priorities[slot] > 0 && OnlyLevelsDecide(records, config.slotCount, slot, priorities[slot])
      modifies levels, priorities, owners
      ensures Records() == old(Records())
      ensures Slot(slot) == ScannedFromStart(records, config.slotCount, slot, h, old(Slot(slot)))
      ensures OthersKept(slot)
    {
      ghost var n, top := config.slotCount, priorities[slot];
      var keys := sources.Keys;
      assert keys == records.Keys;
      var candidate := Next(keys, 0);
      while candidate.Some?
        invariant candidate.Some? ==> candidate.value in keys
        invariant records == Records()
        invariant Scanned(records, n, slot, h, candidate, Slot(slot))
               == ScannedFromStart(records, n, slot, h, old(Slot(slot)))
        invariant OthersKept(slot) && priorities[slot] == top
        decreases Remaining(candidate)
      {
        ChallengeLevel(h, candidate.value, slot, records);
        candidate := After(keys, candidate.value);
      }
    }

    /** Merge a source's new priority into one slot. */
    method MergeSlotPriority(source: SourceState, slot: nat, ghost records: Records)
      requires Tracks(source, records) && slot < config.slotCount
      modifies levels, priorities, owners
      ensures Records() == old(Records())
      ensures Slot(slot) == PriorityMerged(records, config.slotCount, source.handle, slot, old(Slot(slot)))
      ensures OthersKept(slot)
    {
      assert source.Record() == records[source.handle];
      var pap := source.EffectivePriorityAt(slot);
      if pap > priorities[slot] {
        SetSlot(slot, source.levels[slot], source.handle, pap);
      } else if source.handle != owners[slot] {
        if pap > 0 && pap == priorities[slot] && source.levels[slot] > levels[slot] {
          SetSlot(slot, source.levels[slot], source.handle, pap);
        }
      } else if pap < priorities[slot] {
        priorities[slot] := pap;
        if priorities[slot] == 0 {
          levels[slot] := 0;
          owners[slot] := INVALID_SOURCE;
        }
        FindNewOwner(source.handle, slot, records);
      }
    }

    /** Merge a source's new level into one slot that it already took part in. */
    method MergeSlotLevel(source: SourceState, slot: nat, ghost records: Records)
      requires Tracks(source, records) && slot < config.slotCount && slot < source.levelCount
      requires OnlyLevelsDecide(records, config.slotCount, slot, priorities[slot])
      modifies levels, priorities, owners
      ensures Records() == old(Records())
      ensures Slot(slot) == LevelMerged(records, config.slotCount, source.handle, slot, old(Slot(slot)))
      ensures OthersKept(slot)
    {
      assert source.Record() == records[source.handle];
      if source.addressPriority[slot] > 0 && source.addressPriority[slot] == priorities[slot] {
        if source.levels[slot] > levels[slot] {
          levels[slot] := source.levels[slot];
          owners[slot] := source.handle;
        } else if source.handle == owners[slot] && source.levels[slot] < levels[slot] {
          levels[slot] := source.levels[slot];
          FindLouderOwner(source.handle, slot, records);
        }
      }
    }

    /** Merge a source's new priorities into a range of slots. */
    method MergeNewPriorities(source: SourceState, start: nat, end: nat, ghost records: Records)
      requires Tracks(source, records) && end <= config.slotCount
      modifies levels, priorities, owners
      ensures Records() == old(Records())
      ensures Slots() == PrioritiesMerged(records, config.slotCount, source.handle, start, end, old(Slots()))
    {
      var slot := start;
      while slot < end
        invariant Records() == records
        invariant start <= slot && (slot == start || slot <= end)
        invariant forall i | start <= i < slot ::
          Slot(i) == PriorityMerged(records, config.slotCount, source.handle, i, old(Slot(i)))
        invariant forall i | 0 <= i < config.slotCount && !(start <= i < slot) :: Slot(i) == old(Slot(i))
      {
        MergeSlotPriority(source, slot, records);
        slot := slot + 1;
      }
    }

    /** Merge a source's new levels into the slots it already took part in. */
    method MergeNewLevels(source: SourceState, end: nat, ghost records: Records)
      requires Tracks(source, records) && end <= source.levelCount
      requires OnlyLevelsDecideBelow(records, config.slotCount, end, Slots())
      modifies levels, priorities, owners
      ensures Records() == old(Records())
      ensures Slots() == LevelsMerged(records, config.slotCount, source.handle, end, old(Slots()))
    {
      for slot := 0 to end
        invariant Records() == records
        invariant forall i | 0 <= i < slot ::
          Slot(i) == LevelMerged(records, config.slotCount, source.handle, i, old(Slot(i)))
        invariant forall i | slot <= i < config.slotCount :: Slot(i) == old(Slot(i))
      {
        assert OnlyLevelsDecide(records, config.slotCount, slot, old(Slots())[slot].bid.priority);
        MergeSlotLevel(source, slot, records);
      }
    }

    // ---- Updating a source's levels ----

    /** The new level count is stored in the source, but the new levels are neither stored nor merged. */
    ghost predicate LevelCountStored(source: SourceState, newLevels: seq<byte>, oldCount: nat, before: Records,
            after: Records)
      reads this, levels, priorities, owners, set h | h in sources :: sources[h]
    {
      var n, h := config.slotCount, source.handle;
      && Filed() && h in sources && sources[h] == source
      && RecordsOk(before, n) && Winners(before, n, Slots())
      && h in before && |newLevels| <= n && oldCount == before[h].levelCount
      && Records() == before[h := before[h].(levelCount := |newLevels|)]
      && after == before[h := WithLevels(before[h], newLevels)] && Sized(after, n)
    }

    /** Merge the slots the source keeps, then the ones it gained or lost. */
    method MergeLevelUpdate(source: SourceState, oldCount: nat, newCount: nat, ghost records: Records)
      requires Tracks(source, records) && oldCount <= config.slotCount && newCount <= config.slotCount
      requires source.levelCount == newCount
      requires OnlyLevelsDecideBelow(records, config.slotCount, Min(oldCount, newCount), Slots())
      modifies levels, priorities, owners
      ensures Records() == old(Records())
      ensures Slots() == LevelUpdateMerged(records, config.slotCount, source.handle, oldCount, newCount, old(Slots()))
    {
      MergeNewLevels(source, Min(oldCount, newCount), records);
      MergeNewPriorities(source, oldCount, newCount, records);
      MergeNewPriorities(source, newCount, oldCount, records);
    }

    /** Writing to one source changes its record and no other. */
    twostate lemma OnlyWrote(source: SourceState)
      requires old(Filed()) && sources == old(sources) && source.handle in sources && sources[source.handle] == source
      requires forall h | h in sources && sources[h] != source :: unchanged(sources[h])
      ensures Records() == old(Records())[source.handle := source.Record()]
    {
    }

    twostate lemma OnlyOutputsWritten()
      requires sources == old(sources) && forall h | h in sources :: unchanged(sources[h])
      ensures Records() == old(Records())
    {
    }

    /** Store the new levels in the source. */
    method StoreNewLevels(source: SourceState, newLevels: seq<byte>, oldCount: nat,
                          ghost before: Records, ghost after: Records)
      requires LevelCountStored(source, newLevels, oldCount, before, after)
      modifies source`levels
      ensures Tracks(source, after) && source.levelCount == |newLevels|
    {
      assert source.Record() == Records()[source.handle];
      source.StoreLevels(newLevels, oldCount);
      OnlyWrote(source);
    }

    method UpdateLevelsMultiSource(source: SourceState, newLevels: seq<byte>, oldCount: nat,
                                   ghost before: Records, ghost after: Records)
      requires LevelCountStored(source, newLevels, oldCount, before, after)
      modifies source`levels, levels, priorities, owners
      ensures Records() == after && Sized(after, config.slotCount)
      ensures Slots() == Election(after, config.slotCount, old(Slots()))
    {
      LevelUpdateElects(before, config.slotCount, source.handle, newLevels, Slots());
      StoreNewLevels(source, newLevels, oldCount, before, after);
      MergeLevelUpdate(source, oldCount, |newLevels|, after);
    }

    /** Copy a lone source's levels to the outputs of the slots it has a priority for. */
    method CopyLoneLevels(source: SourceState, newLevels: seq<byte>)
      requires Buffers() && |newLevels| <= config.slotCount == |source.addressPriority|
      modifies levels
      ensures forall i | 0 <= i < config.slotCount ::
        Slot(i) == if i < |newLevels| && source.addressPriority[i] > 0
                   then old(Slot(i)).(bid := Bid(old(priorities[i]), newLevels[i])) else old(Slot(i))
    {
      for i := 0 to |newLevels|
        invariant forall j | 0 <= j < config.slotCount ::
          Slot(j) == if j < i && source.addressPriority[j] > 0
                     then old(Slot(j)).(bid := Bid(old(priorities[j]), newLevels[j])) else old(Slot(j))
      {
        if source.addressPriority[i] > 0 {
          levels[i] := newLevels[i];
        }
      }
    }

    /** Source the slots a lone source has gained. */
    method SourceGainedSlots(source: SourceState, oldCount: nat, newCount: nat)
      requires Buffers() && oldCount <= newCount <= config.slotCount == |source.addressPriority|
      modifies priorities, owners
      ensures forall i | 0 <= i < config.slotCount ::
        Slot(i) == if oldCount <= i < newCount && source.addressPriority[i] > 0
                   then SlotOutput(Bid(source.addressPriority[i], old(levels[i])), source.handle) else old(Slot(i))
    {
      for i := oldCount to newCount
        invariant forall j | 0 <= j < config.slotCount ::
          Slot(j) == if oldCount <= j < i && source.addressPriority[j] > 0
                     then SlotOutput(Bid(source.addressPriority[j], old(levels[j])), source.handle) else old(Slot(j))
      {
        if source.addressPriority[i] > 0 {
          priorities[i] := source.addressPriority[i];
          owners[i] := source.handle;
        }
      }
    }

    /** Release the slots a lone source has lost. */
    method ReleaseLostSlots(newCount: nat, oldCount: nat)
      requires Buffers() && newCount <= oldCount <= config.slotCount
      modifies levels, priorities, owners
      ensures forall i | 0 <= i < config.slotCount ::
        Slot(i) == if newCount <= i < oldCount then UNSOURCED else old(Slot(i))
    {
      forall i | newCount <= i < oldCount { levels[i] := 0; }
      forall i | newCount <= i < oldCount { priorities[i] := 0; }
      forall i | newCount <= i < oldCount { owners[i] := INVALID_SOURCE; }
    }

    /** Copy a lone source's levels to the outputs, sourcing gained slots and releasing lost ones. */
    method CopyLoneSource(source: SourceState, newLevels: seq<byte>, oldCount: nat, ghost was: SourceRecord)
      requires Buffers() && |was.levels| == |was.addressPriority| == config.slotCount
      requires |newLevels| <= config.slotCount && oldCount == was.levelCount <= config.slotCount
      requires source.addressPriority == was.addressPriority
      requires Slots() == LoneOutputs(was, config.slotCount, source.handle)
      modifies levels, priorities, owners
      ensures Slots() == LoneOutputs(WithLevels(was, newLevels), config.slotCount, source.handle)
    {
      assert forall i | 0 <= i < config.slotCount :: Slot(i) == Slots()[i] == Lone(was, i, source.handle);
      CopyLoneLevels(source, newLevels);
      if |newLevels| > oldCount {
        SourceGainedSlots(source, oldCount, |newLevels|);
      }
      if oldCount > |newLevels| {
        ReleaseLostSlots(|newLevels|, oldCount);
      }
    }

    lemma LoneLevels(source: SourceState, newLevels: seq<byte>, oldCount: nat, before: Records, after: Records)
      requires LevelCountStored(source, newLevels, oldCount, before, after) && |sources| == 1
      ensures Slots() == LoneOutputs(before[source.handle], config.slotCount, source.handle)
      ensures Election(after, config.slotCount, Slots())
        == LoneOutputs(after[source.handle], config.slotCount, source.handle)
    {
      OnlyKey(sources, source.handle);
      assert Records().Keys == sources.Keys;
      LoneSourceIsElected(before, after, config.slotCount, source.handle, Slots());
    }

    method UpdateLevelsSingleSource(source: SourceState, newLevels: seq<byte>, oldCount: nat,
                                    ghost before: Records, ghost after: Records)
      requires LevelCountStored(source, newLevels, oldCount, before, after) && |sources| == 1
      modifies source`levels, levels, priorities, owners
      ensures Records() == after && Sized(after, config.slotCount)
      ensures Slots() == Election(after, config.slotCount, old(Slots()))
    {
      LoneLevels(source, newLevels, oldCount, before, after);
      ghost var elected := Election(after, config.slotCount, Slots());
      StoreNewLevels(source, newLevels, oldCount, before, after);
      assert source.Record() == after[source.handle];
      label stored:
      CopyLoneSource(source, newLevels, oldCount, before[source.handle]);
      assert Slots() == elected;
      OnlyOutputsWritten@stored();
    }

    /** The merger is consistent and `before` is what its sources, one of them `source`, hold. */
    ghost predicate Ready(source: SourceState, before: Records)
      reads this, levels, priorities, owners, set h | h in sources :: sources[h]
    {
      Tracks(source, before) && RecordsOk(before, config.slotCount) && Winners(before, config.slotCount, Slots())
    }

    method ApplyLevels(source: SourceState, newLevels: seq<byte>, ghost before: Records, ghost after: Records)
      requires Ready(source, before) && RecordsOk(after, config.slotCount)
      requires after == if |newLevels| > config.slotCount then before
                        else before[source.handle := WithLevels(before[source.handle], newLevels)]
      modifies source`levels, source`levelCount, levels, priorities, owners
      ensures Records() == after && Slots() == Election(after, config.slotCount, old(Slots()))
    {
      UnchangedRecordsElectTheSame(before, config.slotCount, Slots());
      if |newLevels| > config.slotCount {
        return;
      }
      assert source.Record() == before[source.handle];
      RepeatedLevelsChangeNothing(before[source.handle], config.slotCount);
      var oldCount := source.levelCount;
      source.levelCount := |newLevels|;
      assert Records() == before[source.handle := before[source.handle].(levelCount := |newLevels|)];
      if |newLevels| != oldCount || newLevels != source.levels[..|newLevels|] {
        if |sources| == 1 {
          UpdateLevelsSingleSource(source, newLevels, oldCount, before, after);
        } else {
          UpdateLevelsMultiSource(source, newLevels, oldCount, before, after);
        }
      }
    }

    // ---- Updating a source's priorities ----

    /** Only the priorities of `source` differ between what is stored and what has been merged. */
    ghost predicate PriorityStored(source: SourceState, before: Records, after: Records)
      reads this, levels, priorities, owners, set h | h in sources :: sources[h]
    {
      var n, h := config.slotCount, source.handle;
      && Tracks(source, after) && Sized(before, n) && Winners(before, n, Slots())
      && h in before && after == before[h := after[h]]
      && after[h].levels == before[h].levels && after[h].levelCount == before[h].levelCount <= n
    }

    method MergeStoredPriority(source: SourceState, ghost before: Records, ghost after: Records)
      requires PriorityStored(source, before, after)
      modifies levels, priorities, owners
      ensures Records() == after && Slots() == Election(after, config.slotCount, old(Slots()))
    {
      assert source.Record() == after[source.handle];
      PriorityUpdateElects(before, config.slotCount, source.handle, after[source.handle], Slots());
      MergeNewPriorities(source, 0, source.levelCount, after);
    }

    /** Copy a lone source's priorities, and its levels where it has one, to the outputs. */
    method CopyLonePap(source: SourceState)
      requires Buffers() && |source.levels| == |source.addressPriority| == config.slotCount
      requires source.levelCount <= config.slotCount
      requires forall i | source.levelCount <= i < config.slotCount ::
        levels[i] == 0 && priorities[i] == 0 && owners[i] == INVALID_SOURCE
      modifies levels, priorities, owners
      ensures Slots() == LoneOutputs(source.Record(), config.slotCount, source.handle)
    {
      forall i | 0 <= i < source.levelCount { priorities[i] := source.addressPriority[i]; }
      for i := 0 to source.levelCount
        invariant forall j | 0 <= j < i || source.levelCount <= j < config.slotCount ::
          Slot(j) == Lone(source.Record(), j, source.handle)
        invariant forall j | i <= j < source.levelCount :: priorities[j] == source.addressPriority[j]
      {
        if source.addressPriority[i] == 0 {
          levels[i] := 0;
          owners[i] := INVALID_SOURCE;
        } else {
          levels[i] := source.levels[i];
          owners[i] := source.handle;
        }
      }
    }

    /** Copy a lone source's uniform, non-zero priority to the outputs. */
    method CopyLonePriority(source: SourceState, pap: byte)
      requires Buffers() && |source.levels| == config.slotCount && source.levelCount <= config.slotCount
      requires pap > 0 && source.addressPriority == Filled(pap, config.slotCount)
      requires forall i | source.levelCount <= i < config.slotCount ::
        levels[i] == 0 && priorities[i] == 0 && owners[i] == INVALID_SOURCE
      modifies levels, priorities, owners
      ensures Slots() == LoneOutputs(source.Record(), config.slotCount, source.handle)
    {
      forall i | 0 <= i < source.levelCount { priorities[i] := pap; }
      forall i | 0 <= i < source.levelCount { owners[i] := source.handle; }
      forall i | 0 <= i < source.levelCount { levels[i] := source.levels[i]; }
      assert forall i | 0 <= i < source.levelCount :: Slot(i) == Lone(source.Record(), i, source.handle);
      assert forall i | source.levelCount <= i < config.slotCount :: Slot(i) == Lone(source.Record(), i, source.handle);
    }

    method UpdatePapSingleSource(source: SourceState, ghost before: Records, ghost after: Records)
      requires PriorityStored(source, before, after) && RecordsOk(after, config.slotCount) && |sources| == 1
      modifies levels, priorities, owners
      ensures Records() == after && Slots() == Election(after, config.slotCount, old(Slots()))
    {
      LoneSlotsBeyondCount(source, before, after);
      CopyLonePap(source);
    }

    method UpdateUniversePrioritySingleSource(source: SourceState, pap: byte, ghost before: Records,
            ghost after: Records)
      requires PriorityStored(source, before, after) && RecordsOk(after, config.slotCount) && |sources| == 1
      requires pap > 0 && source.addressPriority == Filled(pap, config.slotCount)
      modifies levels, priorities, owners
      ensures Records() == after && Slots() == Election(after, config.slotCount, old(Slots()))
    {
      LoneSlotsBeyondCount(source, before, after);
      CopyLonePriority(source, pap);
    }

    lemma LoneSlotsBeyondCount(source: SourceState, before: Records, after: Records)
      requires PriorityStored(source, before, after) && RecordsOk(after, config.slotCount) && |sources| == 1
      ensures source.Record() == after[source.handle]
      ensures RecordOk(source.Record(), config.slotCount)
      ensures Election(after, config.slotCount, Slots())
        == LoneOutputs(source.Record(), config.slotCount, source.handle)
      ensures forall i | source.levelCount <= i < config.slotCount ::
        levels[i] == 0 && priorities[i] == 0 && owners[i] == INVALID_SOURCE
    {
      OnlyKey(sources, source.handle);
      assert Records().Keys == sources.Keys;
      assert before.Keys == after.Keys;
      assert source.Record() == after[source.handle];
      LoneSourceIsElected(before, after, config.slotCount, source.handle, Slots());
      forall i | source.levelCount <= i < config.slotCount
        ensures levels[i] == 0 && priorities[i] == 0 && owners[i] == INVALID_SOURCE
      {
        assert Slot(i) == Slots()[i] == Lone(before[source.handle], i, source.handle);
      }
    }

    /** PAP is marked active with its new count, but the new priorities are neither stored nor merged. */
    ghost predicate PapCountStored(source: SourceState, pap: seq<byte>, oldCount: nat, before: Records, after: Records)
      reads this, levels, priorities, owners, set h | h in sources :: sources[h]
    {
      var n, h := config.slotCount, source.handle;
      && Filed() && h in sources && sources[h] == source
      && RecordsOk(before, n) && Winners(before, n, Slots())
      && h in before && |pap| <= n && oldCount == before[h].papCount
      && Records() == before[h := before[h].(usingUniversePriority := false, papCount := |pap|)]
      && after == before[h := WithPap(before[h], pap)] && RecordsOk(after, n)
    }

    /** Store new per-address priorities in the source. */
    method StoreNewPap(source: SourceState, pap: seq<byte>, oldCount: nat, ghost before: Records, ghost after: Records)
      requires PapCountStored(source, pap, oldCount, before, after)
      modifies source`addressPriority
      ensures Tracks(source, after)
    {
      assert source.Record() == Records()[source.handle];
      source.StorePap(pap, oldCount);
      OnlyWrote(source);
    }

    method MergePap(source: SourceState, pap: seq<byte>, oldCount: nat, ghost before: Records, ghost after: Records)
      requires PapCountStored(source, pap, oldCount, before, after)
      modifies source`addressPriority, levels, priorities, owners
      ensures Records() == after && Slots() == Election(after, config.slotCount, old(Slots()))
    {
      StoreNewPap(source, pap, oldCount, before, after);
      if |sources| == 1 {
        UpdatePapSingleSource(source, before, after);
      } else {
        MergeStoredPriority(source, before, after);
      }
    }

    /** Mark PAP active, with the new count. */
    method ActivatePap(source: SourceState, count: nat, ghost before: Records)
      requires Tracks(source, before) && source.handle in before
      modifies source`usingUniversePriority, source`papCount, `papActive
      ensures Records() ==
        before[source.handle := before[source.handle].(usingUniversePriority := false, papCount := count)]
      ensures papActive == if config.tracksPapActive then true else old(papActive)
    {
      assert source.Record() == before[source.handle];
      source.usingUniversePriority := false;
      source.papCount := count;
      OnlyWrote(source);
      if config.tracksPapActive {
        papActive := true;
      }
    }

    method ApplyPap(source: SourceState, pap: seq<byte>, ghost before: Records, ghost after: Records)
      requires Ready(source, before) && RecordsOk(after, config.slotCount) && |pap| <= config.slotCount
      requires after == before[source.handle := WithPap(before[source.handle], pap)]
      modifies source`addressPriority, source`usingUniversePriority, source`papCount, `papActive, levels, priorities,
               owners
      ensures Records() == after && Slots() == Election(after, config.slotCount, old(Slots()))
      ensures papActive == if config.tracksPapActive then true else old(papActive)
    {
      assert source.Record() == before[source.handle];
      var oldCount := source.papCount;
      ActivatePap(source, |pap|, before);
      if |pap| != oldCount || pap != source.addressPriority[..|pap|] {
        MergePap(source, pap, oldCount, before, after);
      } else {
        RepeatedPapOnlyActivates(before[source.handle], config.slotCount);
        OnlyBuffersMatter(before, config.slotCount, source.handle, after[source.handle], Slots());
      }
    }

    /** PAP for more slots than there are is ignored. */
    method ApplySizedPap(source: SourceState, pap: seq<byte>, ghost before: Records, ghost after: Records)
      requires Ready(source, before) && RecordsOk(after, config.slotCount)
      requires after == if |pap| > config.slotCount then before
        else before[source.handle := WithPap(before[source.handle], pap)]
      modifies source`addressPriority, source`usingUniversePriority, source`papCount, `papActive, levels, priorities,
               owners
      ensures Records() == after && Slots() == Election(after, config.slotCount, old(Slots()))
      ensures papActive == if config.tracksPapActive && |pap| <= config.slotCount then true else old(papActive)
    {
      if |pap| > config.slotCount {
        UnchangedRecordsElectTheSame(before, config.slotCount, Slots());
      } else {
        ApplyPap(source, pap, before, after);
      }
    }

    /** Fill the source with the converted universe priority. */
    method StoreConvertedPap(source: SourceState, pap: byte, ghost before: Records, ghost after: Records)
      requires Tracks(source, before) && Sized(after, config.slotCount)
      requires after == before[source.handle :=
        before[source.handle].(addressPriority := Filled(pap, config.slotCount), papCount := config.slotCount)]
      modifies source`addressPriority, source`papCount
      ensures Tracks(source, after)
    {
      assert source.Record() == before[source.handle];
      source.papCount := config.slotCount;
      source.addressPriority := Filled(pap, config.slotCount);
      OnlyWrote(source);
    }

    method MergeConvertedPriority(source: SourceState, pap: byte, ghost before: Records, ghost after: Records)
      requires Tracks(source, before) && Winners(before, config.slotCount, Slots())
      requires RecordsOk(after, config.slotCount)
      requires pap > 0 && after == before[source.handle :=
        before[source.handle].(addressPriority := Filled(pap, config.slotCount), papCount := config.slotCount)]
      modifies source`addressPriority, source`papCount, levels, priorities, owners
      ensures Records() == after && Slots() == Election(after, config.slotCount, old(Slots()))
    {
      StoreConvertedPap(source, pap, before, after);
      assert source.Record() == after[source.handle];
      if |sources| == 1 {
        UpdateUniversePrioritySingleSource(source, pap, before, after);
      } else {
        MergeStoredPriority(source, before, after);
      }
    }

    // ---- Aggregate outputs ----

    /** Recalculate the universe priority output from every source. */
    method RecalculateUniversePriority(ghost records: Records)
      requires Holds(records)
      modifies `universePriority
      ensures IsMaxUniversePriority(records, universePriority) && Records() == old(Records())
    {
      var maxUniversePriority: byte := 0;
      var keys := sources.Keys;
      assert keys == records.Keys;
      var source := Next(keys, 0);
      ghost var bound := 0;
      while source.Some?
        invariant IsNext(keys, bound, source)
        invariant forall h | h in records && h < bound :: records[h].universePriority <= maxUniversePriority
        invariant maxUniversePriority > 0 ==>
          exists h :: h in records && records[h].universePriority == maxUniversePriority
        decreases Remaining(source)
      {
        assert sources[source.value].Record() == records[source.value];
        if sources[source.value].universePriority > maxUniversePriority {
          maxUniversePriority := sources[source.value].universePriority;
        }
        bound := source.value + 1;
        source := After(keys, source.value);
      }
      universePriority := maxUniversePriority;
    }

    /** Recalculate the PAP-active output, stopping at the first source with active PAP. */
    method RecalculatePapActive(ghost records: Records)
      requires Holds(records)
      modifies `papActive
      ensures papActive == PapActiveIn(records) && Records() == old(Records())
    {
      var active := false;
      var keys := sources.Keys;
      assert keys == records.Keys;
      var source := Next(keys, 0);
      ghost var bound := 0;
      while !active && source.Some?
        invariant IsNext(keys, bound, source)
        invariant active ==> PapActiveIn(records)
        invariant !active ==> forall h | h in records && h < bound :: records[h].usingUniversePriority
        decreases Remaining(source)
      {
        assert sources[source.value].Record() == records[source.value];
        if !sources[source.value].usingUniversePriority {
          active := true;
        }
        bound := source.value + 1;
        source := After(keys, source.value);
      }
      papActive := active;
    }

    /** Store the universe priority itself. */
    method StoreUniversePriority(source: SourceState, priority: byte, ghost before: Records)
      requires Tracks(source, before)
      modifies source`universePriority, source`universePriorityUninitialized
      ensures Records() == before[source.handle :=
        before[source.handle].(universePriority := priority, universePriorityUninitialized := false)]
    {
      assert source.Record() == before[source.handle];
      source.universePriorityUninitialized := false;
      source.universePriority := priority;
    }

    method ApplyChangedUniversePriority(source: SourceState, priority: byte, ghost before: Records,
            ghost after: Records)
      requires Ready(source, before) && RecordsOk(after, config.slotCount)
      requires after == before[source.handle := WithUniversePriority(before[source.handle], priority)]
      modifies source, levels, priorities, owners
      ensures Records() == after && Slots() == Election(after, config.slotCount, old(Slots()))
    {
      UniversePriorityLeavesToMerge(before, config.slotCount, source.handle, priority, Slots());
      StoreUniversePriority(source, priority, before);
      ghost var stored := Records();
      assert source.Record() == stored[source.handle];
      if source.usingUniversePriority {
        var pap := if priority == 0 then 1 else priority;
        MergeConvertedPriority(source, pap, stored, after);
      }
    }

    /** Patch the universe priority output after one source's universe priority went from `was` to `priority`. */
    method PatchUniversePriority(priority: byte, wasMax: bool, singleSource: bool,
                                 ghost h: Handle, ghost before: Records, ghost after: Records)
      requires h in before && h in after && after == before[h := after[h]] && Holds(after)
      requires after[h].universePriority == priority
      requires IsMaxUniversePriority(before, universePriority)
      requires wasMax == (before[h].universePriority >= universePriority)
      requires singleSource ==> before.Keys == {h}
      modifies `universePriority
      ensures IsMaxUniversePriority(after, universePriority) && Records() == old(Records()) && Slots() == old(Slots())
    {
      MaxAfterUpdate(before, h, after[h], universePriority);
      if singleSource || priority >= universePriority {
        universePriority := priority;
      } else if wasMax {
        RecalculateUniversePriority(after);
      }
    }

    method ApplyUniversePriority(source: SourceState, priority: byte, ghost before: Records, ghost after: Records)
      requires Ready(source, before) && RecordsOk(after, config.slotCount)
      requires after == before[source.handle := WithUniversePriority(before[source.handle], priority)]
      requires config.tracksUniversePriority ==> IsMaxUniversePriority(before, universePriority)
      modifies source, `universePriority, levels, priorities, owners
      ensures Records() == after && Slots() == Election(after, config.slotCount, old(Slots()))
      ensures config.tracksUniversePriority ==> IsMaxUniversePriority(after, universePriority)
      ensures !config.tracksUniversePriority ==> universePriority == old(universePriority)
    {
      var wasMax := config.tracksUniversePriority && source.universePriority >= universePriority;
      var singleSource := |sources| == 1;
      ghost var h := source.handle;
      assert wasMax == (config.tracksUniversePriority && before[h].universePriority >= universePriority) by {
        assert source.Record() == before[h];
      }
      assert singleSource ==> before.Keys == {h} by {
        assert before.Keys == sources.Keys;
        if singleSource { OnlyKey(sources, h); }
      }
      ApplyChangedUniversePriority(source, priority, before, after);
      if config.tracksUniversePriority {
        PatchUniversePriority(priority, wasMax, singleSource, h, before, after);
      }
    }

    // ---- Operations ----

    method UpdateLevels(h: Handle, newLevels: seq<byte>) returns (result: Status)
      requires Valid()
      modifies Repr
      ensures Valid() && Repr == old(Repr)
      ensures result == Outcome(old(Model()), Op.UpdateLevels(h, newLevels))
      ensures Model() == Step(old(Model()), Op.UpdateLevels(h, newLevels))
    {
      if h == INVALID_SOURCE {
        return ErrSys;
      }
      if h !in sources {
        return ErrNotFound;
      }
      ghost var m, before, after := Model(), Records(), NextRecords(Model(), Op.UpdateLevels(h, newLevels));
      var data := newLevels[..|newLevels| % 0x10000];
      ApplyLevels(sources[h], data, before, after);
      assert after == before[h := after[h]];
      UpdateFinishes(m, Model(), h, after[h]);
      return Ok;
    }

    method UpdatePap(h: Handle, pap: seq<byte>) returns (result: Status)
      requires Valid()
      modifies Repr
      ensures Valid() && Repr == old(Repr)
      ensures result == Outcome(old(Model()), Op.UpdatePap(h, pap))
      ensures Model() == Step(old(Model()), Op.UpdatePap(h, pap))
    {
      if h == INVALID_SOURCE {
        return ErrSys;
      }
      if h !in sources {
        return ErrNotFound;
      }
      ghost var m, before, after := Model(), Records(), NextRecords(Model(), Op.UpdatePap(h, pap));
      var data := pap[..|pap| % 0x10000];
      ApplySizedPap(sources[h], data, before, after);
      assert after == before[h := after[h]];
      UpdateFinishes(m, Model(), h, after[h]);
      return Ok;
    }

    method UpdateUniversePriority(h: Handle, priority: byte) returns (result: Status)
      requires Valid()
      modifies Repr
      ensures Valid() && Repr == old(Repr)
      ensures result == Outcome(old(Model()), Op.UpdateUniversePriority(h, priority))
      ensures Model() == Step(old(Model()), Op.UpdateUniversePriority(h, priority))
    {
      if h == INVALID_SOURCE {
        return ErrSys;
      }
      if h !in sources {
        return ErrNotFound;
      }
      ghost var m, before, after := Model(), Records(), NextRecords(Model(), Op.UpdateUniversePriority(h, priority));
      assert sources[h].Record() == before[h];
      if priority != sources[h].universePriority || sources[h].universePriorityUninitialized {
        ApplyUniversePriority(sources[h], priority, before, after);
      } else {
        RepeatedUniversePriorityChangesNothing(before[h], config.slotCount);
        assert after == before;
        UnchangedRecordsElectTheSame(before, config.slotCount, Slots());
      }
      assert after == before[h := after[h]];
      UpdateFinishes(m, Model(), h, after[h]);
      return Ok;
    }

    /** Turn PAP off. */
    method DeactivatePap(source: SourceState, ghost before: Records)
      requires Tracks(source, before)
      modifies source`usingUniversePriority
      ensures Tracks(source, before[source.handle := before[source.handle].(usingUniversePriority := true)])
    {
      assert source.Record() == before[source.handle];
      source.usingUniversePriority := true;
    }

    /** Turn PAP off and refill the source from its universe priority. */
    method RevertToUniversePriority(source: SourceState, ghost before: Records, ghost after: Records)
      requires Tracks(source, before) && RecordsOk(after, config.slotCount)
      requires after == before[source.handle := WithoutPap(before[source.handle])]
      modifies source`usingUniversePriority, source`addressPriority, source`papCount
      ensures Tracks(source, after)
    {
      assert source.Record() == before[source.handle];
      var pap := if source.universePriority == 0 then 1 else source.universePriority;
      DeactivatePap(source, before);
      ghost var flagged := before[source.handle := before[source.handle].(usingUniversePriority := true)];
      assert after == flagged[source.handle :=
        flagged[source.handle].(addressPriority := Filled(pap, config.slotCount), papCount := config.slotCount)];
      StoreConvertedPap(source, pap, flagged, after);
    }

    method ApplyPapRemoval(source: SourceState, ghost before: Records, ghost after: Records)
      requires Ready(source, before) && RecordsOk(after, config.slotCount)
      requires after == before[source.handle := WithoutPap(before[source.handle])]
      modifies source, levels, priorities, owners
      ensures Records() == after && Slots() == Election(after, config.slotCount, old(Slots()))
    {
      RevertToUniversePriority(source, before, after);
      MergeStoredPriority(source, before, after);
    }

    method RemovePapOf(source: SourceState, ghost before: Records, ghost after: Records)
      requires Ready(source, before) && RecordsOk(after, config.slotCount)
      requires after == before[source.handle := WithoutPap(before[source.handle])]
      modifies source, `papActive, levels, priorities, owners
      ensures Records() == after && Slots() == Election(after, config.slotCount, old(Slots()))
      ensures papActive ==
        if config.tracksPapActive && old(!source.usingUniversePriority) then PapActiveIn(after) else old(papActive)
    {
      var papWasActive := !source.usingUniversePriority;
      ApplyPapRemoval(source, before, after);
      if config.tracksPapActive && papWasActive {
        RecalculatePapActive(after);
      }
    }

    method RemovePap(h: Handle) returns (result: Status)
      requires Valid()
      modifies Repr
      ensures Valid() && Repr == old(Repr)
      ensures result == Outcome(old(Model()), Op.RemovePap(h))
      ensures Model() == Step(old(Model()), Op.RemovePap(h))
    {
      if h == INVALID_SOURCE {
        return ErrSys;
      }
      if h !in sources {
        return ErrNotFound;
      }
      ghost var m, before, after := Model(), Records(), NextRecords(Model(), Op.RemovePap(h));
      assert sources[h].Record() == before[h];
      RemovePapOf(sources[h], before, after);
      assert after == before[h := after[h]];
      UpdateFinishes(m, Model(), h, after[h]);
      return Ok;
    }

    /** File a new source; it takes part in no slot yet. */
    method InsertSource(h: Handle, ghost before: Records)
      requires Filed() && Records() == before && h !in sources
      modifies `sources, `Repr
      ensures Filed() && fresh(Repr - old(Repr)) && old(Repr) <= Repr
      ensures Records() == before[h := FreshRecord(config.slotCount)]
    {
      var source := new SourceState(h, config.slotCount);
      sources := sources[h := source];
      Repr := Repr + {source};
    }

    method AddSource(h: Handle) returns (result: Status)
      requires Valid()
      modifies Repr
      ensures Valid() && fresh(Repr - old(Repr)) && old(Repr) <= Repr
      ensures result == Outcome(old(Model()), Op.AddSource(h))
      ensures Model() == Step(old(Model()), Op.AddSource(h))
    {
      if h == INVALID_SOURCE {
        return ErrSys;
      }
      ghost var m, before := Model(), Records();
      assert |before| == |sources| by {
        assert before.Keys == sources.Keys;
        assert |before.Keys| == |before| && |sources.Keys| == |sources|;
      }
      if config.sourceCountMax != 0 && |sources| >= config.sourceCountMax {
        return ErrNoMem;
      }
      if h in sources {
        return ErrSys;
      }
      InsertSource(h, before);
      AdditionElectsTheSame(before, config.slotCount, h, m.slots);
      AggregatesAfterAddition(before, h, config.slotCount, universePriority);
      PatchedIsRemerged(m, Model(), before[h := FreshRecord(config.slotCount)]);
      return Ok;
    }

    method Silence(source: SourceState, ghost before: Records, ghost silenced: Records)
      requires Tracks(source, before) && Sized(silenced, config.slotCount)
      requires silenced == before[source.handle := Silenced(before[source.handle])]
      modifies source`addressPriority
      ensures Tracks(source, silenced)
    {
      assert source.Record() == before[source.handle];
      source.addressPriority := Filled(0, config.slotCount);
      OnlyWrote(source);
    }

    /** Silence the source and merge it out of every slot. */
    method MergeOut(source: SourceState, ghost before: Records, ghost silenced: Records)
      requires Ready(source, before)
      requires silenced == before[source.handle := Silenced(before[source.handle])]
      modifies source`addressPriority, levels, priorities, owners
      ensures Tracks(source, silenced)
      ensures Slots() == Election(before - {source.handle}, config.slotCount, old(Slots()))
    {
      RemovalElects(before, config.slotCount, source.handle, Slots());
      Silence(source, before, silenced);
      MergeNewPriorities(source, 0, config.slotCount, silenced);
    }

    /** Withdraw the source's share of the PAP-active output. */
    method WithdrawPapActive(source: SourceState, ghost before: Records) returns (ghost withdrawn: Records)
      requires Tracks(source, before) && config.tracksPapActive && papActive == PapActiveIn(before)
      modifies source`usingUniversePriority, `papActive
      ensures Tracks(source, withdrawn) && withdrawn - {source.handle} == before - {source.handle}
      ensures papActive == PapActiveIn(before - {source.handle})
      ensures forall u :: IsMaxUniversePriority(before, u) ==> IsMaxUniversePriority(withdrawn, u)
    {
      assert source.Record() == before[source.handle];
      ghost var deactivated := before[source.handle := before[source.handle].(usingUniversePriority := true)];
      PapWithdrawal(before, source.handle);
      if papActive && !source.usingUniversePriority {
        DeactivatePap(source, before);
        RecalculatePapActive(deactivated);
        withdrawn := deactivated;
      } else {
        withdrawn := before;
      }
    }

    method ZeroUniversePriority(source: SourceState, ghost before: Records)
      requires Tracks(source, before)
      modifies source`universePriority
      ensures Tracks(source, before[source.handle := before[source.handle].(universePriority := 0)])
    {
      assert source.Record() == before[source.handle];
      source.universePriority := 0;
    }

    /** Withdraw the source's share of the universe priority output. */
    method WithdrawUniversePriority(source: SourceState, ghost before: Records) returns (ghost withdrawn: Records)
      requires Tracks(source, before) && config.tracksUniversePriority
      requires IsMaxUniversePriority(before, universePriority)
      modifies source`universePriority, `universePriority
      ensures Tracks(source, withdrawn) && withdrawn - {source.handle} == before - {source.handle}
      ensures IsMaxUniversePriority(before - {source.handle}, universePriority)
    {
      assert source.Record() == before[source.handle];
      withdrawn := before;
      ghost var r := before[source.handle].(universePriority := 0);
      if source.universePriority >= universePriority {
        ZeroUniversePriority(source, before);
        withdrawn := before[source.handle := r];
        RecalculateUniversePriority(withdrawn);
      }
      AggregatesAfterRemoval(before, source.handle, r, universePriority);
    }

    method WithdrawAggregates(source: SourceState, ghost before: Records) returns (ghost withdrawn: Records)
      requires Tracks(source, before)
      requires config.tracksPapActive ==> papActive == PapActiveIn(before)
      requires config.tracksUniversePriority ==> IsMaxUniversePriority(before, universePriority)
      modifies source`usingUniversePriority, source`universePriority, `papActive, `universePriority
      ensures Tracks(source, withdrawn) && withdrawn - {source.handle} == before - {source.handle}
      ensures if config.tracksPapActive then papActive == PapActiveIn(before - {source.handle})
              else papActive == old(papActive)
      ensures if config.tracksUniversePriority then IsMaxUniversePriority(before - {source.handle}, universePriority)
              else universePriority == old(universePriority)
    {
      withdrawn := before;
      if config.tracksPapActive {
        withdrawn := WithdrawPapActive(source, withdrawn);
      }
      if config.tracksUniversePriority {
        withdrawn := WithdrawUniversePriority(source, withdrawn);
      }
    }

    /** Drop the source from the tree. */
    method DeleteSource(source: SourceState, ghost records: Records)
      requires Tracks(source, records)
      modifies `sources
      ensures Filed() && Records() == records - {source.handle}
    {
      sources := sources - {source.handle};
    }

    /** Withdraw the source from the aggregates, then drop it. */
    method WithdrawAndDelete(source: SourceState, ghost before: Records)
      requires Tracks(source, before)
      requires config.tracksPapActive ==> papActive == PapActiveIn(before)
      requires config.tracksUniversePriority ==> IsMaxUniversePriority(before, universePriority)
      modifies source`usingUniversePriority, source`universePriority, `sources, `papActive, `universePriority
      ensures Filed() && Records() == before - {source.handle}
      ensures if config.tracksPapActive then papActive == PapActiveIn(Records()) else papActive == old(papActive)
      ensures if config.tracksUniversePriority then IsMaxUniversePriority(Records(), universePriority)
              else universePriority == old(universePriority)
    {
      ghost var withdrawn := WithdrawAggregates(source, before);
      DeleteSource(source, withdrawn);
    }

    method ApplyRemoval(source: SourceState, ghost before: Records)
      requires Ready(source, before)
      requires config.tracksPapActive ==> papActive == PapActiveIn(before)
      requires config.tracksUniversePriority ==> IsMaxUniversePriority(before, universePriority)
      modifies source, `sources, `papActive, `universePriority, levels, priorities, owners
      ensures Filed() && Records() == before - {source.handle}
      ensures Sized(Records(), config.slotCount) && Slots() == Election(Records(), config.slotCount, old(Slots()))
      ensures if config.tracksPapActive then papActive == PapActiveIn(Records()) else papActive == old(papActive)
      ensures if config.tracksUniversePriority then IsMaxUniversePriority(Records(), universePriority)
              else universePriority == old(universePriority)
    {
      ghost var silenced := before[source.handle := Silenced(before[source.handle])];
      SilencingKeepsAggregates(before, source.handle, universePriority);
      MergeOut(source, before, silenced);
      WithdrawAndDelete(source, silenced);
    }

    method RemoveSource(h: Handle) returns (result: Status)
      requires Valid()
      modifies Repr
      ensures Valid() && Repr == old(Repr)
      ensures result == Outcome(old(Model()), Op.RemoveSource(h))
      ensures Model() == Step(old(Model()), Op.RemoveSource(h))
    {
      if h == INVALID_SOURCE {
        return ErrSys;
      }
      if h !in sources {
        return ErrInvalid;
      }
      ghost var m, before := Model(), Records();
      ApplyRemoval(sources[h], before);
      PatchedIsRemerged(m, Model(), before - {h});
      return Ok;
    }

    /** Any of the operations, as a caller picks them. */
    method Perform(op: Op) returns (result: Status)
      requires Valid()
      modifies Repr
      ensures Valid() && fresh(Repr - old(Repr)) && old(Repr) <= Repr
      ensures result == Outcome(old(Model()), op) && Model() == Step(old(Model()), op)
    {
      match op
      case AddSource(h) => result := AddSource(h);
      case RemoveSource(h) => result := RemoveSource(h);
      case UpdateLevels(h, newLevels) => result := UpdateLevels(h, newLevels);
      case UpdatePap(h, pap) => result := UpdatePap(h, pap);
      case UpdateUniversePriority(h, priority) => result := UpdateUniversePriority(h, priority);
      case RemovePap(h) => result := RemovePap(h);
    }
  }
}
