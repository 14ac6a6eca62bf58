/**
 The merge of one slot, stated without any history: every source that is sourcing the slot places a
 bid (priority, level), and the highest bid in lexicographic order wins.
 */
module MergeSpec {
  import opened Common

  /** What a merger stores about one source. */
  datatype SourceRecord = SourceRecord(
    levels: seq<byte>,
    levelCount: nat,
    universePriority: byte,
    usingUniversePriority: bool,
    addressPriority: seq<byte>,
    papCount: nat,
    universePriorityUninitialized: bool)

  type Records = map<Handle, SourceRecord>

  datatype Bid = Bid(priority: byte, level: byte)

  /** What a merger outputs for one slot. */
  datatype SlotOutput = SlotOutput(bid: Bid, owner: Handle)

  const NO_BID := Bid(0, 0)
  const UNSOURCED := SlotOutput(NO_BID, INVALID_SOURCE)

  predicate Beats(a: Bid, b: Bid) {
    a.priority > b.priority || (a.priority == b.priority && a.level > b.level)
  }

  function ConvertedPriority(universePriority: byte): byte {
    if universePriority == 0 then 1 else universePriority
  }

  function EffectivePriority(r: SourceRecord, slot: nat): byte
    requires slot < |r.addressPriority|
  {
    if slot < r.levelCount then r.addressPriority[slot] else 0
  }

  function BidOf(r: SourceRecord, slot: nat): Bid
    requires slot < |r.addressPriority| && slot < |r.levels|
  {
    var priority := EffectivePriority(r, slot);
    if priority == 0 then NO_BID else Bid(priority, r.levels[slot])
  }

  function Filled(value: byte, n: nat): (s: seq<byte>)
  {
    seq(n, _ => value)
  }

  function Padded(data: seq<byte>, n: nat): seq<byte>
    requires |data| <= n
  {
    data + Filled(0, n - |data|)
  }

  /** What holds of every record a merger with `n` slots can reach. */
  ghost predicate RecordOk(r: SourceRecord, n: nat) {
    && |r.levels| == n && |r.addressPriority| == n
    && r.levelCount <= n && r.papCount <= n
    && (forall i | r.levelCount <= i < n :: r.levels[i] == 0)
    && (forall i | r.papCount <= i < n :: r.addressPriority[i] == 0)
    && (r.universePriorityUninitialized ==> r.universePriority == 0)
    && (r.usingUniversePriority && !r.universePriorityUninitialized ==>
          r.papCount == n && r.addressPriority == Filled(ConvertedPriority(r.universePriority), n))
  }

  /** Every source has a valid handle and buffers of `n` slots. */
  ghost predicate Sized(records: Records, n: nat) {
    && INVALID_SOURCE !in records
    && forall h | h in records :: |records[h].levels| == n && |records[h].addressPriority| == n
  }

  ghost predicate RecordsOk(records: Records, n: nat) {
    Sized(records, n) && forall h | h in records :: RecordOk(records[h], n)
  }

  /** `o` is a right output for the slot: the best bid, owned by a source that placed it. */
  ghost predicate Winner(records: Records, n: nat, slot: nat, o: SlotOutput)
    requires Sized(records, n) && slot < n
  {
    && (forall h | h in records :: !Beats(BidOf(records[h], slot), o.bid))
    && (if o.bid.priority == 0 then o == UNSOURCED
        else o.owner in records && BidOf(records[o.owner], slot) == o.bid)
  }

  /** The owner only moves to a source that beats both the incumbent and every lower handle. */
  ghost predicate MovesOnlyIfBeaten(records: Records, n: nat, slot: nat, incumbent: Handle, o: SlotOutput)
    requires Sized(records, n) && slot < n
  {
    o.owner != incumbent && o.owner != INVALID_SOURCE ==>
      forall h | h in records && (h < o.owner || h == incumbent) :: Beats(o.bid, BidOf(records[h], slot))
  }

  /** The outcome of one merger operation on a slot that `incumbent` owned before it. */
  ghost predicate Succeeds(records: Records, n: nat, slot: nat, incumbent: Handle, o: SlotOutput)
    requires Sized(records, n) && slot < n
  {
    Winner(records, n, slot, o) && MovesOnlyIfBeaten(records, n, slot, incumbent, o)
  }

  /** The output is right for every source but `h`, whose stored priority has not been merged yet. */
  ghost predicate AwaitsPriority(records: Records, n: nat, h: Handle, slot: nat, o: SlotOutput)
    requires Sized(records, n) && slot < n
  {
    && h in records
    && (forall k | k in records && k != h :: !Beats(BidOf(records[k], slot), o.bid))
    && (if o.bid.priority == 0 then o == UNSOURCED
        else o.owner == h || (o.owner in records && BidOf(records[o.owner], slot) == o.bid))
    && (o.owner == h && EffectivePriority(records[h], slot) > 0 ==> records[h].levels[slot] == o.bid.level)
  }

  /** The output is right for every source but `h`, whose stored level has not been merged yet. */
  ghost predicate AwaitsLevel(records: Records, n: nat, h: Handle, slot: nat, o: SlotOutput)
    requires Sized(records, n) && slot < n
  {
    && h in records
    && (forall k | k in records && k != h :: !Beats(BidOf(records[k], slot), o.bid))
    && (if o.bid.priority == 0 then o == UNSOURCED
        else o.owner == h || (o.owner in records && BidOf(records[o.owner], slot) == o.bid))
    && EffectivePriority(records[h], slot) <= o.bid.priority
    && (o.owner == h ==> EffectivePriority(records[h], slot) == o.bid.priority)
  }

  /** Nobody outbids `priority`, and sources that do not take part in the slot hold level 0 there. */
  ghost predicate OnlyLevelsDecide(records: Records, n: nat, slot: nat, priority: byte)
    requires Sized(records, n) && slot < n
  {
    forall k | k in records ::
      && EffectivePriority(records[k], slot) <= priority
      && (records[k].levelCount <= slot ==> records[k].levels[slot] == 0)
  }

  ghost predicate OnlyLevelsDecideBelow(records: Records, n: nat, end: nat, slots: seq<SlotOutput>)
    requires Sized(records, n) && |slots| == n
  {
    end <= n && forall i | 0 <= i < end :: OnlyLevelsDecide(records, n, i, slots[i].bid.priority)
  }

  /** The argmax of a scan over `h` and the sources below `bound`, started at the incumbent `h`. */
  ghost predicate Leads(records: Records, n: nat, slot: nat, h: Handle, bound: int, o: SlotOutput)
    requires Sized(records, n) && slot < n
  {
    && (forall k | k in records && (k < bound || k == h) :: !Beats(BidOf(records[k], slot), o.bid))
    && (if o.bid.priority == 0 then o == UNSOURCED
        else o.owner in records && BidOf(records[o.owner], slot) == o.bid)
    && (o.owner != h && o.owner != INVALID_SOURCE ==>
          forall k | k in records && (k < o.owner || k == h) :: Beats(o.bid, BidOf(records[k], slot)))
  }

  /** The leader after the candidate `c` has been compared with it. */
  ghost function Challenged(records: Records, n: nat, slot: nat, h: Handle, c: Handle, o: SlotOutput): SlotOutput
    requires Sized(records, n) && slot < n && c in records
  {
    var bid := BidOf(records[c], slot);
    if c != h && Beats(bid, o.bid) then SlotOutput(bid, c) else o
  }

  /** The leader after every source from `candidate` on, in handle order, has been compared with it. */
  ghost function Scanned(records: Records, n: nat, slot: nat, h: Handle, candidate: Option<Handle>, o: SlotOutput)
    : SlotOutput
    requires Sized(records, n) && slot < n && (candidate.Some? ==> candidate.value in records)
    decreases Remaining(candidate)
  {
    if candidate.None? then o else
      Scanned(records, n, slot, h, After(records.Keys, candidate.value),
              Challenged(records, n, slot, h, candidate.value, o))
  }

  ghost function ScannedFromStart(records: Records, n: nat, slot: nat, h: Handle, o: SlotOutput): SlotOutput
    requires Sized(records, n) && slot < n
  {
    Scanned(records, n, slot, h, Next(records.Keys, 0), o)
  }

  lemma {:induction false} ScanKeepsLeading(
      records: Records, n: nat, slot: nat, h: Handle, candidate: Option<Handle>, bound: int, o: SlotOutput)
    requires Sized(records, n) && slot < n && h in records
    requires IsNext(records.Keys, bound, candidate) && Leads(records, n, slot, h, bound, o)
    ensures Succeeds(records, n, slot, h, Scanned(records, n, slot, h, candidate, o))
    decreases Remaining(candidate)
  {
    if candidate.Some? {
      var c := candidate.value;
      var led := Challenged(records, n, slot, h, c, o);
      assert Leads(records, n, slot, h, c + 1, led);
      ScanKeepsLeading(records, n, slot, h, After(records.Keys, c), c + 1, led);
    }
  }

  /** A scan started at the falling incumbent `h` ends at what a from-scratch merge elects. */
  lemma ScanFindsTheSuccessor(records: Records, n: nat, slot: nat, h: Handle, o: SlotOutput)
    requires Sized(records, n) && slot < n && h in records && Leads(records, n, slot, h, 0, o)
    ensures Succeeds(records, n, slot, h, ScannedFromStart(records, n, slot, h, o))
  {
    ScanKeepsLeading(records, n, slot, h, Next(records.Keys, 0), 0, o);
  }

  /** What merging the new priority of source `h` into one slot does. */
  ghost function PriorityMerged(records: Records, n: nat, h: Handle, slot: nat, o: SlotOutput): SlotOutput
    requires Sized(records, n) && slot < n && h in records
  {
    var pap, level := EffectivePriority(records[h], slot), records[h].levels[slot];
    if pap > o.bid.priority then SlotOutput(Bid(pap, level), h)
    else if h != o.owner then
      if pap > 0 && pap == o.bid.priority && level > o.bid.level then SlotOutput(Bid(pap, level), h) else o
    else if pap < o.bid.priority then
      ScannedFromStart(records, n, slot, h, if pap == 0 then UNSOURCED else SlotOutput(Bid(pap, o.bid.level), h))
    else o
  }

  /** What merging the new level of source `h` into one slot does. */
  ghost function LevelMerged(records: Records, n: nat, h: Handle, slot: nat, o: SlotOutput): SlotOutput
    requires Sized(records, n) && slot < n && h in records
  {
    var pap, level := EffectivePriority(records[h], slot), records[h].levels[slot];
    if pap == 0 || pap != o.bid.priority then o
    else if level > o.bid.level then SlotOutput(Bid(pap, level), h)
    else if h == o.owner && level < o.bid.level then
      ScannedFromStart(records, n, slot, h, SlotOutput(Bid(pap, level), h))
    else o
  }

  /** Merging the new priorities of source `h` into the slots from `start` up to `end`. */
  ghost function PrioritiesMerged(records: Records, n: nat, h: Handle, start: nat, end: nat, slots: seq<SlotOutput>)
    : (merged: seq<SlotOutput>)
    requires Sized(records, n) && h in records && |slots| == n
    ensures |merged| == n
  {
    seq(n, i requires 0 <= i < n =>
      if start <= i < end then PriorityMerged(records, n, h, i, slots[i]) else slots[i])
  }

  /** Merging the new levels of source `h` into the slots below `end`. */
  ghost function LevelsMerged(records: Records, n: nat, h: Handle, end: nat, slots: seq<SlotOutput>)
    : (merged: seq<SlotOutput>)
    requires Sized(records, n) && h in records && |slots| == n
    ensures |merged| == n
  {
    seq(n, i requires 0 <= i < n => if i < end then LevelMerged(records, n, h, i, slots[i]) else slots[i])
  }

  lemma PriorityMergedSucceeds(records: Records, n: nat, h: Handle, slot: nat, o: SlotOutput)
    requires Sized(records, n) && slot < n && AwaitsPriority(records, n, h, slot, o)
    ensures Succeeds(records, n, slot, o.owner, PriorityMerged(records, n, h, slot, o))
  {
    var pap := EffectivePriority(records[h], slot);
    if pap < o.bid.priority && h == o.owner {
      ScanFindsTheSuccessor(records, n, slot, h, if pap == 0 then UNSOURCED else SlotOutput(Bid(pap, o.bid.level), h));
    }
  }

  lemma LevelMergedSucceeds(records: Records, n: nat, h: Handle, slot: nat, o: SlotOutput)
    requires Sized(records, n) && slot < n && AwaitsLevel(records, n, h, slot, o)
    ensures Succeeds(records, n, slot, o.owner, LevelMerged(records, n, h, slot, o))
  {
    var pap, level := EffectivePriority(records[h], slot), records[h].levels[slot];
    if 0 < pap == o.bid.priority && h == o.owner && level < o.bid.level {
      ScanFindsTheSuccessor(records, n, slot, h, SlotOutput(Bid(pap, level), h));
    }
  }

  // ---- The reference merge, computed from scratch by looking at every source ----

  /** The first best bid among the sources in `keys`, in handle order. */
  ghost function BestOf(records: Records, n: nat, slot: nat, keys: set<Handle>): SlotOutput
    requires Sized(records, n) && slot < n && keys <= records.Keys
    decreases |keys|
  {
    if keys == {} then UNSOURCED else
      var first := Next(keys, 0).value;
      var bid := BidOf(records[first], slot);
      var rest := BestOf(records, n, slot, keys - {first});
      if bid.priority > 0 && !Beats(rest.bid, bid) then SlotOutput(bid, first) else rest
  }

  /** From-scratch merge of one slot; the incumbent keeps a slot whose best bid it still holds. */
  ghost function Elect(records: Records, n: nat, slot: nat, incumbent: Handle): SlotOutput
    requires Sized(records, n) && slot < n
  {
    var best := BestOf(records, n, slot, records.Keys);
    if best != UNSOURCED && incumbent in records && BidOf(records[incumbent], slot) == best.bid
    then SlotOutput(best.bid, incumbent)
    else best
  }

  lemma {:induction false} BestOfIsFirstBest(records: Records, n: nat, slot: nat, keys: set<Handle>)
    requires Sized(records, n) && slot < n && keys <= records.Keys
    ensures var best := BestOf(records, n, slot, keys);
            && (forall h | h in keys :: !Beats(BidOf(records[h], slot), best.bid))
            && (if best.bid.priority == 0 then best == UNSOURCED
                else best.owner in keys && BidOf(records[best.owner], slot) == best.bid)
            && (forall h | h in keys && best.owner != INVALID_SOURCE && h < best.owner ::
                  Beats(best.bid, BidOf(records[h], slot)))
    decreases |keys|
  {
    if keys == {} {
    } else {
      var first := Next(keys, 0).value;
      BestOfIsFirstBest(records, n, slot, keys - {first});
      assert forall h | h in keys :: h == first || h in keys - {first};
    }
  }

  lemma SuccessorIsUnique(records: Records, n: nat, slot: nat, incumbent: Handle, a: SlotOutput, b: SlotOutput)
    requires Sized(records, n) && slot < n
    requires Succeeds(records, n, slot, incumbent, a) && Succeeds(records, n, slot, incumbent, b)
    ensures a == b
  {
    assert a != UNSOURCED ==> !Beats(BidOf(records[a.owner], slot), b.bid);
    assert b != UNSOURCED ==> !Beats(BidOf(records[b.owner], slot), a.bid);
  }

  /** The declarative outcome and the from-scratch computation are the same thing. */
  lemma ElectIsTheSuccessor(records: Records, n: nat, slot: nat, incumbent: Handle, o: SlotOutput)
    requires Sized(records, n) && slot < n
    ensures Succeeds(records, n, slot, incumbent, o) <==> o == Elect(records, n, slot, incumbent)
  {
    BestOfIsFirstBest(records, n, slot, records.Keys);
    var elected := Elect(records, n, slot, incumbent);
    assert Succeeds(records, n, slot, incumbent, elected);
    if Succeeds(records, n, slot, incumbent, o) {
      SuccessorIsUnique(records, n, slot, incumbent, o, elected);
    }
  }

  /** The documented rule: the highest priority wins, then the highest level at that priority. */
  lemma WinnerIsHighestPriorityThenLevel(records: Records, n: nat, slot: nat, o: SlotOutput)
    requires Sized(records, n) && slot < n
    ensures Winner(records, n, slot, o) <==>
      && (forall h | h in records :: EffectivePriority(records[h], slot) <= o.bid.priority)
      && (forall h | h in records && EffectivePriority(records[h], slot) == o.bid.priority > 0 ::
            records[h].levels[slot] <= o.bid.level)
      && (o.bid.priority == 0 ==> o.bid.level == 0 && o.owner == INVALID_SOURCE)
      && (o.bid.priority > 0 ==>
            && o.owner in records
            && EffectivePriority(records[o.owner], slot) == o.bid.priority
            && records[o.owner].levels[slot] == o.bid.level)
  {
    assert forall h | h in records ::
      BidOf(records[h], slot).priority == EffectivePriority(records[h], slot);
  }

  // ---- A merger with a single source ----

  /** The only output a lone source `h` can give. */
  function Lone(r: SourceRecord, slot: nat, h: Handle): SlotOutput
    requires slot < |r.addressPriority| && slot < |r.levels|
  {
    if EffectivePriority(r, slot) == 0 then UNSOURCED else SlotOutput(BidOf(r, slot), h)
  }

  lemma LoneSourceWins(records: Records, n: nat, slot: nat, h: Handle, o: SlotOutput)
    requires Sized(records, n) && slot < n && records.Keys == {h}
    ensures Winner(records, n, slot, o) <==> o == Lone(records[h], slot, h)
  {
    assert h in records && forall k | k in records :: k == h;
  }
}
