/**
 What each slot of a merger comes to, told from nothing but what was sent: the last levels of every source, its last
 universe priority, and its PAP while that is in force. Nothing stored takes part.
 */
module SentData {
  import opened Common
  import opened MergeSpec
  import opened MergerModel
  import opened StoredPriorities
  import Runs

  /** What was sent for a source since it was added; its universe priority is 0 until one is sent. */
  datatype History = History(levels: seq<byte>, universe: byte, last: Sent)

  const NEWCOMER := History([], 0, Nothing)

  /** Levels that do not fit are ignored; counts are 16-bit values. */
  function HistoryAfter(t: History, op: Op, n: nat): History {
    match op
    case AddSource(_) => NEWCOMER
    case RemoveSource(_) => NEWCOMER
    case UpdateLevels(_, levels) => if |levels| % 65536 <= n then t.(levels := levels[..|levels| % 65536]) else t
    case UpdatePap(_, _) => t.(last := SentAfter(t.last, op, n))
    case UpdateUniversePriority(_, u) => t.(universe := u, last := SentAfter(t.last, op, n))
    case RemovePap(_) => t.(last := SentAfter(t.last, op, n))
  }

  ghost function NextHistory(m: Merger, op: Op, h: Handle, sofar: History): History {
    if op.source == h && Outcome(m, op) == Ok then HistoryAfter(sofar, op, m.config.slotCount) else sofar
  }

  ghost function HistoryOf(m: Merger, ops: seq<Op>, h: Handle, sofar: History): History
    requires WellFormed(m)
    decreases |ops|
  {
    if ops == [] then sofar else HistoryOf(Step(m, ops[0]), ops[1..], h, NextHistory(m, ops[0], h, sofar))
  }

  /** The priority a source has in a slot; a universe priority of 0 counts as 1. */
  function SentPriority(t: History, slot: nat): byte {
    if slot >= |t.levels| then 0
    else match t.last
      case Nothing => 0
      case UniversePriority => if t.universe == 0 then 1 else t.universe
      case Pap(values) => if slot < |values| then values[slot] else 0
  }

  ghost predicate RecordsHistory(m: Merger, h: Handle, t: History) {
    && WellFormed(m)
    && (h in m.records ==>
          var r, n := m.records[h], m.config.slotCount;
          && r.levelCount == |t.levels| && r.levels == Padded(t.levels, n)
          && r.universePriority == t.universe && Stores(r, t.last, n))
  }

  lemma StepRecordsHistory(m: Merger, op: Op, h: Handle, t: History)
    requires RecordsHistory(m, h, t)
    ensures RecordsHistory(Step(m, op), h, NextHistory(m, op, h, t))
  {
    StepStoresSent(m, op, h, t.last);
  }

  lemma {:induction false} RunRecordsHistory(m: Merger, ops: seq<Op>, h: Handle, sofar: History)
    requires RecordsHistory(m, h, sofar)
    ensures RecordsHistory(Run(m, ops), h, HistoryOf(m, ops, h, sofar))
    decreases |ops|
  {
    if ops != [] {
      StepRecordsHistory(m, ops[0], h, sofar);
      RunRecordsHistory(Step(m, ops[0]), ops[1..], h, NextHistory(m, ops[0], h, sofar));
    }
  }

  ghost function Sends(config: Config, ops: seq<Op>, h: Handle): History {
    HistoryOf(Initial(config), ops, h, NEWCOMER)
  }

  lemma SentPriorityIsEffective(config: Config, ops: seq<Op>, h: Handle, slot: nat)
    requires slot < config.slotCount && h in Run(Initial(config), ops).records
    ensures var r, t := Run(Initial(config), ops).records[h], Sends(config, ops, h);
      && |r.levels| == |r.addressPriority| == config.slotCount
      && EffectivePriority(r, slot) == SentPriority(t, slot)
      && (slot < |t.levels| ==> r.levels[slot] == t.levels[slot])
  {
    RunRecordsHistory(Initial(config), ops, h, NEWCOMER);
  }

  /**
   After any history, in every slot: no source was sent a higher priority than the one that wins, none at that priority
   a higher level, and the owner was sent exactly what the slot shows; nobody owns it exactly when no source has a
   priority there.
   */
  lemma WhatWasSentDecides(config: Config, ops: seq<Op>, slot: nat)
    requires slot < config.slotCount
    ensures var m := Run(Initial(config), ops);
      var o := m.slots[slot];
      && (forall h | h in m.records :: SentPriority(Sends(config, ops, h), slot) <= o.bid.priority)
      && (forall h | h in m.records && SentPriority(Sends(config, ops, h), slot) == o.bid.priority > 0 ::
            slot < |Sends(config, ops, h).levels| && Sends(config, ops, h).levels[slot] <= o.bid.level)
      && (o.bid.priority == 0 ==> o == SlotOutput(Bid(0, 0), 0xFFFF))
      && (o.bid.priority > 0 ==>
            && o.owner in m.records
            && SentPriority(Sends(config, ops, o.owner), slot) == o.bid.priority
            && slot < |Sends(config, ops, o.owner).levels|
            && Sends(config, ops, o.owner).levels[slot] == o.bid.level)
  {
    EveryHistoryIsMergedFromScratch(config, ops, slot);
    var m := Run(Initial(config), ops);
    forall h | h in m.records
      ensures EffectivePriority(m.records[h], slot) == SentPriority(Sends(config, ops, h), slot)
      ensures slot < |Sends(config, ops, h).levels| ==> m.records[h].levels[slot] == Sends(config, ops, h).levels[slot]
    {
      SentPriorityIsEffective(config, ops, h, slot);
    }
  }

  /**
   Where only universe priorities count, the largest wins, 0 counting as 1; so a source at universe priority 0 has the
   slot only if no other source there has more than 1.
   */
  lemma UniversePriorityZeroCountsAsOne(config: Config, ops: seq<Op>, slot: nat)
    requires slot < config.slotCount
    requires forall h | h in Run(Initial(config), ops).records && slot < |Sends(config, ops, h).levels| ::
      Sends(config, ops, h).last.UniversePriority?
    ensures var m := Run(Initial(config), ops);
      var o := m.slots[slot];
      && (forall h | h in m.records && slot < |Sends(config, ops, h).levels| ::
            o.bid.priority >= 1 && o.bid.priority >= Sends(config, ops, h).universe)
      && (o.owner == 0xFFFF <==> forall h | h in m.records :: slot >= |Sends(config, ops, h).levels|)
      && (o.owner != 0xFFFF ==>
            && o.owner in m.records
            && o.bid.priority == (if Sends(config, ops, o.owner).universe == 0 then 1
                                  else Sends(config, ops, o.owner).universe))
      && (o.owner != 0xFFFF && Sends(config, ops, o.owner).universe == 0 ==>
            forall h | h in m.records && slot < |Sends(config, ops, h).levels| :: Sends(config, ops, h).universe <= 1)
  {
    WhatWasSentDecides(config, ops, slot);
    var m := Run(Initial(config), ops);
    forall h | h in m.records && slot < |Sends(config, ops, h).levels|
      ensures SentPriority(Sends(config, ops, h), slot)
           == if Sends(config, ops, h).universe == 0 then 1 else Sends(config, ops, h).universe
    {
    }
  }

  /**
   After any history, PAP is active exactly when some source's PAP is in force, and the universe priority output is the
   largest that was sent for a source that is still there, 0 without sources.
   */
  lemma WhatWasSentDecidesAggregates(config: Config, ops: seq<Op>)
    ensures var m := Run(Initial(config), ops);
      && (config.tracksPapActive ==>
            (m.papActive <==> exists h :: h in m.records && Sends(config, ops, h).last.Pap?))
      && (config.tracksUniversePriority ==>
            && (forall h | h in m.records :: Sends(config, ops, h).universe <= m.universePriority)
            && (m.universePriority > 0 ==>
                  exists h :: h in m.records && Sends(config, ops, h).universe == m.universePriority))
  {
    var m := Run(Initial(config), ops);
    RunKeepsConsistent(Initial(config), ops);
    forall h | h in m.records
      ensures m.records[h].universePriority == Sends(config, ops, h).universe
      ensures m.records[h].usingUniversePriority <==> !Sends(config, ops, h).last.Pap?
    {
      RunRecordsHistory(Initial(config), ops, h, NEWCOMER);
    }
    if config.tracksUniversePriority && m.universePriority > 0 {
      var h :| h in m.records && m.records[h].universePriority == m.universePriority;
      assert Sends(config, ops, h).universe == m.universePriority;
    }
  }

  // ---- Who is there, and what an operation returns ----

  ghost function Steps(): (Merger, Op) -> Merger {
    (m: Merger, op: Op) => if WellFormed(m) then Step(m, op) else m
  }

  ghost function WellFormedOnes(): Merger -> bool {
    (m: Merger) => WellFormed(m)
  }

  ghost function IsThere(h: Handle): Merger -> bool {
    (m: Merger) => h in m.records
  }

  /** The source is added while there is room, if there is a limit. */
  ghost function Adds(h: Handle): (Merger, Op) -> bool {
    (m: Merger, op: Op) =>
      op == AddSource(h) && (m.config.sourceCountMax == 0 || |m.records| < m.config.sourceCountMax)
  }

  ghost function LeavesIn(h: Handle): (Merger, Op) -> bool {
    (m: Merger, op: Op) => op != RemoveSource(h)
  }

  /** A source was added while there was room, and not removed since. */
  ghost predicate AddedSince(config: Config, ops: seq<Op>, k: nat, h: Handle)
    requires k <= |ops|
  {
    Runs.HasHeldSince(Steps(), Initial(config), ops, Adds(h), LeavesIn(h), k)
  }

  lemma ThereIffAdded(config: Config, ops: seq<Op>, k: nat, h: Handle)
    requires k <= |ops| && h != 0xFFFF
    ensures WellFormed(Runs.StateAt(Steps(), Initial(config), ops, k))
    ensures h in Runs.StateAt(Steps(), Initial(config), ops, k).records <==> AddedSince(config, ops, k, h)
  {
    forall m: Merger, op: Op | WellFormed(m)
      ensures WellFormed(Steps()(m, op))
      ensures h in Steps()(m, op).records <==> LeavesIn(h)(m, op) && (h in m.records || Adds(h)(m, op))
    {
    }
    Runs.LatchedMeansHeldSince(Steps(), Initial(config), ops, WellFormedOnes(), IsThere(h), Adds(h), LeavesIn(h), k);
  }

  /**
   The invalid handle is always refused; adding needs room first, and then that the source is not there yet; everything
   else needs the source, and tells removing from updating when it is not there.
   */
  function StatusBy(op: Op, full: bool, there: bool): Status {
    if op.source == 0xFFFF then ErrSys
    else if op.AddSource? then (if full then ErrNoMem else if there then ErrSys else Ok)
    else if there then Ok
    else if op.RemoveSource? then ErrInvalid
    else ErrNotFound
  }

  /**
   What operation `k` of any history returns is told by the operations before it and the number of sources, and an
   operation that is refused changes nothing.
   */
  lemma StatusTellsHistory(config: Config, ops: seq<Op>, k: nat)
    requires k < |ops|
    ensures var m := Runs.StateAt(Steps(), Initial(config), ops, k);
      && WellFormed(m)
      && Outcome(m, ops[k]) == StatusBy(ops[k], config.sourceCountMax != 0 && |m.records| >= config.sourceCountMax,
                                        AddedSince(config, ops, k, ops[k].source))
      && (Outcome(m, ops[k]) != Ok ==> Step(m, ops[k]) == m)
  {
    SameConfig(config, ops, k);
    if ops[k].source != 0xFFFF {
      ThereIffAdded(config, ops, k, ops[k].source);
    } else {
      ThereIffAdded(config, ops, k, 0);
    }
  }

  lemma {:induction false} SameConfig(config: Config, ops: seq<Op>, k: nat)
    requires k <= |ops|
    ensures Runs.StateAt(Steps(), Initial(config), ops, k).config == config
  {
    if k > 0 {
      SameConfig(config, ops, k - 1);
    }
  }
}
