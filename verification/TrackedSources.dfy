/** Which sources a receiver tracks, and when it announces that it cannot track more, told from its events. */
module TrackedSources {
  import opened Common
  import opened Interfaces
  import opened SourceTracking
  import opened ReceiverModel
  import Runs

  ghost function Steps(): (Receiver, Event) -> Receiver {
    (rx: Receiver, e: Event) => Step(rx, e).0
  }

  ghost function Anything(): Receiver -> bool {
    (rx: Receiver) => true
  }

  /** A packet that would make its source tracked: not the last one of a stream, and with DMX or PAP. */
  predicate Applies(rx: Receiver, e: Event) {
    && e.Data? && e.handle !in rx.sources && !e.packet.terminated
    && (e.packet.startCode == 0x00 || e.packet.startCode == 0xDD)
    && !(e.from in rx.sampling.netints && rx.sampling.netints[e.from])
  }

  predicate Full(rx: Receiver) {
    rx.settings.sourceCountMax != 0 && |rx.sources| >= rx.settings.sourceCountMax
  }

  // ---- Tracked ----

  ghost function IsTracked(h: Handle): Receiver -> bool {
    (rx: Receiver) => h in rx.sources
  }

  ghost function Joins(h: Handle): (Receiver, Event) -> bool {
    (rx: Receiver, e: Event) => Applies(rx, e) && e.handle == h && !Full(rx)
  }

  /** The source is not reported lost, not erased while waiting for PAP, and the universe stays. */
  ghost function StaysTracked(h: Handle): (Receiver, Event) -> bool {
    (rx: Receiver, e: Event) =>
      match e
      case Data(_, _, _, _) => true
      case Tick(now, lost) => h !in lost && (h in rx.sources ==> Classify(rx.sources[h], now) != Erased)
      case NetworkReset(_, _, _) => true
      case UniverseChange(_) => false
  }

  lemma TrackedStep(rx: Receiver, e: Event, h: Handle)
    ensures h in Step(rx, e).0.sources <==> StaysTracked(h)(rx, e) && (h in rx.sources || Joins(h)(rx, e))
  {
    match e
    case Data(now, other, from, p) =>
      if other in rx.sources || IsFuture(rx, from) {
        assert h in Step(rx, e).0.sources <==> h in rx.sources;
      } else {
        assert Step(rx, e) == FirstData(rx, now, other, from, p);
        assert h in Step(rx, e).0.sources <==> h in rx.sources || (h == other && Applies(rx, e) && !Full(rx));
      }
    case Tick(now, lost) => assert h in Step(rx, e).0.sources <==> StaysTracked(h)(rx, e) && h in rx.sources;
    case NetworkReset(_, _, _) => assert h in Step(rx, e).0.sources <==> h in rx.sources;
    case UniverseChange(_) => assert h !in Step(rx, e).0.sources;
  }

  /**
   In every run from creation, a source is tracked exactly when it brought DMX or PAP, other than in its last packet and
   on an interface of the next period only, while there was room, and it was neither lost, nor erased, nor left behind
   by a universe change since.
   */
  lemma TrackedIff(settings: Settings, now: nat, listed: seq<Interface>, run: seq<Event>, k: nat, h: Handle)
    requires k <= |run|
    ensures var created := Created(settings, now, listed);
      h in Runs.StateAt(Steps(), created, run, k).sources
      <==> Runs.HasHeldSince(Steps(), created, run, Joins(h), StaysTracked(h), k)
  {
    forall rx: Receiver, e: Event
      ensures h in Step(rx, e).0.sources <==> StaysTracked(h)(rx, e) && (h in rx.sources || Joins(h)(rx, e))
    {
      TrackedStep(rx, e, h);
    }
    assert Runs.Latches(Steps(), Anything(), IsTracked(h), Joins(h), StaysTracked(h));
    Runs.LatchedMeansHeldSince(Steps(), Created(settings, now, listed), run, Anything(), IsTracked(h), Joins(h),
                               StaysTracked(h), k);
  }

  /**
   The first packet of a source is notified exactly when the source becomes tracked with it, it is not filtered as
   preview data, and it brings PAP or comes in a sampling period; no PAP is lost with it.
   */
  lemma FirstPacketIsNotifiedIff(rx: Receiver, e: Event)
    requires e.Data? && e.handle !in rx.sources
    ensures var report := Step(rx, e).1;
      && !report.papLost && report.notices == []
      && (report.data <==>
            && Joins(e.handle)(rx, e) && !(e.packet.preview && rx.settings.filterPreview)
            && (e.packet.startCode == 0xDD || rx.sampling.active))
  {
    if !IsFuture(rx, e.from) {
      assert Step(rx, e) == FirstData(rx, e.now, e.handle, e.from, e.packet);
      assert Full(rx) <==> !HasRoom(rx);
    }
  }

  // ---- Turned away ----

  ghost function IsSuppressed(): Receiver -> bool {
    (rx: Receiver) => rx.suppressed
  }

  ghost function TurnsAway(): (Receiver, Event) -> bool {
    (rx: Receiver, e: Event) => Applies(rx, e) && Full(rx)
  }

  /** No source is reported lost, and the universe stays. */
  ghost function KeepsQuiet(): (Receiver, Event) -> bool {
    (rx: Receiver, e: Event) => !e.UniverseChange? && (e.Tick? ==> e.lost == [])
  }

  lemma QuietStep(rx: Receiver, e: Event)
    ensures Step(rx, e).0.suppressed <==> KeepsQuiet()(rx, e) && (rx.suppressed || TurnsAway()(rx, e))
    ensures Step(rx, e).1.limitExceeded <==> TurnsAway()(rx, e) && !rx.suppressed
  {
    match e
    case Data(now, h, from, p) =>
      if h in rx.sources || IsFuture(rx, from) {
        assert Step(rx, e).0.suppressed == rx.suppressed && !Step(rx, e).1.limitExceeded;
      } else {
        assert Step(rx, e) == FirstData(rx, now, h, from, p);
        assert Full(rx) <==> !HasRoom(rx);
      }
    case Tick(_, _) =>
    case NetworkReset(_, _, _) =>
    case UniverseChange(_) =>
  }

  /**
   In every run from creation, the limit is announced with a packet exactly when the packet's source is turned away and
   none was since sources were last reported lost or the universe changed: so the first one always is.
   */
  lemma LimitAnnouncedIff(settings: Settings, now: nat, listed: seq<Interface>, run: seq<Event>, k: nat)
    requires k < |run|
    ensures var created := Created(settings, now, listed);
      var rx := Runs.StateAt(Steps(), created, run, k);
      Step(rx, run[k]).1.limitExceeded <==>
        TurnsAway()(rx, run[k]) && !Runs.HasHeldSince(Steps(), created, run, TurnsAway(), KeepsQuiet(), k)
  {
    var created := Created(settings, now, listed);
    forall rx: Receiver, e: Event
      ensures Step(rx, e).0.suppressed <==> KeepsQuiet()(rx, e) && (rx.suppressed || TurnsAway()(rx, e))
    {
      QuietStep(rx, e);
    }
    assert Runs.Latches(Steps(), Anything(), IsSuppressed(), TurnsAway(), KeepsQuiet());
    Runs.LatchedMeansHeldSince(Steps(), created, run, Anything(), IsSuppressed(), TurnsAway(), KeepsQuiet(), k);
    QuietStep(Runs.StateAt(Steps(), created, run, k), run[k]);
  }
}
