/** The lists that one tick sorts a receiver's sources into. */
module StatusLists {
  import opened Common
  import opened SourceTracking

  datatype OfflineSource = OfflineSource(handle: Handle, terminated: bool)

  datatype Lists = Lists(offline: seq<OfflineSource>, online: seq<Handle>, unknown: seq<Handle>, toErase: seq<Handle>)

  const EMPTY := Lists([], [], [], [])

  function Listed(l: Lists, h: Handle, status: SourceTracking.Status): Lists {
    match status
    case Offline(terminated) => l.(offline := l.offline + [OfflineSource(h, terminated)])
    case Online => l.(online := l.online + [h])
    case Unknown => l.(unknown := l.unknown + [h])
    case Erased => l.(toErase := l.toErase + [h])
    case StillWaiting => l
  }

  function Handles(offline: seq<OfflineSource>): seq<Handle> {
    seq(|offline|, i requires 0 <= i < |offline| => offline[i].handle)
  }

  /** Exactly the sources below `bound` with a status, each once, in handle order. */
  ghost predicate Enumerates(list: seq<Handle>, sources: map<Handle, Source>, now: nat, bound: int,
          has: SourceTracking.Status -> bool) {
    && (forall i, j | 0 <= i < j < |list| :: list[i] < list[j])
    && (forall h: Handle :: h in list <==> h in sources && h < bound && has(Classify(sources[h], now)))
  }

  const IS_OFFLINE: SourceTracking.Status -> bool := (s: SourceTracking.Status) => s.Offline?
  const IS_ONLINE: SourceTracking.Status -> bool := (s: SourceTracking.Status) => s.Online?
  const IS_UNKNOWN: SourceTracking.Status -> bool := (s: SourceTracking.Status) => s.Unknown?
  const IS_ERASED: SourceTracking.Status -> bool := (s: SourceTracking.Status) => s.Erased?

  ghost predicate Sorted(l: Lists, sources: map<Handle, Source>, now: nat, bound: int) {
    && Enumerates(Handles(l.offline), sources, now, bound, IS_OFFLINE)
    && Enumerates(l.online, sources, now, bound, IS_ONLINE)
    && Enumerates(l.unknown, sources, now, bound, IS_UNKNOWN)
    && Enumerates(l.toErase, sources, now, bound, IS_ERASED)
    && forall x | x in l.offline :: x.handle in sources && Classify(sources[x.handle], now) == Offline(x.terminated)
  }

  lemma EnumeratesOneMore(list: seq<Handle>, sources: map<Handle, Source>, now: nat, bound: int, h: Handle,
          has: SourceTracking.Status -> bool)
    requires Enumerates(list, sources, now, bound, has) && IsNext(sources.Keys, bound, Some(h))
    ensures Enumerates(if has(Classify(sources[h], now)) then list + [h] else list, sources, now, h + 1, has)
  {
    var longer := if has(Classify(sources[h], now)) then list + [h] else list;
    forall i | 0 <= i < |list| ensures list[i] < h {
      assert list[i] in list;
    }
    forall k: Handle ensures k in longer <==> k in sources && k < h + 1 && has(Classify(sources[k], now)) {
      assert k in longer <==> k in list || (k == h && has(Classify(sources[h], now)));
      assert k in sources && bound <= k <= h ==> k == h;
    }
  }

  /** Checking the next source keeps every list exact. */
  lemma SortedOneMore(l: Lists, sources: map<Handle, Source>, now: nat, bound: int, h: Handle)
    requires Sorted(l, sources, now, bound) && IsNext(sources.Keys, bound, Some(h))
    ensures Sorted(Listed(l, h, Classify(sources[h], now)), sources, now, h + 1)
  {
    var status := Classify(sources[h], now);
    var longer := Listed(l, h, status);
    EnumeratesOneMore(Handles(l.offline), sources, now, bound, h, IS_OFFLINE);
    EnumeratesOneMore(l.online, sources, now, bound, h, IS_ONLINE);
    EnumeratesOneMore(l.unknown, sources, now, bound, h, IS_UNKNOWN);
    EnumeratesOneMore(l.toErase, sources, now, bound, h, IS_ERASED);
    if status.Offline? {
      assert Handles(longer.offline) == Handles(l.offline) + [h];
    }
  }

  lemma SortedAll(l: Lists, sources: map<Handle, Source>, now: nat, bound: int)
    requires Sorted(l, sources, now, bound) && IsNext(sources.Keys, bound, None)
    ensures Sorted(l, sources, now, 0x10000)
  {
  }

  lemma {:induction false} EnumeratedCount(list: seq<Handle>, members: set<Handle>)
    requires forall i, j | 0 <= i < j < |list| :: list[i] < list[j]
    requires forall h: Handle :: h in list <==> h in members
    ensures |list| == |members|
  {
    if list == [] {
      assert members == {};
    } else {
      var front, last := list[..|list| - 1], list[|list| - 1];
      assert list == front + [last];
      assert forall h | h in front :: h < last;
      EnumeratedCount(front, members - {last});
      assert members == (members - {last}) + {last};
    }
  }

  function Having(sources: map<Handle, Source>, now: nat, has: SourceTracking.Status -> bool): set<Handle> {
    set h | h in sources && has(Classify(sources[h], now))
  }

  /** Sources that a tick leaves off every list: still waiting for PAP, and heard recently. */
  function Waiting(sources: map<Handle, Source>, now: nat): set<Handle> {
    set h | h in sources && Classify(sources[h], now) == StillWaiting
  }

  lemma CountParts(a: set<Handle>, b: set<Handle>, c: set<Handle>, d: set<Handle>, e: set<Handle>)
    requires a !! b !! c !! d !! e
    ensures |a + b + c + d + e| == |a| + |b| + |c| + |d| + |e|
  {
    assert |a + b| == |a| + |b|;
    assert |a + b + c| == |a + b| + |c|;
    assert |a + b + c + d| == |a + b + c| + |d|;
  }

  lemma StatusesCoverAll(sources: map<Handle, Source>, now: nat)
    ensures var offline, online := Having(sources, now, IS_OFFLINE), Having(sources, now, IS_ONLINE);
      var unknown, erased, waiting := Having(sources, now, IS_UNKNOWN), Having(sources, now, IS_ERASED),
        Waiting(sources, now);
      && offline !! online !! unknown !! erased !! waiting
      && sources.Keys == offline + online + unknown + erased + waiting
  {
    var offline, online := Having(sources, now, IS_OFFLINE), Having(sources, now, IS_ONLINE);
    var unknown, erased, waiting := Having(sources, now, IS_UNKNOWN), Having(sources, now, IS_ERASED),
      Waiting(sources, now);
    forall h | h in sources ensures h in offline + online + unknown + erased + waiting {
      match Classify(sources[h], now) {
        case Offline(_) => assert h in offline;
        case Online => assert h in online;
        case Unknown => assert h in unknown;
        case Erased => assert h in erased;
        case StillWaiting => assert h in waiting;
      }
    }
  }

  lemma ListedExactly(list: seq<Handle>, sources: map<Handle, Source>, now: nat, has: SourceTracking.Status -> bool)
    requires Enumerates(list, sources, now, 0x10000, has)
    ensures |list| == |Having(sources, now, has)|
    ensures forall h: Handle :: h in list <==> h in Having(sources, now, has)
  {
    EnumeratedCount(list, Having(sources, now, has));
  }

  /** Every tracked source is on exactly one list or still waiting; none is dropped or listed twice. */
  lemma EverySourceIsListedOnce(l: Lists, sources: map<Handle, Source>, now: nat)
    requires Sorted(l, sources, now, 0x10000)
    ensures |l.offline| + |l.online| + |l.unknown| + |l.toErase| + |Waiting(sources, now)| == |sources|
    ensures forall h: Handle :: h in sources <==>
      h in Handles(l.offline) || h in l.online || h in l.unknown || h in l.toErase || h in Waiting(sources, now)
  {
    ListedExactly(Handles(l.offline), sources, now, IS_OFFLINE);
    ListedExactly(l.online, sources, now, IS_ONLINE);
    ListedExactly(l.unknown, sources, now, IS_UNKNOWN);
    ListedExactly(l.toErase, sources, now, IS_ERASED);
    StatusesCoverAll(sources, now);
    CountParts(Having(sources, now, IS_OFFLINE), Having(sources, now, IS_ONLINE), Having(sources, now, IS_UNKNOWN),
               Having(sources, now, IS_ERASED), Waiting(sources, now));
    assert |sources| == |sources.Keys|;
  }

  /** The online list holds exactly the sources past the PAP wait, not expired, that sent DMX since their last tick. */
  lemma OnlineExactly(l: Lists, sources: map<Handle, Source>, now: nat, h: Handle)
    requires Sorted(l, sources, now, 0x10000) && h in sources
    ensures h in l.online <==>
      sources[h].state != WaitingForPap && !Expired(sources[h].packetTimer, now) && sources[h].dmxSinceLastTick
    ensures h in Handles(l.offline) <==> sources[h].state != WaitingForPap && Expired(sources[h].packetTimer, now)
    ensures h in l.toErase <==> sources[h].state == WaitingForPap && Expired(sources[h].packetTimer, now)
  {
  }
}
