/**
 Resetting the network interfaces one universe, or one receiver, at a time: the lists an application
 passes in must cover all of them and nothing more, and each list then goes to one of them.
 */
module NetintLists {
  import opened Common
  import opened Interfaces

  predicate NoDuplicates<K(==)>(keys: seq<K>) {
    forall i, j | 0 <= i < j < |keys| :: keys[i] != keys[j]
  }

  lemma OthersStay<K>(given: seq<K>, i: nat, k: K)
    requires i < |given| && k in given && k != given[i]
    ensures k in given[..i] + given[i + 1..]
  {
    var j :| 0 <= j < |given| && given[j] == k;
    assert (given[..i] + given[i + 1..])[if j < i then j else j - 1] == k;
  }

  /** Finding every wanted key in a list of the same length means that the list is a permutation. */
  lemma {:induction false} Pigeonhole<K>(wanted: seq<K>, given: seq<K>)
    requires NoDuplicates(wanted) && |given| == |wanted| && forall k | k in wanted :: k in given
    ensures multiset(given) == multiset(wanted)
  {
    if wanted != [] {
      var first, rest := wanted[0], wanted[1..];
      assert wanted == [first] + rest && first in wanted;
      var i :| 0 <= i < |given| && given[i] == first;
      var others := given[..i] + given[i + 1..];
      assert given == given[..i] + [first] + given[i + 1..];
      forall k | k in rest ensures k in others {
        assert k in wanted && k != first;
        OthersStay(given, i, k);
      }
      Pigeonhole(rest, others);
    }
  }

  lemma PermutationCovers<K>(wanted: seq<K>, given: seq<K>)
    requires multiset(given) == multiset(wanted)
    ensures |given| == |wanted| && forall k | k in wanted :: k in given
  {
    assert |multiset(given)| == |given| && |multiset(wanted)| == |wanted|;
    assert forall k | k in wanted :: k in multiset(given);
  }

  /** Covering with equal counts, which is all that is checked, is the same as being a permutation. */
  lemma CoversIffPermutation<K>(wanted: seq<K>, given: seq<K>)
    requires NoDuplicates(wanted)
    ensures multiset(given) == multiset(wanted)
      <==> |given| == |wanted| && forall k | k in wanted :: k in given
  {
    if |given| == |wanted| && forall k | k in wanted :: k in given {
      Pigeonhole(wanted, given);
    }
    if multiset(given) == multiset(wanted) {
      PermutationCovers(wanted, given);
    }
  }

  lemma {:induction false} MultiplicityOne<K>(keys: seq<K>, k: K)
    requires NoDuplicates(keys)
    ensures multiset(keys)[k] == if k in keys then 1 else 0
  {
    if keys != [] {
      var front, last := keys[..|keys| - 1], keys[|keys| - 1];
      assert keys == front + [last];
      MultiplicityOne(front, k);
    }
  }

  lemma {:induction false} RepeatedKeyCounts<K>(keys: seq<K>, i: nat, j: nat)
    requires i < j < |keys| && keys[i] == keys[j]
    ensures multiset(keys)[keys[i]] >= 2
  {
    assert keys == keys[..i] + [keys[i]] + keys[i + 1..j] + [keys[j]] + keys[j + 1..];
  }

  /** So no key is given twice either. */
  lemma PermutationHasNoDuplicates<K>(wanted: seq<K>, given: seq<K>)
    requires NoDuplicates(wanted) && multiset(given) == multiset(wanted)
    ensures NoDuplicates(given)
  {
    forall i, j | 0 <= i < j < |given| ensures given[i] != given[j] {
      if given[i] == given[j] {
        RepeatedKeyCounts(given, i, j);
        MultiplicityOne(wanted, given[i]);
      }
    }
  }

  // ---- Sources and their universes ----

  /** One universe of a source; `removing` marks one that is terminating for good. */
  datatype Universe = Universe(id: nat, removing: bool, netints: seq<Netint>)

  datatype Key = Key(handle: Handle, universe: nat)

  datatype UniverseNetintList = UniverseNetintList(key: Key, listed: seq<Interface>, noNetints: bool)

  function Chosen(l: UniverseNetintList): seq<Interface> {
    if l.noNetints then [] else l.listed
  }

  function GivenKeys(lists: seq<UniverseNetintList>): seq<Key> {
    seq(|lists|, i requires 0 <= i < |lists| => lists[i].key)
  }

  /** The universes that take part in a reset, of one source. */
  function KeysOf(handle: Handle, universes: seq<Universe>): seq<Key> {
    if universes == [] then [] else
      var front, last := KeysOf(handle, universes[..|universes| - 1]), universes[|universes| - 1];
      if last.removing then front else front + [Key(handle, last.id)]
  }

  predicate HasList(lists: seq<UniverseNetintList>, key: Key) {
    exists i :: 0 <= i < |lists| && lists[i].key == key
  }

  function IndexOf(lists: seq<UniverseNetintList>, key: Key): (i: nat)
    requires HasList(lists, key)
    ensures i < |lists| && lists[i].key == key && forall j | 0 <= j < i :: lists[j].key != key
  {
    if lists[0].key == key then 0 else
      assert HasList(lists[1..], key) by {
        var i :| 0 <= i < |lists| && lists[i].key == key;
        assert lists[1..][i - 1].key == key;
      }
      IndexOf(lists[1..], key) + 1
  }

  method FindIndex(key: Key, lists: seq<UniverseNetintList>) returns (index: nat, found: bool)
    ensures found == HasList(lists, key)
    ensures index == if HasList(lists, key) then IndexOf(lists, key) else 0
  {
    var i := 0;
    while i < |lists|
      invariant i <= |lists| && forall j | 0 <= j < i :: lists[j].key != key
    {
      if lists[i].key == key {
        return i, true;
      }
      i := i + 1;
    }
    return 0, false;
  }

  /** How many universes use each interface of a source. */
  predicate Entries(netints: map<Netint, nat>) {
    forall n | n in netints :: netints[n] > 0
  }

  ghost predicate Counts(netints: map<Netint, nat>, uses: multiset<Netint>) {
    Entries(netints) && forall n: Netint :: uses[n] == if n in netints then netints[n] else 0
  }

  ghost function Uses(universes: seq<Universe>): multiset<Netint> {
    if universes == [] then multiset{} else
      Uses(universes[..|universes| - 1]) + multiset(universes[|universes| - 1].netints)
  }

  function ResetOne(handle: Handle, u: Universe, lists: seq<UniverseNetintList>): Universe
    requires !u.removing ==> HasList(lists, Key(handle, u.id))
  {
    if u.removing then u else u.(netints := Usable(Chosen(lists[IndexOf(lists, Key(handle, u.id))])))
  }

  ghost predicate Listed(handle: Handle, universes: seq<Universe>, lists: seq<UniverseNetintList>) {
    forall j | 0 <= j < |universes| && !universes[j].removing :: HasList(lists, Key(handle, universes[j].id))
  }

  /** A universe that takes part gets a list with a usable interface, or one that asks for none. */
  predicate GetsUsableList(handle: Handle, u: Universe, lists: seq<UniverseNetintList>)
    requires !u.removing ==> HasList(lists, Key(handle, u.id))
  {
    u.removing ||
    (var l := lists[IndexOf(lists, Key(handle, u.id))]; ResetOutcome(l.listed, l.noNetints) == Ok)
  }

  ghost predicate AllUsable(handle: Handle, universes: seq<Universe>, lists: seq<UniverseNetintList>)
    requires Listed(handle, universes, lists)
  {
    forall j | 0 <= j < |universes| :: GetsUsableList(handle, universes[j], lists)
  }

  /** The first `j` universes have been reset, all of them successfully. */
  ghost predicate ResetUpTo(handle: Handle, before: seq<Universe>, after: seq<Universe>,
          lists: seq<UniverseNetintList>, j: nat)
    requires Listed(handle, before, lists)
  {
    && |after| == |before| && j <= |before|
    && (forall k | 0 <= k < j ::
          after[k] == ResetOne(handle, before[k], lists) && GetsUsableList(handle, before[k], lists))
    && (forall k | j <= k < |before| :: after[k] == before[k])
  }

  lemma UsesOneMore(universes: seq<Universe>, j: nat)
    requires j < |universes|
    ensures Uses(universes[..j + 1]) == Uses(universes[..j]) + multiset(universes[j].netints)
  {
    assert universes[..j + 1][..j] == universes[..j];
  }

  class SacnSource {
    const handle: Handle
    var universes: seq<Universe>
    var netints: map<Netint, nat>

    constructor (handle: Handle, universes: seq<Universe>, netints: map<Netint, nat>)
      ensures this.handle == handle && this.universes == universes && this.netints == netints
    {
      this.handle, this.universes, this.netints := handle, universes, netints;
    }

    method AddNetint(n: Netint, ghost uses: multiset<Netint>)
      requires Counts(netints, uses)
      modifies `netints
      ensures Counts(netints, uses + multiset{n})
    {
      if n in netints {
        netints := netints[n := netints[n] + 1];
      } else {
        netints := netints[n := 1];
      }
    }

    method AddNetints(added: seq<Netint>, ghost uses: multiset<Netint>)
      requires Counts(netints, uses)
      modifies `netints
      ensures Counts(netints, uses + multiset(added))
    {
      for k := 0 to |added|
        invariant Counts(netints, uses + multiset(added[..k]))
      {
        AddNetint(added[k], uses + multiset(added[..k]));
        assert added[..k + 1] == added[..k] + [added[k]];
      }
      assert added[..|added|] == added;
    }

    /** Give one universe its new interfaces. */
    method ResetUniverseNetworking(j: nat, l: UniverseNetintList, ghost uses: multiset<Netint>) returns (result: Status)
      requires j < |universes| && Counts(netints, uses)
      modifies `universes, `netints
      ensures result == ResetOutcome(l.listed, l.noNetints)
      ensures result == Ok ==> universes == old(universes)[j := old(universes)[j].(netints := Usable(Chosen(l)))]
      ensures result == Ok ==> Counts(netints, uses + multiset(universes[j].netints))
    {
      NothingUsable(l.listed);
      if !l.noNetints && !exists i :: 0 <= i < |l.listed| && l.listed[i].usable {
        return ErrNoNetints;
      }
      var used := CollectUsable(Chosen(l));
      universes := universes[j := universes[j].(netints := used)];
      AddNetints(used, uses);
      return Ok;
    }

    /** Keep the interfaces of a universe that is going away, give every other one those of its list. */
    method ResetOneUniverse(j: nat, lists: seq<UniverseNetintList>, ghost uses: multiset<Netint>)
      returns (result: Status)
      requires j < |universes| && Counts(netints, uses)
      requires !universes[j].removing ==> HasList(lists, Key(handle, universes[j].id))
      modifies `universes, `netints
      ensures result == if GetsUsableList(handle, old(universes)[j], lists) then Ok else ErrNoNetints
      ensures result == Ok ==> universes == old(universes)[j := ResetOne(handle, old(universes)[j], lists)]
      ensures result == Ok ==> Counts(netints, uses + multiset(universes[j].netints))
    {
      if universes[j].removing {
        AddNetints(universes[j].netints, uses);
        result := Ok;
      } else {
        var index, _ := FindIndex(Key(handle, universes[j].id), lists);
        result := ResetUniverseNetworking(j, lists[index], uses);
      }
    }

    /** `before` is what the universes were; the first `j` of them have been reset and counted. */
    ghost predicate Progress(before: seq<Universe>, lists: seq<UniverseNetintList>, j: nat)
      requires Listed(handle, before, lists)
      reads this
    {
      ResetUpTo(handle, before, universes, lists, j) && Counts(netints, Uses(universes[..j]))
    }

    method ResetNext(j: nat, lists: seq<UniverseNetintList>, ghost before: seq<Universe>) returns (result: Status)
      requires Listed(handle, before, lists) && Progress(before, lists, j) && j < |universes|
      modifies `universes, `netints
      ensures result == if GetsUsableList(handle, before[j], lists) then Ok else ErrNoNetints
      ensures result == Ok ==> Progress(before, lists, j + 1)
    {
      ghost var sofar := universes[..j];
      assert universes[j] == before[j];
      result := ResetOneUniverse(j, lists, Uses(sofar));
      if result == Ok {
        assert universes[..j] == sofar;
        UsesOneMore(universes, j);
      }
    }

    /** Reset one universe after the other, stopping at the first list that is refused. */
    method ResetAll(lists: seq<UniverseNetintList>) returns (result: Status)
      requires Listed(handle, universes, lists) && Progress(universes, lists, 0)
      modifies `universes, `netints
      ensures result == Ok || (result == ErrNoNetints && !AllUsable(handle, old(universes), lists))
      ensures result == Ok ==> Progress(old(universes), lists, |old(universes)|)
    {
      ghost var before := universes;
      result := Ok;
      var j, count := 0, |universes|;
      while result == Ok && j < count
        invariant j <= count == |before|
        invariant result == Ok ==> Progress(before, lists, j)
        invariant result == Ok || (result == ErrNoNetints && !AllUsable(handle, before, lists))
        decreases count - j
      {
        result := ResetNext(j, lists, before);
        j := j + 1;
      }
    }

    /**
     Afterwards every universe has the interfaces of its own list, and the source counts each interface
     once for every universe that uses it.
     */
    method ResetNetints(lists: seq<UniverseNetintList>) returns (result: Status)
      requires Listed(handle, universes, lists)
      modifies `universes, `netints
      ensures result == if AllUsable(handle, old(universes), lists) then Ok else ErrNoNetints
      ensures result == Ok ==> ResetUpTo(handle, old(universes), universes, lists, |universes|)
      ensures result == Ok ==> Counts(netints, Uses(universes))
    {
      netints := map[];
      result := ResetAll(lists);
      assert universes[..|universes|] == universes;
    }
  }

  // ---- All sources together ----

  datatype SourceView = SourceView(handle: Handle, universes: seq<Universe>)

  function Views(sources: seq<SacnSource>): seq<SourceView>
    reads sources
  {
    seq(|sources|, i requires 0 <= i < |sources| reads sources => SourceView(sources[i].handle, sources[i].universes))
  }

  /** The keys that a reset has to list, source by source. */
  function ExistingKeys(views: seq<SourceView>): seq<Key> {
    if views == [] then [] else
      ExistingKeys(views[..|views| - 1]) + KeysOf(views[|views| - 1].handle, views[|views| - 1].universes)
  }

  /** Handles name sources, and numbers name the universes of one source. */
  ghost predicate WellNamed(views: seq<SourceView>) {
    && (forall i, j | 0 <= i < j < |views| :: views[i].handle != views[j].handle)
    && forall i | 0 <= i < |views| :: DistinctIds(views[i].universes)
  }

  ghost predicate DistinctIds(universes: seq<Universe>) {
    forall i, j | 0 <= i < j < |universes| :: universes[i].id != universes[j].id
  }

  lemma {:induction false} KeysOfExactly(handle: Handle, universes: seq<Universe>, k: Key)
    ensures k in KeysOf(handle, universes) <==>
      k.handle == handle && exists j :: 0 <= j < |universes| && !universes[j].removing && universes[j].id == k.universe
  {
    if universes != [] {
      var front, last := universes[..|universes| - 1], universes[|universes| - 1];
      KeysOfExactly(handle, front, k);
      assert universes == front + [last];
      if j :| 0 <= j < |universes| && !universes[j].removing && universes[j].id == k.universe {
        assert j == |front| || front[j] == universes[j];
      }
    }
  }

  lemma {:induction false} KeysOfDistinct(handle: Handle, universes: seq<Universe>)
    requires DistinctIds(universes)
    ensures NoDuplicates(KeysOf(handle, universes))
  {
    if universes != [] {
      var front, last := universes[..|universes| - 1], universes[|universes| - 1];
      KeysOfDistinct(handle, front);
      KeysOfExactly(handle, front, Key(handle, last.id));
    }
  }

  lemma {:induction false} ExistingExactly(views: seq<SourceView>, k: Key)
    ensures k in ExistingKeys(views)
      <==> exists s :: 0 <= s < |views| && k in KeysOf(views[s].handle, views[s].universes)
  {
    if views != [] {
      var front, last := views[..|views| - 1], views[|views| - 1];
      ExistingExactly(front, k);
      assert views == front + [last];
      if s :| 0 <= s < |views| && k in KeysOf(views[s].handle, views[s].universes) {
        assert s == |front| || front[s] == views[s];
      }
    }
  }

  lemma JoinedDistinct<K>(a: seq<K>, b: seq<K>)
    requires NoDuplicates(a) && NoDuplicates(b) && forall k | k in b :: k !in a
    ensures NoDuplicates(a + b)
  {
    forall i, j | 0 <= i < j < |a + b| ensures (a + b)[i] != (a + b)[j] {
      if i < |a| <= j {
        assert (a + b)[j] in b && (a + b)[i] in a;
      }
    }
  }

  lemma {:induction false} ExistingDistinct(views: seq<SourceView>)
    requires WellNamed(views)
    ensures NoDuplicates(ExistingKeys(views))
  {
    if views != [] {
      var front, last := views[..|views| - 1], views[|views| - 1];
      ExistingDistinct(front);
      KeysOfDistinct(last.handle, last.universes);
      forall k | k in KeysOf(last.handle, last.universes) ensures k !in ExistingKeys(front) {
        KeysOfExactly(last.handle, last.universes, k);
        ExistingExactly(front, k);
        if s :| 0 <= s < |front| && k in KeysOf(front[s].handle, front[s].universes) {
          KeysOfExactly(front[s].handle, front[s].universes, k);
        }
      }
      JoinedDistinct(ExistingKeys(front), KeysOf(last.handle, last.universes));
    }
  }

  lemma ListedIffKeysHaveLists(handle: Handle, universes: seq<Universe>, lists: seq<UniverseNetintList>)
    ensures Listed(handle, universes, lists) <==> forall k | k in KeysOf(handle, universes) :: HasList(lists, k)
  {
    forall k: Key ensures k in KeysOf(handle, universes) <==>
        k.handle == handle && exists j ::
          0 <= j < |universes| && !universes[j].removing && universes[j].id == k.universe {
      KeysOfExactly(handle, universes, k);
    }
    if forall k | k in KeysOf(handle, universes) :: HasList(lists, k) {
      forall j | 0 <= j < |universes| && !universes[j].removing ensures HasList(lists, Key(handle, universes[j].id)) {
        assert Key(handle, universes[j].id) in KeysOf(handle, universes);
      }
    }
  }

  ghost predicate AllListed(views: seq<SourceView>, lists: seq<UniverseNetintList>) {
    forall s | 0 <= s < |views| :: Listed(views[s].handle, views[s].universes, lists)
  }

  /** What the validation looks at: as many lists as universes, and a list for every universe. */
  ghost predicate Covers(views: seq<SourceView>, lists: seq<UniverseNetintList>) {
    |lists| == |ExistingKeys(views)| && AllListed(views, lists)
  }

  lemma GivenExactly(lists: seq<UniverseNetintList>, k: Key)
    ensures k in GivenKeys(lists) <==> HasList(lists, k)
  {
    if i :| 0 <= i < |lists| && lists[i].key == k {
      assert GivenKeys(lists)[i] == k;
    }
  }

  lemma AllListedIffKeysGiven(views: seq<SourceView>, lists: seq<UniverseNetintList>)
    ensures AllListed(views, lists) <==> forall k | k in ExistingKeys(views) :: k in GivenKeys(lists)
  {
    forall k: Key ensures k in GivenKeys(lists) <==> HasList(lists, k) {
      GivenExactly(lists, k);
    }
    forall k: Key ensures k in ExistingKeys(views)
        <==> exists s :: 0 <= s < |views| && k in KeysOf(views[s].handle, views[s].universes) {
      ExistingExactly(views, k);
    }
    forall s | 0 <= s < |views| ensures Listed(views[s].handle, views[s].universes, lists)
        <==> forall k | k in KeysOf(views[s].handle, views[s].universes) :: HasList(lists, k) {
      ListedIffKeysHaveLists(views[s].handle, views[s].universes, lists);
    }
  }

  /** "All universes of all sources, and nothing more": the lists are a permutation of the existing keys. */
  lemma CoversIffListsArePermutation(views: seq<SourceView>, lists: seq<UniverseNetintList>)
    requires WellNamed(views)
    ensures Covers(views, lists) <==> multiset(GivenKeys(lists)) == multiset(ExistingKeys(views))
  {
    ExistingDistinct(views);
    AllListedIffKeysGiven(views, lists);
    CoversIffPermutation(ExistingKeys(views), GivenKeys(lists));
  }

  /** Universe `j` of source `s` takes list `i`. */
  ghost predicate Takes(views: seq<SourceView>, lists: seq<UniverseNetintList>, s: nat, j: nat, i: nat) {
    && s < |views| && j < |views[s].universes| && !views[s].universes[j].removing
    && HasList(lists, Key(views[s].handle, views[s].universes[j].id))
    && IndexOf(lists, Key(views[s].handle, views[s].universes[j].id)) == i
  }

  lemma OriginOfKey(views: seq<SourceView>, k: Key) returns (s: nat, j: nat)
    requires k in ExistingKeys(views)
    ensures s < |views| && j < |views[s].universes| && !views[s].universes[j].removing
    ensures k == Key(views[s].handle, views[s].universes[j].id)
  {
    ExistingExactly(views, k);
    s :| 0 <= s < |views| && k in KeysOf(views[s].handle, views[s].universes);
    KeysOfExactly(views[s].handle, views[s].universes, k);
    j :| 0 <= j < |views[s].universes| && !views[s].universes[j].removing && views[s].universes[j].id == k.universe;
  }

  /** Once accepted, every list goes to a universe ... */
  lemma EveryListIsTaken(views: seq<SourceView>, lists: seq<UniverseNetintList>, i: nat) returns (s: nat, j: nat)
    requires WellNamed(views) && Covers(views, lists) && i < |lists|
    ensures Takes(views, lists, s, j, i)
  {
    var k := lists[i].key;
    CoversIffListsArePermutation(views, lists);
    ExistingDistinct(views);
    PermutationHasNoDuplicates(ExistingKeys(views), GivenKeys(lists));
    assert GivenKeys(lists)[i] == k;
    assert k in multiset(GivenKeys(lists));
    s, j := OriginOfKey(views, k);
    var found := IndexOf(lists, k);
    assert GivenKeys(lists)[found] == k;
  }

  /** ... and to one only. */
  lemma NoListIsTakenTwice(views: seq<SourceView>, lists: seq<UniverseNetintList>, i: nat, s: nat, j: nat, s': nat,
          j': nat)
    requires WellNamed(views) && Takes(views, lists, s, j, i) && Takes(views, lists, s', j', i)
    ensures s == s' && j == j'
  {
    assert views[s].handle == lists[i].key.handle == views[s'].handle;
    assert s == s';
    assert DistinctIds(views[s].universes);
  }

  method ValidateSource(source: SacnSource, lists: seq<UniverseNetintList>) returns (result: Status, count: nat)
    ensures result == if Listed(source.handle, source.universes, lists) then Ok else ErrInvalid
    ensures result == Ok ==> count == |KeysOf(source.handle, source.universes)|
  {
    result, count := Ok, 0;
    var universes, j := source.universes, 0;
    while result == Ok && j < |universes|
      invariant j <= |universes|
      invariant result == Ok ==>
        Listed(source.handle, universes[..j], lists) && count == |KeysOf(source.handle, universes[..j])|
      invariant result != Ok ==> result == ErrInvalid && !Listed(source.handle, universes, lists)
      decreases |universes| - j
    {
      assert universes[..j + 1][..j] == universes[..j];
      if !universes[j].removing {
        count := count + 1;
        var _, found := FindIndex(Key(source.handle, universes[j].id), lists);
        if !found {
          result := ErrInvalid;
        }
      }
      j := j + 1;
    }
    assert universes[..|universes|] == universes;
  }

  method ValidateUniverseLists(sources: seq<SacnSource>, lists: seq<UniverseNetintList>) returns (result: Status)
    ensures result == if lists != [] && Covers(Views(sources), lists) then Ok else ErrInvalid
  {
    if |lists| == 0 {
      return ErrInvalid;
    }
    ghost var views := Views(sources);
    result := Ok;
    var total, i := 0, 0;
    while result == Ok && i < |sources|
      invariant i <= |sources|
      invariant result == Ok ==> AllListed(views[..i], lists) && total == |ExistingKeys(views[..i])|
      invariant result != Ok ==> result == ErrInvalid && !AllListed(views, lists)
      decreases |sources| - i
    {
      assert views[..i + 1][..i] == views[..i];
      assert views[i] == SourceView(sources[i].handle, sources[i].universes);
      var res, count := ValidateSource(sources[i], lists);
      result := res;
      total := total + count;
      i := i + 1;
    }
    assert views[..|views|] == views;
    if result == Ok && |lists| != total {
      result := ErrInvalid;
    }
  }

  ghost predicate SourceWasReset(source: SacnSource, before: SourceView, lists: seq<UniverseNetintList>)
    requires Listed(before.handle, before.universes, lists)
    reads source
  {
    && source.handle == before.handle
    && ResetUpTo(before.handle, before.universes, source.universes, lists, |before.universes|)
    && Counts(source.netints, Uses(source.universes))
  }

  /** Apply accepted lists, source by source, stopping at the first list without a usable interface. */
  method ApplyUniverseLists(sources: seq<SacnSource>, lists: seq<UniverseNetintList>) returns (result: Status)
    requires AllListed(Views(sources), lists)
    requires forall i, j | 0 <= i < j < |sources| :: sources[i].handle != sources[j].handle
    modifies sources
    ensures var before := old(Views(sources));
      result == Ok <==> forall i | 0 <= i < |before| :: AllUsable(before[i].handle, before[i].universes, lists)
    ensures result != Ok ==> result == ErrNoNetints
    ensures result == Ok ==> forall i | 0 <= i < |sources| :: SourceWasReset(sources[i], old(Views(sources))[i], lists)
  {
    ghost var before := Views(sources);
    result := Ok;
    var i := 0;
    while result == Ok && i < |sources|
      invariant i <= |sources|
      invariant result == Ok ==> forall k | 0 <= k < i :: SourceWasReset(sources[k], before[k], lists)
      invariant result == Ok ==> forall k | 0 <= k < i :: AllUsable(before[k].handle, before[k].universes, lists)
      invariant result == Ok ==> forall k | i <= k < |sources| :: sources[k].universes == before[k].universes
      invariant result == Ok || result == ErrNoNetints
      invariant result != Ok ==> exists k ::
        0 <= k < |sources| && !AllUsable(before[k].handle, before[k].universes, lists)
      decreases |sources| - i
    {
      assert Listed(before[i].handle, before[i].universes, lists);
      result := sources[i].ResetNetints(lists);
      i := i + 1;
    }
  }

  /** The whole reset: either the lists are refused and nothing changes, or every universe gets its list. */
  method ResetPerUniverse(sources: seq<SacnSource>, lists: seq<UniverseNetintList>) returns (result: Status)
    requires WellNamed(Views(sources))
    modifies sources
    ensures result == ErrInvalid
      <==> !(lists != [] && multiset(GivenKeys(lists)) == multiset(ExistingKeys(old(Views(sources)))))
    ensures result == ErrInvalid ==> Views(sources) == old(Views(sources))
    ensures var before := old(Views(sources));
      result == Ok
      <==> && lists != [] && multiset(GivenKeys(lists)) == multiset(ExistingKeys(before)) && AllListed(before, lists)
           && forall i | 0 <= i < |before| :: AllUsable(before[i].handle, before[i].universes, lists)
    ensures result == Ok || result == ErrInvalid || result == ErrNoNetints
    ensures result == Ok ==> forall i | 0 <= i < |sources| :: SourceWasReset(sources[i], old(Views(sources))[i], lists)
  {
    CoversIffListsArePermutation(Views(sources), lists);
    result := ValidateUniverseLists(sources, lists);
    if result == Ok {
      forall i, j | 0 <= i < j < |sources| ensures sources[i].handle != sources[j].handle {
        assert Views(sources)[i].handle != Views(sources)[j].handle;
      }
      result := ApplyUniverseLists(sources, lists);
    }
  }

  /**
   What a successful reset leaves: a universe that is going away keeps its interfaces; every other one has exactly the
   usable interfaces of the one list with its key, each once, or none if that list asks for none.
   */
  lemma UniversesHaveTheirLists(before: SourceView, after: seq<Universe>, lists: seq<UniverseNetintList>, j: nat,
          i: nat)
    requires Listed(before.handle, before.universes, lists) && NoDuplicates(GivenKeys(lists))
    requires ResetUpTo(before.handle, before.universes, after, lists, |before.universes|) && j < |after|
    requires !before.universes[j].removing ==>
      i < |lists| && lists[i].key == Key(before.handle, before.universes[j].id)
    ensures after[j].id == before.universes[j].id && after[j].removing == before.universes[j].removing
    ensures before.universes[j].removing ==> after[j].netints == before.universes[j].netints
    ensures !before.universes[j].removing ==>
      && (forall n :: n in after[j].netints <==> !lists[i].noNetints && Interface(n, true) in lists[i].listed)
      && NoDuplicates(after[j].netints)
      && (lists[i].noNetints || exists k :: 0 <= k < |lists[i].listed| && lists[i].listed[k].usable)
  {
    if !before.universes[j].removing {
      var found := IndexOf(lists, lists[i].key);
      assert GivenKeys(lists)[found] == GivenKeys(lists)[i];
      assert found == i;
      UsableExactly(Chosen(lists[i]));
      NothingUsable(lists[i].listed);
      assert GetsUsableList(before.handle, before.universes[j], lists);
    }
  }

  /** The universes that use an interface. */
  function UsersOf(universes: seq<Universe>, n: Netint): set<nat> {
    set j: nat | j < |universes| && n in universes[j].netints
  }

  lemma {:induction false} UsesAreUsers(universes: seq<Universe>, n: Netint)
    requires forall j | 0 <= j < |universes| :: NoDuplicates(universes[j].netints)
    ensures Uses(universes)[n] == |UsersOf(universes, n)|
  {
    if universes != [] {
      var front, last := universes[..|universes| - 1], universes[|universes| - 1];
      assert forall j | 0 <= j < |front| :: front[j] == universes[j];
      UsesAreUsers(front, n);
      MultiplicityOne(last.netints, n);
      assert UsersOf(universes, n) == UsersOf(front, n) + if n in last.netints then {|front|} else {};
    }
  }

  /** And what it counts for each interface of a source is the number of universes that use it. */
  lemma CountsAreUsers(netints: map<Netint, nat>, universes: seq<Universe>, n: Netint)
    requires Counts(netints, Uses(universes))
    requires forall j | 0 <= j < |universes| :: NoDuplicates(universes[j].netints)
    ensures |UsersOf(universes, n)| == if n in netints then netints[n] else 0
    ensures n in netints ==> netints[n] > 0
  {
    UsesAreUsers(universes, n);
  }

  // ---- Receivers ----

  predicate SomeUnlisted(receivers: seq<Handle>, lists: seq<Handle>) {
    exists k :: 0 <= k < |receivers| && receivers[k] !in lists
  }

  lemma UnlistedAt(receivers: seq<Handle>, lists: seq<Handle>, k: nat)
    requires k < |receivers| && receivers[k] !in lists
    ensures SomeUnlisted(receivers, lists)
  {
  }

  /** Look a receiver up in the lists. */
  method IsListed(lists: seq<Handle>, receiver: Handle) returns (found: bool)
    ensures found == (receiver in lists)
  {
    found := false;
    var i := 0;
    while !found && i < |lists|
      invariant i <= |lists|
      invariant if found then receiver in lists else receiver !in lists[..i]
    {
      found := receiver == lists[i];
      i := i + 1;
    }
    assert lists[..|lists|] == lists;
  }

  /** Receivers are visited in handle order. */
  method ValidateReceiverLists(receivers: seq<Handle>, lists: seq<Handle>) returns (result: Status)
    requires forall i, j | 0 <= i < j < |receivers| :: receivers[i] < receivers[j]
    ensures result == if lists != [] && multiset(lists) == multiset(receivers) then Ok else ErrInvalid
  {
    if |lists| == 0 {
      return ErrInvalid;
    }
    CoversIffPermutation(receivers, lists);
    result := Ok;
    var total := 0;
    while result == Ok && total < |receivers|
      invariant total <= |receivers|
      invariant result == Ok ==> forall k | 0 <= k < total :: receivers[k] in lists
      invariant result != Ok ==> result == ErrInvalid && SomeUnlisted(receivers, lists)
      decreases |receivers| - total
    {
      var found := IsListed(lists, receivers[total]);
      if !found {
        UnlistedAt(receivers, lists, total);
        result := ErrInvalid;
      }
      total := total + 1;
    }
    if result == Ok && |lists| != total {
      result := ErrInvalid;
    }
  }
}
