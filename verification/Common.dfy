/** Vocabulary shared by every component: bytes, handles, status codes and ordered iteration. */
module Common {

  type byte = b: int | 0 <= b < 0x100

  /** A 16-bit handle; the all-ones value is reserved for "no source". */
  type Handle = h: int | 0 <= h <= 0xFFFF

  function Min(a: nat, b: nat): nat {
    if a < b then a else b
  }

  const INVALID_SOURCE: Handle := 0xFFFF

  datatype Option<+T> = None | Some(value: T)

  /** The part of the library's error codes that the modelled operations return. */
  datatype Status = Ok | ErrSys | ErrNoMem | ErrNotFound | ErrInvalid | ErrExists | ErrNoNetints

  lemma OnlyKey<V>(m: map<Handle, V>, key: Handle)
    requires |m| == 1 && key in m
    ensures m.Keys == {key}
  {
    var others := m.Keys - {key};
    assert m.Keys == others + {key};
    assert |others| == 0;
  }

  lemma NoMoreKeys<V, W>(small: map<Handle, V>, large: map<Handle, W>)
    requires small.Keys <= large.Keys
    ensures |small| <= |large|
  {
    assert large.Keys == small.Keys + (large.Keys - small.Keys);
    assert |large.Keys| == |small.Keys| + |large.Keys - small.Keys|;
    assert |small| == |small.Keys| && |large| == |large.Keys|;
  }

  lemma FewerKeys<V, W>(small: map<Handle, V>, large: map<Handle, W>, key: Handle)
    requires small.Keys <= large.Keys && key in large && key !in small
    ensures |small| < |large|
  {
    NoMoreKeys(small, large - {key});
    assert large.Keys == (large - {key}).Keys + {key};
    assert |large| == |large.Keys| && |large - {key}| == |(large - {key}).Keys|;
  }

  lemma {:induction false} HasLeast(keys: set<int>, key: int)
    requires key in keys
    ensures exists least :: least in keys && forall k | k in keys :: least <= k
    decreases |keys|
  {
    var rest := keys - {key};
    if other: int :| other in rest {
      HasLeast(rest, other);
      var least :| least in rest && forall k | k in rest :: least <= k;
      var smaller := if key < least then key else least;
      assert forall k | k in keys :: k == key || k in rest;
      assert smaller in keys && forall k | k in keys :: smaller <= k;
    } else {
      assert forall k | k in keys :: k == key || k in rest;
    }
  }

  /** In-order iteration: `r` is the least key at or after `from`. */
  ghost predicate IsNext(keys: set<Handle>, from: int, r: Option<Handle>) {
    && (r.None? ==> forall k | k in keys :: k < from)
    && (r.Some? ==> r.value in keys && r.value >= from)
    && (r.Some? ==> forall k | k in keys && k >= from :: r.value <= k)
  }

  function Next(keys: set<Handle>, from: int): (r: Option<Handle>)
    ensures IsNext(keys, from, r)
  {
    var later := set k | k in keys && k >= from;
    assert forall k | k in keys && k >= from :: k in later;
    if exists k :: k in later then
      assert exists least :: least in later && forall k | k in later :: least <= k by {
        var key: int :| key in later;
        HasLeast(later, key);
      }
      var least :| least in later && forall k | k in later :: least <= k;
      Some(least)
    else
      None
  }

  /** The iterator's step from the element `key`. */
  function After(keys: set<Handle>, key: Handle): (r: Option<Handle>)
    ensures IsNext(keys, key + 1, r)
  {
    var from: int := key;
    Next(keys, from + 1)
  }

  /** How many handle values an iterator standing at `r` can still visit. */
  function Remaining(r: Option<Handle>): nat {
    if r.None? then 0 else
      var key: int := r.value;
      0x10000 - key
  }
}
