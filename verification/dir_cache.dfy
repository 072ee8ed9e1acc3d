/**
 * The disk analyser's `directory_cache`: a Python dict from scanned path to
 * its results, which remembers insertion order, together with
 * `manage_cache`, which drops the ten oldest entries once there are more
 * than fifty.
 */
module DirCache {
  import opened Base

  /** `MAX_CACHE_SIZE`. */
  const MaxEntries: nat := 50
  /** How many of the oldest entries one trim removes. */
  const TrimCount: nat := 10

  /** An insertion-ordered map: `keys` in insertion order, `values` the contents. */
  datatype Cache<V> = Cache(keys: seq<string>, values: map<string, V>)

  /** The keys are distinct and are exactly the keys of the contents. */
  ghost predicate Valid<V>(c: Cache<V>)
  {
    && (forall i, j :: 0 <= i < j < |c.keys| ==> c.keys[i] != c.keys[j])
    && (forall k :: k in c.values <==> k in c.keys)
  }

  /** `len(directory_cache)`. */
  function Size<V>(c: Cache<V>): nat
  {
    |c.keys|
  }

  /** `{}`. */
  function Empty<V>(): (c: Cache<V>)
    ensures Valid(c) && Size(c) == 0
    ensures forall k :: k !in c.values
  {
    Cache([], map[])
  }

  /** `directory_cache.get(path)`. */
  function Lookup<V>(c: Cache<V>, k: string): (r: Option<V>)
    ensures r.Some? <==> k in c.values
    ensures r.Some? ==> r.value == c.values[k]
  {
    if k in c.values then Some(c.values[k]) else None
  }

  /** Every key's entry in `c` equals its entry in `d`. */
  ghost predicate SameEntries<V>(c: Cache<V>, d: Cache<V>, ks: seq<string>)
  {
    forall i :: 0 <= i < |ks| ==> ks[i] in c.values && ks[i] in d.values && c.values[ks[i]] == d.values[ks[i]]
  }

  /**
   * `directory_cache[k] = v`: a new key goes to the end of the order, an
   * existing key keeps its place and only its value changes.
   */
  function Put<V>(c: Cache<V>, k: string, v: V): (d: Cache<V>)
    requires Valid(c)
    ensures Valid(d)
    ensures Lookup(d, k) == Some(v)
    ensures k in c.keys ==> d.keys == c.keys
    ensures k !in c.keys ==> d.keys == c.keys + [k]
    ensures forall j :: j in c.values && j != k ==> j in d.values && d.values[j] == c.values[j]
  {
    if k in c.values then Cache(c.keys, c.values[k := v])
    else Cache(c.keys + [k], c.values[k := v])
  }

  /** `ks` without the key `k`, the others in their order. */
  function Without(ks: seq<string>, k: string): (r: seq<string>)
    ensures forall j :: j in r <==> j in ks && j != k
    ensures Distinct(ks) ==> Distinct(r)
    ensures Distinct(ks) && k in ks ==> |r| + 1 == |ks|
    ensures k !in ks ==> r == ks
  {
    if |ks| == 0 then []
    else if ks[0] == k then Without(ks[1..], k)
    else
      var t := Without(ks[1..], k);
      assert Distinct(ks) ==> Distinct(ks[1..]) && ks[0] !in ks[1..];
      [ks[0]] + t
  }

  /** `del directory_cache[k]`; the code only deletes after checking `k in directory_cache`. */
  function Remove<V>(c: Cache<V>, k: string): (d: Cache<V>)
    requires Valid(c)
    ensures Valid(d)
    ensures k !in d.values
    ensures forall j :: j in c.values && j != k ==> j in d.values && d.values[j] == c.values[j]
    ensures forall j :: j in d.values ==> j in c.values
    ensures k in c.values ==> Size(d) + 1 == Size(c)
    ensures k !in c.values ==> d == c
  {
    if k !in c.values then c
    else Cache(Without(c.keys, k), c.values - {k})
  }

  /** `directory_cache.clear()`. */
  function Clear<V>(c: Cache<V>): (d: Cache<V>)
    ensures Valid(d) && Size(d) == 0
    ensures forall k :: Lookup(d, k).None?
  {
    Empty()
  }

  /**
   * `manage_cache`: when there are more than fifty entries, the ten oldest
   * keys are removed; the others keep their values and their order.
   */
  function Trim<V>(c: Cache<V>): (d: Cache<V>)
    requires Valid(c)
    ensures Valid(d)
    ensures Size(c) <= MaxEntries ==> d == c
    ensures Size(c) > MaxEntries ==>
      && d.keys == c.keys[TrimCount..]
      && (forall i :: 0 <= i < TrimCount ==> c.keys[i] !in d.values)
      && SameEntries(c, d, d.keys)
  {
    if |c.keys| <= MaxEntries then c
    else
      var ks := c.keys[TrimCount..];
      assert forall i :: 0 <= i < |ks| ==> ks[i] == c.keys[i + TrimCount];
      Cache(ks, map k | k in ks :: c.values[k])
  }

  /** Scan completion (main.py): store the results under the path, then trim. */
  function Store<V>(c: Cache<V>, k: string, v: V): (d: Cache<V>)
    requires Valid(c)
    ensures Valid(d)
  {
    Trim(Put(c, k, v))
  }

  /** A cache kept by `Store` never holds more than fifty entries. */
  lemma StoreKeepsBound<V>(c: Cache<V>, k: string, v: V)
    requires Valid(c) && Size(c) <= MaxEntries
    ensures Size(Store(c, k, v)) <= MaxEntries
  {
  }

  /** The key just stored survives the trim, with its new value. */
  lemma StoreKeepsNewest<V>(c: Cache<V>, k: string, v: V)
    requires Valid(c) && Size(c) <= MaxEntries
    ensures Lookup(Store(c, k, v), k) == Some(v)
  {
    var p := Put(c, k, v);
    if Size(p) > MaxEntries {
      assert p.keys[|p.keys| - 1] == k;
      assert Store(c, k, v).keys[|p.keys| - 1 - TrimCount] == k;
    }
  }

  /** Storing keys from a sequence one after another. */
  function StoreAll<V>(c: Cache<V>, ks: seq<string>, v: V): (d: Cache<V>)
    requires Valid(c)
    ensures Valid(d)
    decreases |ks|
  {
    if |ks| == 0 then c else StoreAll(Store(c, ks[0], v), ks[1..], v)
  }

  /** No two entries of `ks` are equal. */
  ghost predicate Distinct(ks: seq<string>)
  {
    forall i, j :: 0 <= i < j < |ks| ==> ks[i] != ks[j]
  }

  /** While the total stays within fifty, storing new keys only appends them. */
  lemma {:induction false} StoreAllAppends<V>(c: Cache<V>, ks: seq<string>, v: V)
    requires Valid(c) && Distinct(c.keys + ks)
    requires Size(c) + |ks| <= MaxEntries
    ensures StoreAll(c, ks, v).keys == c.keys + ks
    decreases |ks|
  {
    if |ks| == 0 {
      assert c.keys + ks == c.keys;
    } else {
      assert (c.keys + ks)[|c.keys|] == ks[0];
      assert ks[0] !in c.keys by {
        forall i | 0 <= i < |c.keys| ensures c.keys[i] != ks[0] {
          assert (c.keys + ks)[i] == c.keys[i];
        }
      }
      var d := Store(c, ks[0], v);
      assert d.keys == c.keys + [ks[0]];
      assert d.keys + ks[1..] == c.keys + ks;
      StoreAllAppends(d, ks[1..], v);
    }
  }

  /** Storing a new key into a full cache appends it and drops the ten oldest keys. */
  lemma StoreIntoFull<V>(c: Cache<V>, k: string, v: V)
    requires Valid(c) && Size(c) == MaxEntries && k !in c.keys
    ensures Store(c, k, v).keys == c.keys[TrimCount..] + [k]
  {
    assert (c.keys + [k])[TrimCount..] == c.keys[TrimCount..] + [k];
  }

  /** Sub-sequences of distinct keys are distinct, and disjoint when they do not overlap. */
  lemma DistinctParts(ks: seq<string>, a: nat, b: nat)
    requires Distinct(ks) && a <= b <= |ks|
    ensures Distinct(ks[..a] + ks[a..b]) && Distinct(ks[a..b] + ks[b..])
    ensures forall i :: 0 <= i < a ==> ks[i] !in ks[a..]
  {
    assert ks[..a] + ks[a..b] == ks[..b];
    assert forall i :: 0 <= i < |ks[a..b] + ks[b..]| ==> (ks[a..b] + ks[b..])[i] == ks[a + i];
  }

  /** Fifty-one distinct paths stored into an empty cache: the last store trims the ten oldest. */
  lemma FiftyOneStores<V>(ks: seq<string>, v: V)
    requires |ks| == MaxEntries + 1 && Distinct(ks)
    ensures StoreAll(Empty(), ks, v).keys == ks[TrimCount..]
  {
    var e: Cache<V> := Empty();
    var n := MaxEntries;
    DistinctParts(ks, 0, n);
    assert e.keys + ks[..n] == ks[..n];
    StoreAllAppends(e, ks[..n], v);
    var full := StoreAll(e, ks[..n], v);
    assert ks[n] !in ks[..n];
    StoreIntoFull(full, ks[n], v);
    LastRegroup(ks, TrimCount);
    assert StoreAll(full, [ks[n]], v) == Store(full, ks[n], v);
    StoreAllSplit(e, ks[..n], [ks[n]], v);
  }

  /** Splitting off the last key of a non-empty sequence. */
  lemma LastRegroup(ks: seq<string>, a: nat)
    requires a < |ks|
    ensures ks[..|ks| - 1][a..] + [ks[|ks| - 1]] == ks[a..]
    ensures ks[..|ks| - 1] + [ks[|ks| - 1]] == ks
    ensures [ks[|ks| - 1]][1..] == []
  {
  }

  /**
   * Fifty-five distinct paths stored into an empty cache leave forty-five
   * entries: the fifty-first store trims the ten oldest, so the first ten
   * paths are gone and the others remain in order.
   */
  lemma FiftyFiveStores<V>(ks: seq<string>, v: V)
    requires |ks| == 55 && Distinct(ks)
    ensures StoreAll(Empty(), ks, v).keys == ks[10..]
    ensures Size(StoreAll(Empty(), ks, v)) == 45
    ensures forall i :: 0 <= i < 10 ==> Lookup(StoreAll(Empty(), ks, v), ks[i]).None?
  {
    var e: Cache<V> := Empty();
    DistinctParts(ks, 10, 51);
    DistinctParts(ks, 51, 51);
    FiftyOneStores(ks[..51], v);
    var trimmed := StoreAll(e, ks[..51], v);
    assert trimmed.keys == ks[10..51];
    StoreAllAppends(trimmed, ks[51..], v);
    StoreAllSplit(e, ks[..51], ks[51..], v);
    SliceJoin(ks, 0, 51);
    SliceJoin(ks, 10, 51);
    assert ks[0..51] == ks[..51] && ks[0..] == ks;
    DistinctParts(ks, 10, 10);
  }

  /** Two adjacent slices make up the slice that spans both. */
  lemma SliceJoin(ks: seq<string>, a: nat, b: nat)
    requires a <= b <= |ks|
    ensures ks[a..b] + ks[b..] == ks[a..]
  {
  }

  /** Storing two runs of keys is storing the first, then the second. */
  lemma {:induction false} StoreAllSplit<V>(c: Cache<V>, a: seq<string>, b: seq<string>, v: V)
    requires Valid(c)
    ensures StoreAll(c, a + b, v) == StoreAll(StoreAll(c, a, v), b, v)
    decreases |a|
  {
    if |a| == 0 {
      assert a + b == b;
    } else {
      assert (a + b)[0] == a[0];
      assert (a + b)[1..] == a[1..] + b;
      StoreAllSplit(Store(c, a[0], v), a[1..], b, v);
    }
  }
}
