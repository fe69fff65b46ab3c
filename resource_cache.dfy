/** The resource cache: a separately chained string hash map from keys to
    opaque handles, one map each for textures, fonts and sounds. A bucket is
    its chain in order, the first element being the entry stored inline in the
    bucket array. */
module ResourceCache {
  import opened Handles

  /** Capacity used when `hashmap_create` is given one that is not positive. */
  const FALLBACK_CAPACITY: int := 16
  /** Capacity of each of the cache's three maps. */
  const RESOURCE_CACHE_DEFAULT_CAPACITY: int := 1024
  /** `unsigned int` arithmetic wraps at 2^32. */
  const WORD: int := 0x1_0000_0000

  // ---- hashing -----------------------------------------------------------------

  /** A key character's value as an unsigned byte. */
  function ByteOf(c: char): int {
    (c as int) % 256
  }

  /** h = h * 31 + c over the key's characters, in 32-bit unsigned arithmetic. */
  function Poly(key: string): (h: int)
    ensures 0 <= h < WORD
    decreases |key|
  {
    if key == [] then 0 else (Poly(key[..|key| - 1]) * 31 + ByteOf(key[|key| - 1])) % WORD
  }

  /** The bucket a key lives in. */
  function Bucket(key: string, capacity: int): (i: int)
    requires capacity > 0
    ensures 0 <= i < capacity
  {
    Poly(key) % capacity
  }

  /** `hashmap_hash`: folds the key into the polynomial hash, then reduces it
      modulo the capacity, so the result is always a valid bucket index. */
  method Hash(key: string, capacity: int) returns (index: int)
    requires capacity > 0
    ensures index == Bucket(key, capacity) && 0 <= index < capacity
  {
    var hash := 0;
    var i := 0;
    while i < |key|
      invariant 0 <= i <= |key| && hash == Poly(key[..i])
    {
      assert key[..i + 1][..i] == key[..i];
      hash := (hash * 31 + ByteOf(key[i])) % WORD;
      i := i + 1;
    }
    assert key[..i] == key;
    index := hash % capacity;
  }

  // ---- chains ------------------------------------------------------------------

  datatype Entry = Entry(key: string, value: Ptr)

  /** No key occurs twice in a chain. */
  predicate DistinctKeys(chain: seq<Entry>) {
    forall i, j :: 0 <= i < j < |chain| ==> chain[i].key != chain[j].key
  }

  /** Removing a present key shrinks a map by one. */
  lemma CardRemove(m: map<string, Ptr>, k: string)
    requires k in m
    ensures |m - {k}| == |m| - 1
  {
    assert (m - {k}).Keys == m.Keys - {k};
    assert |m.Keys - {k}| == |m.Keys| - 1;
  }

  /** `chain` holds exactly the entries of `m` whose keys hash to bucket
      `index`, each key once. */
  ghost predicate Holds(chain: seq<Entry>, m: map<string, Ptr>, capacity: int, index: int)
    requires capacity > 0
  {
    DistinctKeys(chain) &&
    (forall e :: e in chain ==> Bucket(e.key, capacity) == index && e.key in m && m[e.key] == e.value) &&
    (forall k :: k in m && Bucket(k, capacity) == index ==> Entry(k, m[k]) in chain)
  }

  /** A key that no entry of its bucket carries is not in the map. */
  lemma HoldsMissing(chain: seq<Entry>, m: map<string, Ptr>, capacity: int, k: string)
    requires capacity > 0 && Holds(chain, m, capacity, Bucket(k, capacity))
    requires forall i :: 0 <= i < |chain| ==> chain[i].key != k
    ensures k !in m
  {
    assert forall e :: e in chain ==> e.key != k;
  }

  /** Overwriting the value of entry `j` in place records the new value. */
  lemma HoldsReplace(chain: seq<Entry>, m: map<string, Ptr>, capacity: int, index: int, j: int, v: Ptr)
    requires capacity > 0 && Holds(chain, m, capacity, index) && 0 <= j < |chain|
    ensures Holds(chain[j := Entry(chain[j].key, v)], m[chain[j].key := v], capacity, index)
  {
    var k := chain[j].key;
    var r := chain[j := Entry(k, v)];
    var m' := m[k := v];
    forall e | e in r
      ensures Bucket(e.key, capacity) == index && e.key in m' && m'[e.key] == e.value
    {
      var i :| 0 <= i < |r| && r[i] == e;
      if i != j {
        assert e == chain[i] && chain[i].key != chain[j].key;
      } else {
        assert chain[j] in chain;
      }
    }
    forall k' | k' in m' && Bucket(k', capacity) == index
      ensures Entry(k', m'[k']) in r
    {
      if k' != k {
        var i :| 0 <= i < |chain| && chain[i] == Entry(k', m[k']);
        assert r[i] == chain[i];
      } else {
        assert r[j] == Entry(k, v);
      }
    }
  }

  /** Appending an entry for a key that hashes here and is absent records it. */
  lemma HoldsAppend(chain: seq<Entry>, m: map<string, Ptr>, capacity: int, k: string, v: Ptr)
    requires capacity > 0 && Holds(chain, m, capacity, Bucket(k, capacity))
    requires forall i :: 0 <= i < |chain| ==> chain[i].key != k
    ensures k !in m && Holds(chain + [Entry(k, v)], m[k := v], capacity, Bucket(k, capacity))
  {
    HoldsMissing(chain, m, capacity, k);
    var r := chain + [Entry(k, v)];
    assert forall e :: e in r ==> e in chain || e == Entry(k, v);
    assert forall e :: e in chain ==> e in r;
    assert r[|chain|] == Entry(k, v);
  }

  /** Unlinking entry `j` removes its key and keeps the others in order. */
  lemma HoldsUnlink(chain: seq<Entry>, m: map<string, Ptr>, capacity: int, index: int, j: int)
    requires capacity > 0 && Holds(chain, m, capacity, index) && 0 <= j < |chain|
    ensures chain[j].key in m
    ensures Holds(chain[..j] + chain[j + 1..], m - {chain[j].key}, capacity, index)
  {
    assert chain[j] in chain;
    UnlinkEntries(chain, m, capacity, index, j);
    UnlinkKeys(chain, m, capacity, index, j);
  }

  /** What stays after unlinking entry `j` is still distinct and recorded. */
  lemma UnlinkEntries(chain: seq<Entry>, m: map<string, Ptr>, capacity: int, index: int, j: int)
    requires capacity > 0 && Holds(chain, m, capacity, index) && 0 <= j < |chain|
    ensures DistinctKeys(chain[..j] + chain[j + 1..])
    ensures forall e :: e in chain[..j] + chain[j + 1..] ==>
      Bucket(e.key, capacity) == index && e.key in m - {chain[j].key} && m[e.key] == e.value
  {
    var rest := chain[..j] + chain[j + 1..];
    assert forall i :: 0 <= i < |rest| ==> rest[i] == if i < j then chain[i] else chain[i + 1];
    forall e | e in rest
      ensures e in chain && e.key != chain[j].key
    {
      var i :| 0 <= i < |rest| && rest[i] == e;
      if i < j {
        assert chain[i].key != chain[j].key;
      } else {
        assert chain[j].key != chain[i + 1].key;
      }
    }
  }

  /** Every other key of the bucket keeps its entry after unlinking `j`. */
  lemma UnlinkKeys(chain: seq<Entry>, m: map<string, Ptr>, capacity: int, index: int, j: int)
    requires capacity > 0 && Holds(chain, m, capacity, index) && 0 <= j < |chain|
    ensures forall k :: k in m - {chain[j].key} && Bucket(k, capacity) == index ==>
      Entry(k, m[k]) in chain[..j] + chain[j + 1..]
  {
    var rest := chain[..j] + chain[j + 1..];
    forall k | k in m - {chain[j].key} && Bucket(k, capacity) == index
      ensures Entry(k, m[k]) in rest
    {
      var i :| 0 <= i < |chain| && chain[i] == Entry(k, m[k]);
      if i < j {
        assert rest[i] == chain[i];
      } else {
        assert i != j;
        assert rest[i - 1] == chain[i];
      }
    }
  }

  /** A change of the map at a key hashing to bucket `index` leaves every
      other bucket's chain describing it. */
  lemma HoldsElsewhere(chain: seq<Entry>, m: map<string, Ptr>, m': map<string, Ptr>, capacity: int, i: int, key: string)
    requires capacity > 0 && Holds(chain, m, capacity, i) && Bucket(key, capacity) != i
    requires forall k :: k != key ==> (k in m' <==> k in m)
    requires forall k :: k in m && k != key ==> m'[k] == m[k]
    ensures Holds(chain, m', capacity, i)
  {
  }

  // ---- the map -------------------------------------------------------------------

  /** `HashMap`. `contents` is the map the buckets represent. */
  class HashMap {
    var size: int
    var capacity: int
    var entries: array<seq<Entry>>
    ghost var contents: map<string, Ptr>

    ghost predicate Valid()
      reads this, entries
    {
      capacity > 0 && entries.Length == capacity && size == |contents| &&
      forall i :: 0 <= i < capacity ==> Holds(entries[i], contents, capacity, i)
    }

    /** `hashmap_create`: an empty map; a capacity that is not positive
        becomes 16. */
    constructor (requested: int)
      ensures Valid() && fresh(entries) && size == 0 && contents == map[]
      ensures capacity == if requested > 0 then requested else FALLBACK_CAPACITY
    {
      size := 0;
      capacity := if requested > 0 then requested else FALLBACK_CAPACITY;
      entries := new seq<Entry>[if requested > 0 then requested else FALLBACK_CAPACITY](_ => []);
      contents := map[];
    }

    /** `hashmap_get`: the value stored under `key`; no key, or one not in
        the map, gives the null handle. */
    method Get(key: Option<string>) returns (r: Ptr)
      requires Valid()
      ensures r == if key.Some? && key.value in contents then contents[key.value] else Null
    {
      if key.None? {
        return Null;
      }
      var index := Hash(key.value, capacity);
      var chain := entries[index];
      if |chain| == 0 {
        HoldsMissing(chain, contents, capacity, key.value);
        return Null;
      }
      var j := 0;
      while j < |chain|
        invariant 0 <= j <= |chain| && forall i :: 0 <= i < j ==> chain[i].key != key.value
      {
        if chain[j].key == key.value {
          assert chain[j] in chain;
          return chain[j].value;
        }
        j := j + 1;
      }
      HoldsMissing(chain, contents, capacity, key.value);
      return Null;
    }

    /** Replaces bucket `index` by `chain`, which describes `newContents`
        there; `newContents` differs from `contents` at most at `key`. */
    method SetBucket(index: int, key: string, chain: seq<Entry>, ghost newContents: map<string, Ptr>, newSize: int)
      requires Valid() && 0 <= index < capacity && index == Bucket(key, capacity)
      requires Holds(chain, newContents, capacity, index) && newSize == |newContents|
      requires forall k :: k != key ==> (k in newContents <==> k in contents)
      requires forall k :: k in contents && k != key ==> newContents[k] == contents[k]
      modifies this, entries
      ensures Valid() && entries == old(entries) && capacity == old(capacity)
      ensures contents == newContents
    {
      forall i | 0 <= i < capacity && i != index
        ensures Holds(entries[i], newContents, capacity, i)
      {
        HoldsElsewhere(entries[i], contents, newContents, capacity, i, key);
      }
      entries[index] := chain;
      contents := newContents;
      size := newSize;
    }

    /** `hashmap_put`: stores `value` under `key`, replacing the value of an
        existing key; the size grows by one exactly for a new key. No key
        changes nothing. */
    method Put(key: Option<string>, value: Ptr)
      requires Valid()
      modifies this, entries
      ensures Valid() && entries == old(entries) && capacity == old(capacity)
      ensures contents == if key.Some? then old(contents)[key.value := value] else old(contents)
      ensures size == old(size) + (if key.Some? && key.value !in old(contents) then 1 else 0)
    {
      if key.None? {
        return;
      }
      var k := key.value;
      var index := Hash(k, capacity);
      var chain := entries[index];
      var j := 0;
      while j < |chain|
        invariant 0 <= j <= |chain| && forall i :: 0 <= i < j ==> chain[i].key != k
      {
        if chain[j].key == k {
          HoldsReplace(chain, contents, capacity, index, j, value);
          assert chain[j] in chain;
          SetBucket(index, k, chain[j := Entry(k, value)], contents[k := value], size);
          return;
        }
        j := j + 1;
      }
      HoldsAppend(chain, contents, capacity, k, value);
      SetBucket(index, k, chain + [Entry(k, value)], contents[k := value], size + 1);
    }

    /** `hashmap_remove`: unlinks the entry under `key`, if any, shrinking the
        size by one; every other key keeps its value. */
    method Remove(key: Option<string>)
      requires Valid()
      modifies this, entries
      ensures Valid() && entries == old(entries) && capacity == old(capacity)
      ensures contents == if key.Some? then old(contents) - {key.value} else old(contents)
      ensures size == old(size) - (if key.Some? && key.value in old(contents) then 1 else 0)
    {
      if key.None? {
        return;
      }
      var k := key.value;
      var index := Hash(k, capacity);
      var chain := entries[index];
      if chain == [] {
        HoldsMissing(chain, contents, capacity, k);
        assert contents - {k} == contents;
        return;
      }
      if chain[0].key == k {
        Unlink(index, 0);
        return;
      }
      var j := 1;
      while j < |chain|
        invariant 1 <= j <= |chain| && forall i :: 0 <= i < j ==> chain[i].key != k
      {
        if chain[j].key == k {
          Unlink(index, j);
          return;
        }
        j := j + 1;
      }
      HoldsMissing(chain, contents, capacity, k);
      assert contents - {k} == contents;
    }

    /** Unlinks entry `j` of bucket `index`: the head's successor moves into
        the head slot, an inner entry is bypassed. */
    method Unlink(index: int, j: int)
      requires Valid() && 0 <= index < capacity && 0 <= j < |entries[index]|
      modifies this, entries
      ensures Valid() && entries == old(entries) && capacity == old(capacity)
      ensures old(entries[index][j].key) in old(contents)
      ensures contents == old(contents) - {old(entries[index][j].key)} && size == old(size) - 1
    {
      var chain := entries[index];
      var k := chain[j].key;
      HoldsUnlink(chain, contents, capacity, index, j);
      CardRemove(contents, k);
      SetBucket(index, k, chain[..j] + chain[j + 1..], contents - {k}, size - 1);
    }
  }

  /** `ResourceCache`: three independent maps. */
  class Cache {
    var textures: HashMap
    var fonts: HashMap
    var sounds: HashMap

    ghost predicate Valid()
      reads this, textures, fonts, sounds, textures.entries, fonts.entries, sounds.entries
    {
      textures.Valid() && fonts.Valid() && sounds.Valid() &&
      textures != fonts && fonts != sounds && textures != sounds &&
      textures.entries != fonts.entries && fonts.entries != sounds.entries && textures.entries != sounds.entries
    }

    /** `resource_cache_create`: three empty maps of capacity 1024. */
    constructor ()
      ensures Valid() && fresh(textures) && fresh(fonts) && fresh(sounds)
      ensures fresh(textures.entries) && fresh(fonts.entries) && fresh(sounds.entries)
      ensures textures.contents == map[] && fonts.contents == map[] && sounds.contents == map[]
      ensures textures.capacity == RESOURCE_CACHE_DEFAULT_CAPACITY && fonts.capacity == RESOURCE_CACHE_DEFAULT_CAPACITY
      ensures sounds.capacity == RESOURCE_CACHE_DEFAULT_CAPACITY
    {
      textures := new HashMap(RESOURCE_CACHE_DEFAULT_CAPACITY);
      fonts := new HashMap(RESOURCE_CACHE_DEFAULT_CAPACITY);
      sounds := new HashMap(RESOURCE_CACHE_DEFAULT_CAPACITY);
    }
  }
}
