/**
 * The mail store's `LruCache` (src/lib/store/mail.ts): a JavaScript `Map`
 * used as a least-recently-used cache. A `Map` iterates its keys in
 * insertion order, so the entries are a sequence, least recently used
 * first; re-inserting a key moves it to the end.
 */
module Lru {
  import opened Wrappers

  /** `map.get(key)`: the value stored under `key`, if any. */
  function Lookup<T>(entries: seq<(string, T)>, key: string): Option<T> {
    if entries == [] then None
    else if entries[0].0 == key then Some(entries[0].1)
    else Lookup(entries[1..], key)
  }

  /** Every key occurs at most once, as in a `Map`. */
  predicate DistinctKeys<T>(entries: seq<(string, T)>) {
    entries == [] || (Lookup(entries[1..], entries[0].0).None? && DistinctKeys(entries[1..]))
  }

  /** `map.delete(key)`: the other entries, in their order. */
  function Without<T>(entries: seq<(string, T)>, key: string): (r: seq<(string, T)>)
    ensures forall k {:trigger Lookup(r, k)} :: Lookup(r, k) == if k == key then None else Lookup(entries, k)
    ensures |r| <= |entries|
    ensures Lookup(entries, key).Some? ==> |r| < |entries|
    ensures DistinctKeys(entries) ==> DistinctKeys(r)
  {
    if entries == [] then []
    else if entries[0].0 == key then Without(entries[1..], key)
    else [entries[0]] + Without(entries[1..], key)
  }

  /** `ids.forEach(id => map.delete(id))`: the entries whose key is not in `ids`, in their order. */
  function WithoutAll<T>(entries: seq<(string, T)>, ids: set<string>): (r: seq<(string, T)>)
    ensures forall k {:trigger Lookup(r, k)} :: Lookup(r, k) == if k in ids then None else Lookup(entries, k)
    ensures DistinctKeys(entries) ==> DistinctKeys(r)
  {
    if entries == [] then []
    else if entries[0].0 in ids then WithoutAll(entries[1..], ids)
    else [entries[0]] + WithoutAll(entries[1..], ids)
  }

  /** Deleting nothing keeps every entry in place. */
  lemma {:induction false} WithoutNone<T>(entries: seq<(string, T)>)
    ensures WithoutAll(entries, {}) == entries
  {
    if entries != [] {
      WithoutNone(entries[1..]);
    }
  }

  /** Deleting one more key after a batch of deletions is deleting the larger batch. */
  lemma {:induction false} WithoutAfterWithoutAll<T>(entries: seq<(string, T)>, ids: set<string>, key: string)
    ensures Without(WithoutAll(entries, ids), key) == WithoutAll(entries, ids + {key})
  {
    if entries != [] {
      WithoutAfterWithoutAll(entries[1..], ids, key);
    }
  }

  /** Deleting a key that is not there changes nothing. */
  lemma {:induction false} WithoutAbsent<T>(entries: seq<(string, T)>, key: string)
    requires Lookup(entries, key).None?
    ensures Without(entries, key) == entries
  {
    if entries != [] {
      WithoutAbsent(entries[1..], key);
    }
  }

  /** Looking up after appending an entry finds an earlier entry first. */
  lemma {:induction false} LookupAppend<T>(entries: seq<(string, T)>, key: string, value: T, k: string)
    ensures Lookup(entries + [(key, value)], k)
         == if Lookup(entries, k).Some? then Lookup(entries, k) else if k == key then Some(value) else None
  {
    if entries != [] {
      assert (entries + [(key, value)])[1..] == entries[1..] + [(key, value)];
      LookupAppend(entries[1..], key, value, k);
    }
  }

  /** Appending a new key keeps the keys distinct. */
  lemma {:induction false} DistinctAppend<T>(entries: seq<(string, T)>, key: string, value: T)
    requires DistinctKeys(entries) && Lookup(entries, key).None?
    ensures DistinctKeys(entries + [(key, value)])
  {
    if entries != [] {
      assert (entries + [(key, value)])[1..] == entries[1..] + [(key, value)];
      DistinctAppend(entries[1..], key, value);
      LookupAppend(entries[1..], key, value, entries[0].0);
    }
  }

  /** The size a cache of capacity `maxSize` never exceeds. */
  function Bound(maxSize: int): nat {
    if maxSize < 0 then 0 else maxSize
  }

  /** `key` re-inserted at the most-recent end with `value`. */
  function Touch<T>(entries: seq<(string, T)>, key: string, value: T): seq<(string, T)> {
    Without(entries, key) + [(key, value)]
  }

  /** The key `set` evicts: the first (least recently used) one, when the size exceeds the capacity. */
  function Evicted<T>(entries: seq<(string, T)>, maxSize: int, key: string, value: T): Option<string> {
    var x := Touch(entries, key, value);
    if |x| > maxSize then Some(x[0].0) else None
  }

  /** `set(key, value)`. */
  function SetSpec<T>(entries: seq<(string, T)>, maxSize: int, key: string, value: T): seq<(string, T)> {
    var x := Touch(entries, key, value);
    if |x| > maxSize then x[1..] else x
  }

  /**
   * `set` keeps the keys distinct and the size within the capacity; it
   * stores `value` under `key` and changes nothing else except for the one
   * evicted key, which is no longer found.
   */
  lemma SetSpecContents<T>(entries: seq<(string, T)>, maxSize: int, key: string, value: T)
    requires DistinctKeys(entries) && |entries| <= Bound(maxSize)
    ensures var r := SetSpec(entries, maxSize, key, value);
      && DistinctKeys(r) && |r| <= Bound(maxSize)
      && forall k :: Lookup(r, k) == if Evicted(entries, maxSize, key, value) == Some(k) then None
                                     else if k == key then Some(value) else Lookup(entries, k)
  {
    var x := Touch(entries, key, value);
    DistinctAppend(Without(entries, key), key, value);
    forall k
      ensures Lookup(x, k) == if k == key then Some(value) else Lookup(entries, k)
    {
      LookupAppend(Without(entries, key), key, value, k);
    }
  }

  /**
   * The evicted key is the least recently used one other than `key`, or
   * `key` itself when it is the only entry left (a capacity below one).
   */
  lemma EvictsLeastRecent<T>(entries: seq<(string, T)>, maxSize: int, key: string, value: T)
    requires DistinctKeys(entries)
    requires Evicted(entries, maxSize, key, value).Some?
    ensures var others := if entries != [] && entries[0].0 == key then entries[1..] else entries;
      Evicted(entries, maxSize, key, value).value == if others != [] then others[0].0 else key
  {
    if entries != [] && entries[0].0 == key {
      WithoutAbsent(entries[1..], key);
    }
  }

  /** Setting a key and reading it back gives the value, in a cache that can hold one entry. */
  lemma SetThenLookup<T>(entries: seq<(string, T)>, maxSize: int, key: string, value: T)
    requires DistinctKeys(entries) && |entries| <= Bound(maxSize) && maxSize >= 1
    ensures Lookup(SetSpec(entries, maxSize, key, value), key) == Some(value)
  {
    SetSpecContents(entries, maxSize, key, value);
    var x := Touch(entries, key, value);
    if |x| > maxSize {
      assert x[0].0 != key by {
        assert |Without(entries, key)| >= 1;
        assert Lookup(Without(entries, key), key).None?;
      }
    }
  }

  /** `get` of a present key moves it to the end and changes no key's value. */
  lemma TouchKeepsContents<T>(entries: seq<(string, T)>, key: string)
    requires DistinctKeys(entries) && Lookup(entries, key).Some?
    ensures var r := Touch(entries, key, Lookup(entries, key).value);
      && DistinctKeys(r) && |r| <= |entries|
      && r[|r| - 1] == (key, Lookup(entries, key).value)
      && forall k :: Lookup(r, k) == Lookup(entries, k)
  {
    var value := Lookup(entries, key).value;
    DistinctAppend(Without(entries, key), key, value);
    forall k
      ensures Lookup(Touch(entries, key, value), k) == Lookup(entries, k)
    {
      LookupAppend(Without(entries, key), key, value, k);
    }
  }

  class LruCache<T> {
    /** The entries, least recently used first. */
    var entries: seq<(string, T)>
    const maxSize: int

    predicate Valid()
      reads this
    {
      DistinctKeys(entries) && |entries| <= Bound(maxSize)
    }

    constructor (maxSize: int)
      ensures entries == [] && this.maxSize == maxSize && Valid()
    {
      entries := [];
      this.maxSize := maxSize;
    }

    /** `get`: a present key's value, which becomes the most recently used. */
    method Get(key: string) returns (r: Option<T>)
      requires Valid()
      modifies this
      ensures Valid()
      ensures r == Lookup(old(entries), key)
      ensures entries == if r.Some? then Touch(old(entries), key, r.value) else old(entries)
    {
      r := Lookup(entries, key);
      if r.Some? {
        TouchKeepsContents(entries, key);
        entries := Without(entries, key);
        entries := entries + [(key, r.value)];
      }
    }

    /** `set`: store `value` as the most recently used; evict the least recently used when over capacity. */
    method Set(key: string, value: T)
      requires Valid()
      modifies this
      ensures Valid()
      ensures entries == SetSpec(old(entries), maxSize, key, value)
    {
      SetSpecContents(entries, maxSize, key, value);
      entries := Without(entries, key);
      entries := entries + [(key, value)];
      if |entries| > maxSize {
        entries := entries[1..];
      }
    }

    /** `delete`. */
    method Delete(key: string)
      requires Valid()
      modifies this
      ensures Valid()
      ensures entries == Without(old(entries), key)
    {
      entries := Without(entries, key);
    }
  }
}
