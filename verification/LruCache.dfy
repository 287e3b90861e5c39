/** cache.go: a map, a recency list and a byte counter changed in place, refined
    to the sequence of entries of LruModel. */
module LruCache {
  import opened LruModel

  function Unlink(lru: seq<string>, key: string): seq<string> {
    if lru == [] then [] else if lru[0] == key then lru[1..] else [lru[0]] + Unlink(lru[1..], key)
  }

  /** Map and list hold the same distinct keys, and the entries of s. */
  ghost predicate Linked(items: map<string, Entry>, lru: seq<string>, s: seq<Entry>) {
    && lru == Keys(s) && Distinct(s) && Sized(s)
    && (forall e :: e in s ==> e.key in items && items[e.key] == e)
    && (forall k :: k in items ==> items[k].key == k && items[k] in s)
  }

  lemma {:induction false} UnlinkKeys(s: seq<Entry>, key: string)
    ensures Unlink(Keys(s), key) == Keys(Without(s, key))
    decreases |s|
  {
    if s != [] {
      UnlinkKeys(s[1..], key);
    }
  }

  lemma LinkedRemove(items: map<string, Entry>, lru: seq<string>, s: seq<Entry>, key: string)
    requires Linked(items, lru, s) && key in items
    ensures Linked(items - {key}, Unlink(lru, key), Without(s, key))
    ensures TotalSize(Without(s, key)) == TotalSize(s) - items[key].size
  {
    UnlinkKeys(s, key);
    WithoutFacts(s, key);
    WithoutSize(s, items[key]);
  }

  lemma LinkedPush(items: map<string, Entry>, lru: seq<string>, s: seq<Entry>, e: Entry)
    requires Linked(items, lru, s) && e.key !in items && e.size == EstimateSize(e.key, e.value)
    ensures Linked(items[e.key := e], [e.key] + lru, [e] + s) && TotalSize([e] + s) == TotalSize(s) + e.size
  {
    DistinctPush(items, s, e);
    PushFront(s, e);
  }

  lemma DistinctPush(items: map<string, Entry>, s: seq<Entry>, e: Entry)
    requires Distinct(s) && e.key !in items && forall x :: x in s ==> x.key in items
    ensures Distinct([e] + s)
  {
    forall j | 0 <= j < |s| ensures s[j].key != e.key {
      assert s[j] in s;
    }
  }

  lemma PushFront(s: seq<Entry>, e: Entry)
    ensures Keys([e] + s) == [e.key] + Keys(s) && TotalSize([e] + s) == TotalSize(s) + e.size
  {
    assert ([e] + s)[1..] == s;
  }

  lemma FrontOfMissing(items: map<string, Entry>, lru: seq<string>, s: seq<Entry>, e: Entry)
    requires Linked(items, lru, s) && e.key !in items
    ensures Front(s, e) == [e] + s
  {
    forall x | x in s ensures x.key != e.key {
      assert x.key in items;
    }
    WithoutMissing(s, e.key);
  }

  lemma FrontLength(items: map<string, Entry>, lru: seq<string>, s: seq<Entry>, e: Entry)
    requires Linked(items, lru, s)
    ensures |Front(s, e)| == |s| + if e.key in items then 0 else 1
  {
    if e.key in items {
      WithoutSize(s, items[e.key]);
    } else {
      FrontOfMissing(items, lru, s, e);
    }
  }

  lemma PutBack(items: map<string, Entry>, e: Entry)
    ensures (items - {e.key})[e.key := e] == items[e.key := e]
  {
  }

  /** An entry changes in place and moves to the front. */
  lemma LinkedReplace(items: map<string, Entry>, lru: seq<string>, s: seq<Entry>, e: Entry)
    requires Linked(items, lru, s) && e.key in items && e.size == EstimateSize(e.key, e.value)
    ensures Linked(items[e.key := e], [e.key] + Unlink(lru, e.key), Front(s, e))
    ensures TotalSize(Front(s, e)) == TotalSize(s) - items[e.key].size + e.size
  {
    LinkedRemove(items, lru, s, e.key);
    LinkedPush(items - {e.key}, Unlink(lru, e.key), Without(s, e.key), e);
    PutBack(items, e);
  }

  /** The length of the map is the length of the list. */
  lemma {:induction false} LinkedLength(items: map<string, Entry>, lru: seq<string>, s: seq<Entry>)
    requires Linked(items, lru, s)
    ensures |items| == |s|
    decreases |s|
  {
    if s == [] {
      assert items.Keys == {};
    } else {
      assert s[0] in s;
      LinkedRemove(items, lru, s, s[0].key);
      LinkedLength(items - {s[0].key}, Unlink(lru, s[0].key), Without(s, s[0].key));
      assert items.Keys == (items - {s[0].key}).Keys + {s[0].key};
    }
  }

  lemma LinkedBack(items: map<string, Entry>, lru: seq<string>, s: seq<Entry>)
    requires Linked(items, lru, s) && lru != []
    ensures s != [] && lru[|lru| - 1] == s[|s| - 1].key && lru[|lru| - 1] in items
    ensures Without(s, lru[|lru| - 1]) == s[..|s| - 1]
  {
    KeysFacts(s);
    WithoutCuts(s, |s| - 1);
    assert s[|s| - 1] in s;
  }

  datatype Found = Miss | Hit(entry: Entry)

  /** The entry has been put in front, and what no longer fits has been evicted, not the
      entry itself. */
  ghost predicate StoredFirst(maxBytes: int, maxEntries: int, before: seq<Entry>, e: Entry, after: seq<Entry>) {
    after == Trim(maxBytes, maxEntries, Front(before, e)) && |after| >= 1 && after[0] == e
  }

  /** What a store leaves: the entry in front if it is stored, nothing of the key otherwise. */
  ghost predicate PutLeaves(stored: bool, maxBytes: int, maxEntries: int, before: seq<Entry>, key: string,
                            value: seq<bv8>, now: int, expiresAt: int, after: seq<Entry>) {
    if stored
    then StoredFirst(maxBytes, maxEntries, before, Entry(key, value, now, expiresAt, now, |key| + |value| + 128), after)
    else after == Without(before, key)
  }

  lemma StoreKeeps(maxBytes: int, maxEntries: int, items: map<string, Entry>, lru: seq<string>, s: seq<Entry>,
                   e: Entry)
    requires Linked(items, lru, s) && e.size == EstimateSize(e.key, e.value) <= maxBytes
    ensures var kept := Trim(maxBytes, maxEntries, Front(s, e));
      StoredFirst(maxBytes, maxEntries, s, e, kept) && Fits(maxBytes, maxEntries, kept)
  {
    StoreFacts(maxBytes, maxEntries, s, e);
  }

  class Cache {
    const maxBytes: int
    const maxEntries: int
    var items: map<string, Entry>
    var lru: seq<string>
    var bytes: int
    var evictions: nat
    var closed: bool
    /** The entries, most recently used first. */
    ghost var contents: seq<Entry>

    ghost predicate Counted()
      reads this
    {
      maxBytes >= 0 && Linked(items, lru, contents) && bytes == TotalSize(contents)
    }

    ghost predicate Valid()
      reads this
    {
      Counted() && Fits(maxBytes, maxEntries, contents) && (closed ==> contents == [])
    }

    constructor (maxBytes: int, maxEntries: int)
      ensures Valid() && contents == [] && !closed && evictions == 0
      ensures this.maxBytes == (if maxBytes < 0 then 0 else maxBytes) && this.maxEntries == maxEntries
    {
      this.maxBytes := if maxBytes < 0 then 0 else maxBytes;
      this.maxEntries := maxEntries;
      items, lru, bytes, evictions, closed, contents := map[], [], 0, 0, false, [];
    }

    /** cache.go removeElementLocked. */
    method RemoveElement(key: string)
      requires Counted() && key in items
      modifies `items, `lru, `bytes, `contents
      ensures Counted() && contents == Without(old(contents), key)
    {
      LinkedRemove(items, lru, contents, key);
      bytes := bytes - items[key].size;
      items := items - {key};
      lru := Unlink(lru, key);
      contents := Without(contents, key);
    }

    method Remove(key: string) returns (removed: bool)
      requires Counted()
      modifies `items, `lru, `bytes, `contents
      ensures Counted() && contents == Without(old(contents), key) && removed == (key in old(items))
    {
      if key !in items {
        forall e | e in contents ensures e.key != key {
          assert e.key in items;
        }
        WithoutMissing(contents, key);
        return false;
      }
      RemoveElement(key);
      return true;
    }

    /** cache.go enforceLimitsLocked. */
    method EnforceLimits()
      requires Counted()
      modifies `items, `lru, `bytes, `evictions, `contents
      ensures Counted() && contents == Trim(maxBytes, maxEntries, old(contents))
      ensures evictions == old(evictions) + |old(contents)| - |contents|
    {
      LinkedLength(items, lru, contents);
      while bytes > maxBytes || (maxEntries > 0 && |items| > maxEntries)
        invariant Counted() && |items| == |contents| && |contents| <= |old(contents)|
        invariant Trim(maxBytes, maxEntries, contents) == Trim(maxBytes, maxEntries, old(contents))
        invariant evictions == old(evictions) + |old(contents)| - |contents|
        decreases |contents|
      {
        KeysFacts(contents);
        if lru == [] {
          return;
        }
        LinkedBack(items, lru, contents);
        RemoveElement(lru[|lru| - 1]);
        evictions := evictions + 1;
        LinkedLength(items, lru, contents);
      }
    }

    /** The entry is updated in place, or added, and becomes the most recently used. */
    method Store(e: Entry)
      requires Counted() && e.size == EstimateSize(e.key, e.value)
      modifies `items, `lru, `bytes, `contents
      ensures Counted() && contents == Front(old(contents), e)
      ensures |contents| == |old(contents)| + if e.key in old(items) then 0 else 1
    {
      FrontLength(items, lru, contents, e);
      if e.key in items {
        LinkedReplace(items, lru, contents, e);
        bytes := bytes - items[e.key].size + e.size;
        items, lru := items[e.key := e], [e.key] + Unlink(lru, e.key);
      } else {
        FrontOfMissing(items, lru, contents, e);
        LinkedPush(items, lru, contents, e);
        bytes := bytes + e.size;
        items, lru := items[e.key := e], [e.key] + lru;
      }
      contents := Front(contents, e);
    }

    /** The entry is stored, and what no longer fits is evicted. */
    method Insert(e: Entry)
      requires Valid() && !closed && e.size == EstimateSize(e.key, e.value) <= maxBytes
      modifies `items, `lru, `bytes, `evictions, `contents
      ensures Valid() && StoredFirst(maxBytes, maxEntries, old(contents), e, contents)
      ensures evictions == old(evictions) + |old(contents)| + (if e.key in old(items) then 0 else 1) - |contents|
    {
      StoreKeeps(maxBytes, maxEntries, items, lru, contents, e);
      Store(e);
      EnforceLimits();
    }

    /** cache.go put. */
    method PutEntry(key: string, value: seq<bv8>, now: int, expiresAt: int) returns (stored: bool)
      requires Valid()
      modifies `items, `lru, `bytes, `evictions, `contents
      ensures Valid() && stored == (!closed && maxBytes > 0 && |key| + |value| + 128 <= maxBytes)
      ensures PutLeaves(stored, maxBytes, maxEntries, old(contents), key, value, now, expiresAt, contents)
      ensures evictions ==
        old(evictions) + if stored then |old(contents)| + (if key in old(items) then 0 else 1) - |contents| else 0
    {
      var size := EstimateSize(key, value);
      if closed || maxBytes <= 0 || size > maxBytes {
        WithoutFits(maxBytes, maxEntries, contents, key);
        var removed := Remove(key);
        return false;
      }
      Insert(NewEntry(key, value, now, expiresAt));
      return true;
    }

    method Put(key: string, value: seq<bv8>, ttl: int, now: int) returns (stored: bool)
      requires Valid()
      modifies `items, `lru, `bytes, `evictions, `contents
      ensures Valid()
      ensures stored <==> ttl > 0 && key != "" && !closed && maxBytes > 0 && |key| + |value| + 128 <= maxBytes
      ensures ttl <= 0 || key == "" ==> contents == old(contents) && evictions == old(evictions)
      ensures ttl > 0 && key != "" ==>
        PutLeaves(stored, maxBytes, maxEntries, old(contents), key, value, now, now + ttl, contents)
    {
      if ttl <= 0 || key == "" {
        stored := false;
      } else {
        stored := PutEntry(key, value, now, now + ttl);
      }
    }

    /** An absolute expiry: moving an entry between tiers never extends its life. */
    method PutUntil(key: string, value: seq<bv8>, expiresAt: int, now: int) returns (stored: bool)
      requires Valid()
      modifies `items, `lru, `bytes, `evictions, `contents
      ensures Valid()
      ensures stored <==>
        key != "" && now < expiresAt && !closed && maxBytes > 0 && |key| + |value| + 128 <= maxBytes
      ensures key == "" ==> contents == old(contents)
      ensures key != "" ==>
        PutLeaves(stored, maxBytes, maxEntries, old(contents), key, value, now, expiresAt, contents)
    {
      if key == "" {
        return false;
      }
      if now >= expiresAt {
        WithoutFits(maxBytes, maxEntries, contents, key);
        var removed := Remove(key);
        return false;
      }
      stored := PutEntry(key, value, now, expiresAt);
    }

    /** cache.go get: fresh reads, and reads within a grace period. */
    method Lookup(key: string, grace: int, allowStale: bool, now: int) returns (r: Found)
      requires Valid()
      modifies `items, `lru, `bytes, `contents
      ensures Valid()
      ensures r.Hit? <==>
        key in old(items) && now < old(items[key].expiresAt) + if allowStale && grace > 0 then grace else 0
      ensures r.Hit? ==> r.entry == old(items[key]).(lastAccess := now) && contents == Front(old(contents), r.entry)
      ensures r.Miss? && key in old(items) && !(allowStale && grace == 0) ==> contents == Without(old(contents), key)
      ensures r.Miss? && (key !in old(items) || (allowStale && grace == 0)) ==> contents == old(contents)
    {
      if key !in items {
        return Miss;
      }
      var e := items[key];
      var expiryLimit := e.expiresAt;
      if allowStale && grace > 0 {
        expiryLimit := expiryLimit + grace;
      }
      if now >= expiryLimit {
        if !allowStale || grace != 0 {
          WithoutFits(maxBytes, maxEntries, contents, key);
          RemoveElement(key);
        }
        return Miss;
      }
      assert e in contents;
      TouchFits(maxBytes, maxEntries, contents, e, e.(lastAccess := now));
      Store(e.(lastAccess := now));
      return Hit(e.(lastAccess := now));
    }

    method Delete(key: string) returns (removed: bool)
      requires Valid()
      modifies `items, `lru, `bytes, `contents
      ensures Valid() && contents == Without(old(contents), key) && removed == (key in old(items))
    {
      WithoutFits(maxBytes, maxEntries, contents, key);
      removed := Remove(key);
    }

    method Purge()
      requires Valid()
      modifies `items, `lru, `bytes, `contents
      ensures Valid() && contents == []
    {
      items, lru, bytes, contents := map[], [], 0, [];
    }

    method Close()
      requires Valid()
      modifies this
      ensures Valid() && closed && contents == []
    {
      closed := true;
      items, lru, bytes, contents := map[], [], 0, [];
    }
  }

  /** In every state of a cache: the map, the list and the counter agree on the entries,
      and what these are charged is within both limits. */
  lemma WithinLimits(c: Cache)
    requires c.Valid()
    ensures c.bytes == Charged(c.contents) <= c.maxBytes
    ensures |c.items| == |c.lru| == |c.contents| && (c.maxEntries > 0 ==> |c.contents| <= c.maxEntries)
    ensures forall i :: 0 <= i < |c.contents| ==>
              var k := c.lru[i]; k in c.items && c.items[k] == c.contents[i] && c.contents[i].key == k
  {
    SizesAreCharged(c.contents);
    LinkedLength(c.items, c.lru, c.contents);
    KeysFacts(c.contents);
    forall i | 0 <= i < |c.contents| ensures c.lru[i] in c.items && c.items[c.lru[i]] == c.contents[i] {
      assert c.contents[i] in c.contents;
    }
  }

  /** The entries other than the one at index i. */
  function Others(s: seq<Entry>, i: nat): seq<Entry>
    requires i <= |s|
  {
    s[..i] + if i < |s| then s[i + 1..] else []
  }

  /** The index i holds the key; it is the length when no entry does. */
  ghost predicate At(s: seq<Entry>, key: string, i: nat) {
    i <= |s| && if i < |s| then s[i].key == key else forall x :: x in s ==> x.key != key
  }

  lemma FrontAt(s: seq<Entry>, e: Entry, i: nat)
    requires Distinct(s) && At(s, e.key, i)
    ensures Front(s, e) == [e] + Others(s, i)
  {
    if i < |s| {
      WithoutCuts(s, i);
    } else {
      WithoutMissing(s, e.key);
    }
  }

  lemma NoLonger(maxBytes: int, maxEntries: int, e: Entry, others: seq<Entry>, n: nat)
    requires Sized([e] + others) && n <= |others| && !Fits(maxBytes, maxEntries, ([e] + others)[..n + 1])
    ensures maxBytes < Charged([e] + others[..n]) || 0 < maxEntries < n + 1
  {
    assert ([e] + others)[..n + 1] == [e] + others[..n];
    SizesAreCharged([e] + others[..n]);
  }

  /** The kept entries are in front of the others, within the limits, and no more of
      the others would fit. */
  ghost predicate KeptBeside(maxBytes: int, maxEntries: int, e: Entry, others: seq<Entry>, after: seq<Entry>) {
    && |after| >= 1 && after[0] == e && after[1..] <= others
    && Charged(after) <= maxBytes && (maxEntries > 0 ==> |after| <= maxEntries)
    && forall n :: |after| <= n <= |others| ==> maxBytes < Charged([e] + others[..n]) || 0 < maxEntries < n + 1
  }

  lemma TrimKeepsBeside(maxBytes: int, maxEntries: int, e: Entry, others: seq<Entry>)
    requires Sized([e] + others) && 0 <= maxBytes
    requires var after := Trim(maxBytes, maxEntries, [e] + others); |after| >= 1
    ensures KeptBeside(maxBytes, maxEntries, e, others, Trim(maxBytes, maxEntries, [e] + others))
  {
    var after := Trim(maxBytes, maxEntries, [e] + others);
    TrimIsLongest(maxBytes, maxEntries, [e] + others);
    SizesAreCharged(after);
    assert after[1..] == others[..|after| - 1];
    forall n | |after| <= n <= |others| ensures maxBytes < Charged([e] + others[..n]) || 0 < maxEntries < n + 1 {
      NoLonger(maxBytes, maxEntries, e, others, n);
    }
  }

  /** What a store leaves of the other entries: as many of the most recently used, in
      their order, as fit beside the new one. */
  lemma StoredMeans(maxBytes: int, maxEntries: int, before: seq<Entry>, e: Entry, after: seq<Entry>, i: nat)
    requires Distinct(before) && Sized(before) && maxBytes >= 0 && StoredFirst(maxBytes, maxEntries, before, e, after)
    requires e.size == EstimateSize(e.key, e.value) && At(before, e.key, i)
    ensures KeptBeside(maxBytes, maxEntries, e, Others(before, i), after)
  {
    FrontAt(before, e, i);
    FrontFacts(before, e);
    TrimKeepsBeside(maxBytes, maxEntries, e, Others(before, i));
  }
}
