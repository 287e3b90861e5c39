/** cache_tiers.go: how one budget is split over the protected and the
    probationary tier, and what the split guarantees the two caches. */
module CacheTiers {
  import opened LruModel
  import opened LruCache

  const PROBATIONARY_CACHE_SHARE := 8

  datatype TierLimits = TierLimits(
    protectedBytes: int, protectedEntries: int, probationaryBytes: int, probationaryEntries: int,
    probationaryEnabled: bool)

  function SplitLimits(maxBytes: int, maxEntries: int): TierLimits {
    var whole := TierLimits(maxBytes, maxEntries, 0, 0, false);
    if maxBytes < 2 || maxEntries == 1 then whole
    else
      var share := maxBytes / PROBATIONARY_CACHE_SHARE;
      var probationaryBytes := if share < 1 then 1 else share;
      var protectedBytes := maxBytes - probationaryBytes;
      if protectedBytes < 1 then whole
      else if maxEntries > 1 then
        var entryShare := maxEntries / PROBATIONARY_CACHE_SHARE;
        var probationaryEntries := if entryShare < 1 then 1 else entryShare;
        TierLimits(protectedBytes, maxEntries - probationaryEntries, probationaryBytes, probationaryEntries, true)
      else
        TierLimits(protectedBytes, maxEntries, probationaryBytes, 0, true)
  }

  /** An eighth, rounded down, but at least one. */
  predicate EighthOf(share: int, whole: int) {
    if whole < 8 then share == 1 else 8 * share <= whole < 8 * share + 8
  }

  /** Two tiers exist exactly when the budget allows one entry and one byte in each;
      they share it without loss, an eighth for probation; a positive entry limit never becomes the
      unlimited 0; and the protected tier is the larger one. */
  lemma SplitIsFair(maxBytes: int, maxEntries: int)
    ensures var l := SplitLimits(maxBytes, maxEntries);
      && (l.probationaryEnabled <==> maxBytes >= 2 && maxEntries != 1)
      && (!l.probationaryEnabled ==> l.protectedBytes == maxBytes && l.protectedEntries == maxEntries)
      && (l.probationaryEnabled ==>
            && l.protectedBytes + l.probationaryBytes == maxBytes && 1 <= l.probationaryBytes <= l.protectedBytes
            && EighthOf(l.probationaryBytes, maxBytes)
            && (maxEntries > 0 ==> l.protectedEntries + l.probationaryEntries == maxEntries
                                   && 1 <= l.probationaryEntries <= l.protectedEntries
                                   && EighthOf(l.probationaryEntries, maxEntries))
            && (maxEntries <= 0 ==> l.protectedEntries == maxEntries && l.probationaryEntries == 0))
  {
    var b, e := maxBytes / PROBATIONARY_CACHE_SHARE, maxEntries / PROBATIONARY_CACHE_SHARE;
    assert maxBytes >= 2 ==> 0 <= 8 * b <= maxBytes;
    assert maxEntries > 1 ==> 0 <= 8 * e <= maxEntries;
  }

  /** The two tiers are caches with the split limits. */
  ghost predicate Tiers(maxBytes: int, maxEntries: int, protected: Cache, probationary: Cache)
    reads protected, probationary
  {
    var l := SplitLimits(maxBytes, maxEntries);
    && l.probationaryEnabled && protected != probationary && protected.Valid() && probationary.Valid()
    && protected.maxBytes == l.protectedBytes && protected.maxEntries == l.protectedEntries
    && probationary.maxBytes == l.probationaryBytes && probationary.maxEntries == l.probationaryEntries
  }

  ghost predicate Exclusive(s: seq<Entry>, t: seq<Entry>) {
    forall x, y :: x in s && y in t ==> x.key != y.key
  }

  /** Combined bytes and entries never exceed the configured totals. */
  lemma SharedBudget(maxBytes: int, maxEntries: int, protected: Cache, probationary: Cache)
    requires Tiers(maxBytes, maxEntries, protected, probationary)
    ensures Charged(protected.contents) + Charged(probationary.contents) <= maxBytes
    ensures protected.bytes + probationary.bytes <= maxBytes
    ensures maxEntries > 0 ==> |protected.items| + |probationary.items| <= maxEntries
  {
    SplitIsFair(maxBytes, maxEntries);
    WithinLimits(protected);
    WithinLimits(probationary);
  }

  /** Anything that fits probation fits protected. */
  lemma CandidateFits(maxBytes: int, maxEntries: int, protected: Cache, probationary: Cache, e: Entry)
    requires Tiers(maxBytes, maxEntries, protected, probationary) && e in probationary.contents
    ensures 0 < EstimateSize(e.key, e.value) <= protected.maxBytes
  {
    SplitIsFair(maxBytes, maxEntries);
    EntryFits(probationary.contents, e);
  }

  lemma {:induction false} EntryFits(s: seq<Entry>, e: Entry)
    requires Sized(s) && e in s
    ensures e.size <= TotalSize(s)
    decreases |s|
  {
    var i :| 0 <= i < |s| && s[i] == e;
    SizeOfPrefix(s, i);
    SizesGrow(s, i + 1, |s|);
    assert s[..|s|] == s;
  }

  lemma ExclusiveLess(s: seq<Entry>, t: seq<Entry>, key: string)
    requires Exclusive(s, t) && Distinct(t)
    ensures Exclusive(s, Without(t, key))
  {
    WithoutFacts(t, key);
  }

  /** Whatever is stored under the key, and whatever that evicts, the tiers stay
      exclusive once the key has left probation. */
  lemma HandOver(maxBytes: int, maxEntries: int, s: seq<Entry>, t: seq<Entry>, e: Entry)
    requires Exclusive(s, t) && Distinct(s) && Distinct(t) && Sized(s) && maxBytes >= 0
    requires e.size == EstimateSize(e.key, e.value)
    ensures Exclusive(Trim(maxBytes, maxEntries, Front(s, e)), Without(t, e.key))
    ensures Exclusive(Without(s, e.key), Without(t, e.key))
  {
    WithoutFacts(s, e.key);
    WithoutFacts(t, e.key);
    FrontFacts(s, e);
    TrimIsLongest(maxBytes, maxEntries, Front(s, e));
    forall x | x in Trim(maxBytes, maxEntries, Front(s, e)) ensures x in Front(s, e) {
    }
  }

  /** The candidate leaves probation. */
  method Take(probationary: Cache, key: string, now: int) returns (found: Found)
    requires probationary.Valid()
    modifies probationary`items, probationary`lru, probationary`bytes, probationary`contents
    ensures probationary.Valid()
    ensures found.Hit? <==> key in old(probationary.items) && now < old(probationary.items[key].expiresAt)
    ensures found.Hit? ==>
      var e := old(probationary.items[key]);
      && found.entry.value == e.value && found.entry.expiresAt == e.expiresAt
      && e in old(probationary.contents) && e.key == key
    ensures probationary.contents ==
      if key in old(probationary.items) then Without(old(probationary.contents), key) else old(probationary.contents)
  {
    found := probationary.Lookup(key, 0, false, now);
    if found.Hit? {
      var removed := probationary.Delete(key);
    }
  }

  /** service.go's hand-over of a candidate from probation to protection. A candidate
      that is unexpired when it is stored always arrives, with its own expiry; the
      tiers stay exclusive and within the shared budget. */
  method Promote(maxBytes: int, maxEntries: int, protected: Cache, probationary: Cache, key: string, readAt: int,
                 storeAt: int)
    returns (stored: bool)
    requires Tiers(maxBytes, maxEntries, protected, probationary)
    requires Exclusive(protected.contents, probationary.contents)
    modifies protected, probationary
    ensures Tiers(maxBytes, maxEntries, protected, probationary) && Exclusive(protected.contents, probationary.contents)
    ensures stored <==>
      && key != "" && key in old(probationary.items) && readAt < old(probationary.items[key].expiresAt)
      && !old(protected.closed) && storeAt < old(probationary.items[key].expiresAt)
    ensures stored ==>
      var e := old(probationary.items[key]);
      && |protected.contents| >= 1
      && protected.contents[0] == Entry(key, e.value, storeAt, e.expiresAt, storeAt, |key| + |e.value| + 128)
      && probationary.contents == Without(old(probationary.contents), key)
  {
    ghost var s, t := protected.contents, probationary.contents;
    ExclusiveLess(s, t, key);
    if key in probationary.items {
      CandidateFits(maxBytes, maxEntries, protected, probationary, probationary.items[key]);
    }
    var found := Take(probationary, key, readAt);
    if found.Miss? {
      return false;
    }
    HandOver(protected.maxBytes, protected.maxEntries, s, t,
             NewEntry(key, found.entry.value, storeAt, found.entry.expiresAt));
    stored := protected.PutUntil(key, found.entry.value, found.entry.expiresAt, storeAt);
  }
}
