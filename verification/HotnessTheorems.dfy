/** What holds of the tracker in every state that any sequence of calls reaches:
    each method keeps `Sound`, and these follow from it. */
module HotnessTheorems {
  import opened HotnessModel
  import opened HotnessEarly
  import opened HotnessHistory
  import opened HotnessStreak
  import opened HotnessLog
  import opened HotnessPass
  import opened HotnessRing
  import opened HotnessAccounts
  import opened HotnessCalls
  import opened HotnessTracker

  /** Since it was given its slot, a tracked key agrees with the boundary-only
      reference on its score, and at every boundary on its state. */
  lemma TrackedFollowsReference(c: Config, f: Fields, g: Book, k: string)
    requires Sound(c, f, g, {}) && k in f.items
    ensures k in g.hist
    ensures var e, r := f.items[k], PlainAll(c, NewEntry(k), g.hist[k]);
      && e.score == r.score && e.count == r.count
      && (e.state == r.state || (e.state == Hot && Inevitable(c, r)))
    ensures g.hist[k] != [] && g.hist[k][|g.hist[k]| - 1].Elapsed? && g.hist[k][|g.hist[k]| - 1].n >= 1 ==>
      f.items[k].state == PlainAll(c, NewEntry(k), g.hist[k]).state
  {
    assert Follows(c, f.items[k], k, g.hist[k]);
    EarlyAgrees(c, k, g.hist[k]);
  }

  /** The state, score and rate of a tracked key are what the scores of its windows since it
      was given its slot make them. */
  lemma TrackedMeans(c: Config, f: Fields, g: Book, k: string)
    requires Sound(c, f, g, {}) && k in f.items
    ensures k in g.hist
    ensures var e, t := f.items[k], TallyAll(c, g.hist[k]);
      e.state == Expected(c, t) && e.score == t.score && e.lastRate == t.rate && e.count == t.count
  {
    assert Follows(c, f.items[k], k, g.hist[k]);
    StateMeans(c, k, g.hist[k]);
  }

  /** A key that was HOT and no longer is, evicted or not, was reported as it
      started to cool. */
  lemma HotLeavesReported(c: Config, f: Fields, g: Book, f': Fields, g': Book, ts: seq<Transition>, k: string)
    requires Sound(c, f, g, {}) && Sound(c, f', g', {}) && g'.log == g.log + ts
    requires k in f.items && f.items[k].state == Hot && (k !in f'.items || f'.items[k].state != Hot)
    ensures exists i :: 0 <= i < |ts| && ts[i] == Transition(k, Hot, Cooling)
  {
    assert StateAfter(g.log, k) == Hot && StateAfter(g.log + ts, k) != Hot;
    LeavingHotIsReported(g.log, ts, k);
  }

  /** Over any run of calls from a sound tracker: as long as nothing is evicted and one slot
      is not HOT whenever a key is refused, at most capacity - 1 observations are refused,
      whatever other calls come between. */
  lemma RefusalsAreBounded(c: Config, fs: seq<Fields>, calls: seq<Call>, rs: seq<Reply>, g: Book,
                           i: nat, n: nat, slot: nat)
    requires IsCallRun(c, fs, calls, rs) && Sound(c, fs[0], g, {}) && i <= n <= |calls|
    requires fs[n].evictions == fs[i].evictions
    requires slot < c.maxTracked && SlotOpen(c, fs, calls, rs, i, n, slot)
    ensures Refusals(rs, i, n) <= c.maxTracked - 1
  {
    RunCursor(c, fs, calls, rs, 0, i);
    RefusalsBound(c, fs, calls, rs, i, n, slot);
  }

  lemma SoundSlots(c: Config, f: Fields, g: Book)
    requires Sound(c, f, g, {})
    ensures SlotsOk(c, f)
  {
    EnumerationSize(f.ring, g.slot, f.items);
  }

  /** Over any run of calls from a sound tracker the counters are what happened: drops are the
      refusals, oversized drops the observations of keys over 1024 bytes, and every key
      that was given a slot is still tracked, or was evicted and counted. */
  lemma CountersAreTrue(c: Config, fs: seq<Fields>, calls: seq<Call>, rs: seq<Reply>, g: Book, n: nat)
    requires IsCallRun(c, fs, calls, rs) && Sound(c, fs[0], g, {}) && n <= |calls|
    ensures fs[n].oversized == fs[0].oversized + Oversized(calls, 0, n)
    ensures fs[n].capacityDrops == fs[0].capacityDrops + Refusals(rs, 0, n)
    ensures fs[n].evictions + |fs[n].items| == fs[0].evictions + |fs[0].items| + Entered(fs, calls, 0, n)
    ensures fs[0].evictions <= fs[n].evictions && |fs[0].items| <= |fs[n].items| <= c.maxTracked
  {
    SoundSlots(c, fs[0], g);
    BooksBalance(c, fs, calls, rs, 0, n);
  }
}
