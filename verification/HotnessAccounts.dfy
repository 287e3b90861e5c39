/** The tracker's books: over every run of calls, its counters are what the calls add up to,
    and no key enters or leaves the ring uncounted. */
module HotnessAccounts {
  import opened HotnessModel
  import opened HotnessEarly
  import opened HotnessCalls
  import opened HotnessRing

  /** The ring holds the tracked keys, each once. */
  ghost predicate SlotsOk(c: Config, f: Fields) {
    && CursorOk(c, f) && |f.items| == |f.ring|
    && (forall i :: 0 <= i < |f.ring| ==> f.ring[i] in f.items)
    && (forall i, j :: 0 <= i < j < |f.ring| ==> f.ring[i] != f.ring[j])
  }

  /** The observation of a key too long to track. */
  predicate TooLong(call: Call) { call.CallObserve? && |call.key| > 1024 }

  /** A call gives its key a slot. */
  predicate Enters(f: Fields, call: Call, f': Fields) {
    call.CallObserve? && call.key !in f.items && call.key in f'.items
  }

  /** What one call adds to the books. */
  ghost predicate Books(f: Fields, call: Call, r: Reply, f': Fields) {
    && f'.oversized == f.oversized + (if TooLong(call) then 1 else 0)
    && f'.capacityDrops == f.capacityDrops + (if Refused(r) then 1 else 0)
    && f'.evictions + |f'.items| == f.evictions + |f.items| + (if Enters(f, call, f') then 1 else 0)
    && f.evictions <= f'.evictions && |f.items| <= |f'.items|
  }

  lemma SameSize(a: map<string, Entry>, b: map<string, Entry>)
    requires a.Keys == b.Keys
    ensures |a| == |b|
  {
    assert |a| == |a.Keys| && |b| == |b.Keys|;
  }

  lemma Added(items: map<string, Entry>, key: string, e: Entry)
    requires key !in items
    ensures |items[key := e]| == |items| + 1
  {
    assert items[key := e] - {key} == items;
  }

  lemma Swapped(items: map<string, Entry>, victim: string, key: string, e: Entry)
    requires key !in items && victim in items
    ensures |(items - {victim})[key := e]| == |items|
  {
    Added(items - {victim}, key, e);
    assert (items - {victim})[victim := items[victim]] == items;
    Added(items - {victim}, victim, items[victim]);
  }

  lemma PlacedBooks(c: Config, f: Fields, key: string)
    requires ValidConfig(c) && SlotsOk(c, f)
    ensures var p := Placed(c, f, key);
      && SlotsOk(c, p) && p.oversized == f.oversized
      && p.capacityDrops == f.capacityDrops + (if key in p.items then 0 else 1)
      && p.evictions + |p.items| == f.evictions + |f.items| + (if key !in f.items && key in p.items then 1 else 0)
      && f.evictions <= p.evictions && |f.items| <= |p.items|
  {
    var p := Placed(c, f, key);
    if key !in f.items {
      if |f.ring| < c.maxTracked {
        Added(f.items, key, NewEntry(key));
      } else if key in p.items {
        Swapped(f.items, f.ring[f.nextVictim], key, NewEntry(key));
      }
    }
  }

  lemma EntryBooks(c: Config, f: Fields, key: string, e: Entry)
    requires SlotsOk(c, f) && key in f.items
    ensures SlotsOk(c, WithEntry(f, key, e)) && |WithEntry(f, key, e).items| == |f.items|
  {
    SameSize(f.items, f.items[key := e]);
  }

  lemma CaughtBooks(c: Config, f: Fields, now: int, mid: Fields, ts: seq<Transition>)
    requires ValidConfig(c) && SlotsOk(c, f) && Caught(c, f, now, mid, ts)
    ensures SlotsOk(c, mid) && |mid.items| == |f.items| && mid.items.Keys == f.items.Keys
    ensures mid.evictions == f.evictions && mid.capacityDrops == f.capacityDrops && mid.oversized == f.oversized
  {
    SameSize(f.items, mid.items);
  }

  lemma DoesBooks(c: Config, mid: Fields, ts: seq<Transition>, call: Call, r: Reply, f': Fields)
    requires ValidConfig(c) && SlotsOk(c, mid) && Does(c, mid, ts, call, r, f')
    ensures SlotsOk(c, f') && Books(mid, call, r, f')
  {
    match call
    case CallObserve(key, _) =>
      if Trackable(key) {
        PlacedBooks(c, mid, key);
        var p := Placed(c, mid, key);
        if key in p.items {
          EntryBooks(c, p, key, Seen(c, p.items[key]));
        }
      }
    case CallAdmit(key, _) =>
      if key in mid.items {
        EntryBooks(c, mid, key, Admitted(mid.items[key]));
      }
    case CallAdvance(_) =>
  }

  lemma CallBooks(c: Config, f: Fields, call: Call, r: Reply, f': Fields)
    requires ValidConfig(c) && SlotsOk(c, f) && Called(c, f, call, r, f')
    ensures SlotsOk(c, f') && Books(f, call, r, f')
  {
    var mid, ts :| Caught(c, f, call.now, mid, ts) && Does(c, mid, ts, call, r, f');
    CaughtBooks(c, f, call.now, mid, ts);
    DoesBooks(c, mid, ts, call, r, f');
  }

  /** What a reply says is so when the call returns. */
  lemma RepliesAreTrue(c: Config, f: Fields, key: string, now: int, r: Reply, f': Fields)
    requires ValidConfig(c) && Called(c, f, CallObserve(key, now), r, f')
    ensures r.Observed? && r.o.hot == f'.hot && r.o.capacityDrops == f'.capacityDrops
    ensures r.o.oversizedObservationsDropped == f'.oversized && (r.o.oversizedObservationDropped <==> |key| > 1024)
    ensures r.o.capacityObservationDropped <==> 0 < |key| <= 1024 && key !in f'.items
    ensures 0 < |key| <= 1024 && key in f'.items ==> r.o.state == State(f'.items[key].state)
    ensures !(0 < |key| <= 1024 && key in f'.items) ==> r.o.state == NoState
  {
  }

  // --------------------------------------------------------------------- runs

  /** How many of the calls i to n are observations of a key too long to track. */
  function Oversized(calls: seq<Call>, i: nat, n: nat): nat
    requires i <= n <= |calls|
    decreases n
  {
    if i == n then 0 else Oversized(calls, i, n - 1) + if TooLong(calls[n - 1]) then 1 else 0
  }

  /** How many of them give their key a slot. */
  function Entered(fs: seq<Fields>, calls: seq<Call>, i: nat, n: nat): nat
    requires i <= n <= |calls| && n < |fs|
    decreases n
  {
    if i == n then 0 else Entered(fs, calls, i, n - 1) + if Enters(fs[n - 1], calls[n - 1], fs[n]) then 1 else 0
  }

  /** Over any run of calls the counters are what happened: drops are the refusals, oversized
      drops the observations of keys over 1024 bytes, and every key that was given a slot
      is still tracked or was evicted, and counted. */
  lemma {:induction false} BooksBalance(c: Config, fs: seq<Fields>, calls: seq<Call>, rs: seq<Reply>, i: nat, n: nat)
    requires IsCallRun(c, fs, calls, rs) && i <= n <= |calls| && SlotsOk(c, fs[i])
    ensures SlotsOk(c, fs[n])
    ensures fs[n].oversized == fs[i].oversized + Oversized(calls, i, n)
    ensures fs[n].capacityDrops == fs[i].capacityDrops + Refusals(rs, i, n)
    ensures fs[n].evictions + |fs[n].items| == fs[i].evictions + |fs[i].items| + Entered(fs, calls, i, n)
    ensures fs[i].evictions <= fs[n].evictions && |fs[i].items| <= |fs[n].items| <= c.maxTracked
    decreases n
  {
    if i < n {
      BooksBalance(c, fs, calls, rs, i, n - 1);
      assert CallAt(c, fs, calls, rs, n - 1);
      CallBooks(c, fs[n - 1], calls[n - 1], rs[n - 1], fs[n]);
    }
  }
}
