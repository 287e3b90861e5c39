/** The tracker: a map of entries, an admission ring, a HOT counter, and the
    transitions every call reports. */
module HotnessTracker {
  import opened HotnessModel
  import opened HotnessEarly
  import opened HotnessHistory
  import opened HotnessLog
  import opened HotnessPass
  import opened HotnessCalls

  /** What a run has done so far: all transitions ever reported, what each tracked
      entry has been through, the non-empty keys ever observed, and the slot of each
      tracked key. */
  datatype Book = Book(log: seq<Transition>, hist: Histories, observed: set<string>, slot: map<string, nat>)

  /** What advancing to `now` adds to every tracked key's history. */
  function Advanced(c: Config, hist: Histories, window: int, now: int): Histories
    requires ValidConfig(c)
  {
    var n := Windows(c, window, now);
    if n == 0 then hist else map k | k in hist :: hist[k] + [Elapsed(n, window + c.window)]
  }

  lemma GrownAt(was: map<string, Entry>, items: map<string, Entry>, wasHist: Histories, hist: Histories,
                order: seq<string>, at: map<string, nat>, ev: Event, k: string)
    requires Enumerates(order, at, was) && Pass(was, items, wasHist, hist, at, |order|, ev) && k in wasHist
    ensures k in hist && hist[k] == wasHist[k] + [ev]
  {
    assert at[k] < |order|;
  }

  /** After a pass every history has grown by the same event. */
  lemma PassEnd(was: map<string, Entry>, items: map<string, Entry>, wasHist: Histories, hist: Histories,
                order: seq<string>, at: map<string, nat>, ev: Event)
    requires Enumerates(order, at, was) && Pass(was, items, wasHist, hist, at, |order|, ev)
    ensures hist == map k | k in wasHist :: wasHist[k] + [ev]
  {
    forall k | k in wasHist ensures k in hist && hist[k] == wasHist[k] + [ev] {
      GrownAt(was, items, wasHist, hist, order, at, ev, k);
    }
    SameMap(wasHist, hist, ev);
  }

  lemma SameMap(wasHist: Histories, hist: Histories, ev: Event)
    requires hist.Keys == wasHist.Keys && forall k :: k in wasHist ==> hist[k] == wasHist[k] + [ev]
    ensures hist == map k | k in wasHist :: wasHist[k] + [ev]
  {
  }

  lemma AppendSlot(ring: seq<string>, slot: map<string, nat>, items: map<string, Entry>, k: string, e: Entry)
    requires Enumerates(ring, slot, items) && k !in items
    ensures Enumerates(ring + [k], slot[k := |ring|], items[k := e])
  {
  }

  lemma ReplaceSlot(ring: seq<string>, slot: map<string, nat>, items: map<string, Entry>, i: nat, k: string, e: Entry)
    requires Enumerates(ring, slot, items) && k !in items && i < |ring|
    ensures Enumerates(ring[i := k], (slot - {ring[i]})[k := i], (items - {ring[i]})[k := e])
  {
  }

  lemma BalancedNew(c: Config, items: map<string, Entry>, log: seq<Transition>, hot: int, hist: Histories, k: string)
    requires Balanced(c, items, log, hot, hist) && k !in items
    ensures Balanced(c, items[k := NewEntry(k)], log, hot, hist[k := []])
  {
    CompleteUpdate(items, log, hot, k, NewEntry(k), [], hot);
    assert log + [] == log;
  }

  lemma BalancedEvict(c: Config, items: map<string, Entry>, log: seq<Transition>, hot: int, hist: Histories, k: string)
    requires Balanced(c, items, log, hot, hist) && k in items && items[k].state != Hot
    ensures Balanced(c, items - {k}, log + Change(k, items[k].state, Cold), hot, hist - {k})
  {
    CompleteRemove(items, log, hot, k, Change(k, items[k].state, Cold));
  }

  lemma BalancedReplace(c: Config, items: map<string, Entry>, log: seq<Transition>, hot: int, hist: Histories,
                        victim: string, k: string, ts: seq<Transition>)
    requires Balanced(c, items, log, hot, hist) && victim in items && items[victim].state != Hot && k !in items
    requires ts == Change(victim, items[victim].state, Cold)
    ensures Balanced(c, (items - {victim})[k := NewEntry(k)], log + ts, hot, (hist - {victim})[k := []])
  {
    BalancedEvict(c, items, log, hot, hist, victim);
    BalancedNew(c, items - {victim}, log + ts, hot, hist - {victim}, k);
  }

  /** What advancing reports: nothing, or every key's part in iteration order. */
  ghost predicate Reported(c: Config, items: map<string, Entry>, n: nat, first: int, order: seq<string>,
                           parts: seq<seq<Transition>>, ts: seq<Transition>)
    requires ValidConfig(c)
  {
    ts == Flatten(parts) && |parts| == (if n == 0 then 0 else |order|) && AllReport(c, items, n, first, order, parts)
  }

  lemma NoneElapsed(c: Config, items: map<string, Entry>, first: int)
    requires ValidConfig(c)
    ensures AllElapsed(c, items, 0, first, items)
  {
  }

  lemma AllPassed(c: Config, was: map<string, Entry>, items: map<string, Entry>, wasHist: Histories, hist: Histories,
                  order: seq<string>, at: map<string, nat>, n: nat, first: int, parts: seq<seq<Transition>>)
    requires ValidConfig(c) && Enumerates(order, at, was)
    requires Passed(c, was, items, wasHist, hist, order, at, |order|, n, first, parts)
    ensures AllElapsed(c, was, n, first, items)
  {
    forall k {:trigger Becomes(c, was[k], n, first, items[k])} | k in was
      ensures Becomes(c, was[k], n, first, items[k])
    {
      assert at[k] < |order|;
    }
  }

  lemma ReportedIsTold(c: Config, items: map<string, Entry>, n: nat, first: int, order: seq<string>,
                       at: map<string, nat>, parts: seq<seq<Transition>>, ts: seq<Transition>)
    requires ValidConfig(c) && Enumerates(order, at, items) && Reported(c, items, n, first, order, parts, ts)
    requires forall k :: k in items ==> items[k].key == k
    ensures AllTold(c, items, n, first, ts)
  {
    forall k {:trigger Of(ts, k)} ensures Of(ts, k) == Told(c, items, n, first, k) {
      PartsTold(c, items, n, first, order, at, parts, k);
    }
  }

  /** tracker.go advanceLocked, for any iteration order of the map. */
  method AdvanceTo(c: Config, window: int, items: map<string, Entry>, hot: int, now: int, order: seq<string>,
                   ghost at: map<string, nat>, ghost log: seq<Transition>, ghost hist: Histories)
    returns (window': int, items': map<string, Entry>, hot': int, ts: seq<Transition>, ghost hist': Histories,
             ghost parts: seq<seq<Transition>>)
    requires Balanced(c, items, log, hot, hist) && Enumerates(order, at, items)
    ensures Balanced(c, items', log + ts, hot', hist') && items'.Keys == items.Keys
    ensures window' == Boundary(c, window, now)
    ensures hist' == Advanced(c, hist, window, now)
    ensures Reported(c, items, Windows(c, window, now), window + c.window, order, parts, ts)
    ensures AllElapsed(c, items, Windows(c, window, now), window + c.window, items')
  {
    if now < window + c.window {
      AppendAgain(log, [], []);
      NoneElapsed(c, items, window + c.window);
      return window, items, hot, [], hist, [];
    }
    WindowsFit(c, window, now);
    var elapsed := (now - window) / c.window;
    if elapsed < 1 {
      elapsed := 1;
    }
    var first := window + c.window;
    items', hot', ts, hist', parts := AdvanceAll(c, items, hot, order, elapsed, first, at, log, hist);
    PassEnd(items, items', hist, hist', order, at, Elapsed(elapsed, first));
    AllPassed(c, items, items', hist, hist', order, at, elapsed, first, parts);
    window' := window + elapsed * c.window;
  }

  /** Ring and map are in bijection within capacity; the cursor is in range. */
  ghost predicate Ringed(c: Config, f: Fields, g: Book) {
    && |f.ring| <= c.maxTracked && Enumerates(f.ring, g.slot, f.items)
    && (f.nextVictim == 0 || f.nextVictim < |f.ring|)
  }

  /** Unless something was evicted or refused, every observed key is tracked, or is
      the one about to be. */
  ghost predicate Accounted(f: Fields, g: Book, next: set<string>) {
    && f.items.Keys + next <= g.observed
    && (f.evictions == 0 && f.capacityDrops == 0 && f.oversized == 0 ==> f.items.Keys + next == g.observed)
  }

  ghost predicate Sound(c: Config, f: Fields, g: Book, next: set<string>) {
    Balanced(c, f.items, g.log, f.hot, g.hist) && Ringed(c, f, g) && Accounted(f, g, next)
  }

  /** The tracker with one more slot. */
  function Appended(f: Fields, key: string): Fields {
    f.(ring := f.ring + [key], items := f.items[key := NewEntry(key)])
  }

  lemma SoundAppended(c: Config, f: Fields, g: Book, key: string)
    requires Sound(c, f, g, {key}) && key !in f.items && |f.ring| < c.maxTracked
    ensures Sound(c, Appended(f, key), g.(hist := g.hist[key := []], slot := g.slot[key := |f.ring|]), {})
  {
    AppendSlot(f.ring, g.slot, f.items, key, NewEntry(key));
    BalancedNew(c, f.items, g.log, f.hot, g.hist, key);
    AppendedAccounted(f, g, key);
  }

  lemma AppendedAccounted(f: Fields, g: Book, key: string)
    requires Accounted(f, g, {key})
    ensures Accounted(Appended(f, key), g.(hist := g.hist[key := []], slot := g.slot[key := |f.ring|]), {})
  {
    assert f.items[key := NewEntry(key)].Keys + {} == f.items.Keys + {key};
  }

  /** There is a free slot. */
  method AppendEntry(c: Config, f: Fields, ghost g: Book, key: string) returns (f': Fields, ghost g': Book)
    requires Sound(c, f, g, {key}) && key !in f.items && |f.ring| < c.maxTracked
    ensures Sound(c, f', g', {}) && f' == Appended(f, key)
    ensures g' == g.(hist := g.hist[key := []], slot := g.slot[key := |f.ring|])
  {
    SoundAppended(c, f, g, key);
    f' := f.(ring := f.ring + [key], items := f.items[key := NewEntry(key)]);
    g' := g.(hist := g.hist[key := []], slot := g.slot[key := |f.ring|]);
  }

  /** The slot at the cursor is HOT: it gets a second chance. */
  method RefuseSlot(c: Config, f: Fields, ghost g: Book, key: string) returns (f': Fields, ghost g': Book)
    requires Sound(c, f, g, {key}) && key !in f.items && f.nextVictim < |f.ring| == c.maxTracked
    requires f.items[f.ring[f.nextVictim]].state == Hot
    ensures Sound(c, f', g', {})
    ensures f' == f.(nextVictim := NextSlot(f.nextVictim, |f.ring|), capacityDrops := f.capacityDrops + 1)
    ensures g' == g
  {
    g' := g;
    f' := f.(nextVictim := f.nextVictim + 1);
    if f'.nextVictim == |f.ring| {
      f' := f'.(nextVictim := 0);
    }
    f' := f'.(capacityDrops := f'.capacityDrops + 1);
  }

  /** The tracker with a slot taken over. */
  function Reused(f: Fields, key: string, i: nat, victim: string): Fields
    requires i < |f.ring|
  {
    f.(nextVictim := NextSlot(i, |f.ring|), evictions := f.evictions + 1, ring := f.ring[i := key],
       items := (f.items - {victim})[key := NewEntry(key)])
  }

  lemma SoundReused(c: Config, f: Fields, g: Book, key: string, i: nat, victim: string, ts: seq<Transition>)
    requires Sound(c, f, g, {key}) && key !in f.items && i == f.nextVictim < |f.ring| == c.maxTracked
    requires victim == f.ring[i] && victim in f.items && f.items[victim].state != Hot
    requires ts == Change(victim, f.items[victim].state, Cold)
    ensures Sound(c, Reused(f, key, i, victim),
                  g.(log := g.log + ts, hist := (g.hist - {victim})[key := []],
                     slot := (g.slot - {victim})[key := i]), {})
  {
    ReplaceSlot(f.ring, g.slot, f.items, i, key, NewEntry(key));
    BalancedReplace(c, f.items, g.log, f.hot, g.hist, victim, key, ts);
    ReusedAccounted(f, g, key, i, victim);
  }

  lemma ReusedAccounted(f: Fields, g: Book, key: string, i: nat, victim: string)
    requires Accounted(f, g, {key}) && i < |f.ring|
    ensures Reused(f, key, i, victim).items.Keys <= g.observed
  {
  }

  /** The victim's record is overwritten: map, ring, cursor and counters. */
  method Overwrite(f: Fields, key: string) returns (f': Fields, ts: seq<Transition>)
    requires f.nextVictim < |f.ring| && f.ring[f.nextVictim] in f.items && f.items[f.ring[f.nextVictim]].state != Hot
    ensures var victim := f.ring[f.nextVictim];
      f' == Reused(f, key, f.nextVictim, victim) && ts == Change(victim, f.items[victim].state, Cold)
  {
    var i, victim := f.nextVictim, f.ring[f.nextVictim];
    var next := i + 1;
    if next == |f.ring| {
      next := 0;
    }
    var state := f.items[victim].state;
    var hot := AdjustHot(f.hot, state, Cold);
    f' := f.(nextVictim := next, hot := hot, evictions := f.evictions + 1, ring := f.ring[i := key],
             items := (f.items - {victim})[key := NewEntry(key)]);
    ts := if state == Cold then [] else [Transition(victim, state, Cold)];
  }

  /** The slot at the cursor is not HOT: the key takes it over. */
  method ReuseSlot(c: Config, f: Fields, ghost g: Book, key: string)
    returns (f': Fields, ts: seq<Transition>, ghost g': Book)
    requires Sound(c, f, g, {key}) && key !in f.items && f.nextVictim < |f.ring| == c.maxTracked
    requires f.items[f.ring[f.nextVictim]].state != Hot
    ensures Sound(c, f', g', {})
    ensures var victim := f.ring[f.nextVictim];
      && f' == Reused(f, key, f.nextVictim, victim)
      && ts == Change(victim, f.items[victim].state, Cold)
      && g' == g.(log := g.log + ts, hist := (g.hist - {victim})[key := []],
                  slot := (g.slot - {victim})[key := f.nextVictim])
  {
    ghost var victim := f.ring[f.nextVictim];
    f', ts := Overwrite(f, key);
    SoundReused(c, f, g, key, f.nextVictim, victim, ts);
    g' := g.(log := g.log + ts, hist := (g.hist - {victim})[key := []],
             slot := (g.slot - {victim})[key := f.nextVictim]);
  }

  /** Histories once an unseen key has been given a slot, free or taken over. */
  function Admitting(c: Config, f: Fields, hist: Histories, key: string): Histories {
    if key in hist then hist
    else if |f.ring| < c.maxTracked || |f.ring| <= f.nextVictim then hist[key := []]
    else (hist - {f.ring[f.nextVictim]})[key := []]
  }

  /** The fields and the report are those of finding the key a slot. */
  ghost predicate Places(c: Config, f: Fields, key: string, f': Fields, ts: seq<Transition>) {
    f' == Placed(c, f, key) && ts == Evicted(c, f, key)
  }

  /** Finding the key a slot, and what its history becomes. It is refused exactly when it is
      unseen, the ring is full and the slot at the cursor is HOT. */
  ghost predicate FoundSlot(c: Config, f: Fields, hist: Histories, key: string, f': Fields, dropped: bool,
                            ts: seq<Transition>, hist': Histories)
  {
    && Places(c, f, key, f', ts) && (dropped <==> key !in f.items && SlotIsHot(c, f))
    && (dropped ==> key !in f'.items && f'.items == f.items && f'.ring == f.ring && hist' == hist)
    && (!dropped ==> key in f'.items && hist' == Admitting(c, f, hist, key))
  }

  lemma SoundTracked(c: Config, f: Fields, g: Book, key: string)
    requires Sound(c, f, g, {key}) && key in f.items
    ensures Sound(c, f, g, {})
  {
    assert f.items.Keys + {key} == f.items.Keys && f.items.Keys + {} == f.items.Keys;
  }

  /** The key has a slot already, or there is a free one. */
  lemma FreeFoundSlot(c: Config, f: Fields, hist: Histories, key: string)
    requires (key in hist <==> key in f.items) && (key in f.items || |f.ring| < c.maxTracked)
    ensures key in f.items ==> FoundSlot(c, f, hist, key, f, false, [], hist)
    ensures key !in f.items ==> FoundSlot(c, f, hist, key, Appended(f, key), false, [], hist[key := []])
  {
  }

  lemma RefusedFoundSlot(c: Config, f: Fields, hist: Histories, key: string)
    requires key !in f.items && SlotIsHot(c, f)
    ensures FoundSlot(c, f, hist, key,
                      f.(nextVictim := NextSlot(f.nextVictim, |f.ring|), capacityDrops := f.capacityDrops + 1),
                      true, [], hist)
  {
  }

  lemma ReusedFoundSlot(c: Config, f: Fields, hist: Histories, key: string, victim: string, ts: seq<Transition>)
    requires key !in f.items && key !in hist && f.nextVictim < |f.ring| == c.maxTracked
    requires victim == f.ring[f.nextVictim]
    requires victim in f.items && f.items[victim].state != Hot && ts == Change(victim, f.items[victim].state, Cold)
    ensures FoundSlot(c, f, hist, key, Reused(f, key, f.nextVictim, victim), false, ts, (hist - {victim})[key := []])
  {
  }

  lemma SoundHistory(c: Config, f: Fields, g: Book, key: string)
    requires Sound(c, f, g, {key})
    ensures key in g.hist <==> key in f.items
  {
  }

  /** The ring is full: one slot is inspected. */
  method InspectSlot(c: Config, f: Fields, ghost g: Book, key: string)
    returns (f': Fields, dropped: bool, ts: seq<Transition>, ghost g': Book)
    requires Sound(c, f, g, {key}) && key !in f.items && |f.ring| == c.maxTracked
    ensures Sound(c, f', g', {}) && g'.log == g.log + ts && g'.observed == g.observed
    ensures FoundSlot(c, f, g.hist, key, f', dropped, ts, g'.hist)
  {
    SoundHistory(c, f, g, key);
    if f.items[f.ring[f.nextVictim]].state == Hot {
      f', g' := RefuseSlot(c, f, g, key);
      dropped, ts := true, [];
      AppendAgain(g.log, [], []);
      RefusedFoundSlot(c, f, g.hist, key);
    } else {
      f', ts, g' := ReuseSlot(c, f, g, key);
      dropped := false;
      ReusedFoundSlot(c, f, g.hist, key, f.ring[f.nextVictim], ts);
    }
  }

  /** tracker.go getOrCreateLocked: one slot is inspected per unseen key, and a HOT
      entry is never evicted. */
  method GetOrCreate(c: Config, f: Fields, ghost g: Book, key: string)
    returns (f': Fields, dropped: bool, ts: seq<Transition>, ghost g': Book)
    requires Sound(c, f, g, {key})
    ensures Sound(c, f', g', {}) && g'.log == g.log + ts && g'.observed == g.observed
    ensures FoundSlot(c, f, g.hist, key, f', dropped, ts, g'.hist)
  {
    SoundHistory(c, f, g, key);
    AppendAgain(g.log, [], []);
    if key in f.items {
      SoundTracked(c, f, g, key);
      FreeFoundSlot(c, f, g.hist, key);
      return f, false, [], g;
    }
    if |f.ring| < c.maxTracked {
      FreeFoundSlot(c, f, g.hist, key);
      f', g' := AppendEntry(c, f, g, key);
      return f', false, [], g';
    }
    f', dropped, ts, g' := InspectSlot(c, f, g, key);
  }

  /** tracker.go commitGuaranteedPromotionLocked. */
  method CommitPromotion(c: Config, entry: Entry) returns (e: Entry, ts: seq<Transition>)
    requires ValidConfig(c)
    ensures e == Commit(c, entry) && ts == Change(entry.key, entry.state, e.state)
    ensures Path(ts, entry.key, entry.state, e.state)
  {
    if entry.state != Warm || entry.hotWindows <= 0 || entry.hotWindows + 1 < c.minWindows {
      return entry, [];
    }
    var currentRateFloor := entry.count as real / c.seconds;
    var nextScoreFloor := c.alpha * currentRateFloor + (1.0 - c.alpha) * entry.score;
    if nextScoreFloor < c.promotion {
      return entry, [];
    }
    e := entry.(state := Hot, hotWindows := entry.hotWindows + 1);
    ts := [Transition(entry.key, entry.state, e.state)];
    ChangePath(entry.key, entry.state, e.state);
  }

  /** Entries, counter and log changed; the keys did not. */
  lemma SoundKept(c: Config, f: Fields, g: Book, items: map<string, Entry>, hot: int, log: seq<Transition>,
                  hist: Histories)
    requires Ringed(c, f, g) && Accounted(f, g, {}) && items.Keys == f.items.Keys && Balanced(c, items, log, hot, hist)
    ensures Sound(c, f.(items := items, hot := hot), g.(log := log, hist := hist), {})
  {
  }

  lemma BalancedEvent(c: Config, items: map<string, Entry>, log: seq<Transition>, hot: int, hist: Histories,
                      k: string, e: Entry, ts: seq<Transition>, ev: Event, hot': int)
    requires Balanced(c, items, log, hot, hist) && k in items
    requires e == Early(c, items[k], ev) && Path(ts, k, items[k].state, e.state)
    requires hot' == hot + IsHot(e.state) - IsHot(items[k].state)
    ensures k in hist && Balanced(c, items[k := e], log + ts, hot', hist[k := hist[k] + [ev]])
  {
    assert Follows(c, items[k], k, hist[k]);
    EventKeepsKey(c, items[k], ev);
    BalancedStep(c, items, log, hot, hist, k, e, ts, ev, hot');
  }

  lemma EventKeepsKey(c: Config, e: Entry, ev: Event)
    requires ValidConfig(c)
    ensures Early(c, e, ev).key == e.key
  {
    if ev.Elapsed? {
      ElapsePath(c, e, ev.n, ev.boundary);
    }
  }

  lemma KeepsKeys(f: Fields, key: string, e: Entry)
    requires key in f.items
    ensures f.items[key := e].Keys == f.items.Keys
    ensures WithEntry(f, key, e) == f.(items := f.items[key := e],
                                       hot := f.hot + IsHot(e.state) - IsHot(f.items[key].state))
  {
  }

  /** One entry changed, and the books with it. */
  lemma SoundWith(c: Config, f: Fields, g: Book, key: string, e: Entry, items: map<string, Entry>, hot: int,
                  log: seq<Transition>, hist: Histories)
    requires Ringed(c, f, g) && Accounted(f, g, {}) && key in f.items && items == f.items[key := e]
    requires hot == f.hot + IsHot(e.state) - IsHot(f.items[key].state) && Balanced(c, items, log, hot, hist)
    ensures Sound(c, WithEntry(f, key, e), g.(log := log, hist := hist), {})
  {
    KeepsKeys(f, key, e);
    SoundKept(c, f, g, items, hot, log, hist);
  }

  lemma SoundKey(c: Config, f: Fields, g: Book, key: string)
    requires Sound(c, f, g, {}) && key in f.items
    ensures f.items[key].key == key
  {
    BalancedTidy(c, f.items, g.log, f.hot, g.hist);
  }

  /** The request is counted; the promotion is made early if it is inevitable. */
  method CountRequest(c: Config, f: Fields, ghost g: Book, key: string)
    returns (f': Fields, ts: seq<Transition>, ghost g': Book)
    requires Sound(c, f, g, {}) && key in f.items
    ensures key in g.hist && Sound(c, f', g', {})
    ensures f' == WithEntry(f, key, Seen(c, f.items[key]))
    ensures ts == Change(key, f.items[key].state, Seen(c, f.items[key]).state)
    ensures g' == g.(log := g.log + ts, hist := g.hist[key := g.hist[key] + [Request]])
  {
    SoundKey(c, f, g, key);
    var e, more := CommitPromotion(c, f.items[key].(count := f.items[key].count + 1));
    var hot := AdjustHot(f.hot, f.items[key].state, e.state);
    BalancedEvent(c, f.items, g.log, f.hot, g.hist, key, e, more, Request, hot);
    SoundWith(c, f, g, key, e, f.items[key := e], hot, g.log + more, g.hist[key := g.hist[key] + [Request]]);
    f' := f.(items := f.items[key := e], hot := hot);
    g' := g.(log := g.log + more, hist := g.hist[key := g.hist[key] + [Request]]);
    ts := more;
  }

  lemma AdvancedIsCaught(c: Config, f: Fields, g: Book, now: int, order: seq<string>, at: map<string, nat>,
                         items: map<string, Entry>, hot: int, ts: seq<Transition>, log: seq<Transition>,
                         hist: Histories, parts: seq<seq<Transition>>)
    requires Balanced(c, f.items, g.log, f.hot, g.hist) && Enumerates(order, at, f.items)
    requires Balanced(c, items, log, hot, hist)
    requires AllElapsed(c, f.items, Windows(c, f.window, now), f.window + c.window, items)
    requires Reported(c, f.items, Windows(c, f.window, now), f.window + c.window, order, parts, ts)
    ensures Caught(c, f, now, f.(window := Boundary(c, f.window, now), items := items, hot := hot), ts)
  {
    BalancedTidy(c, f.items, g.log, f.hot, g.hist);
    ReportedIsTold(c, f.items, Windows(c, f.window, now), f.window + c.window, order, at, parts, ts);
  }

  /** Elapsed windows applied to every entry. */
  method AdvanceFields(c: Config, f: Fields, ghost g: Book, now: int, order: seq<string>, ghost at: map<string, nat>)
    returns (f': Fields, ts: seq<Transition>, ghost g': Book, ghost parts: seq<seq<Transition>>)
    requires Sound(c, f, g, {}) && Enumerates(order, at, f.items)
    ensures Sound(c, f', g', {})
    ensures Caught(c, f, now, f', ts)
    ensures g' == g.(log := g.log + ts, hist := Advanced(c, g.hist, f.window, now)) && f'.items.Keys == f.items.Keys
    ensures Reported(c, f.items, Windows(c, f.window, now), f.window + c.window, order, parts, ts)
  {
    var window, items, hot, more, hist, parts' := AdvanceTo(c, f.window, f.items, f.hot, now, order, at, g.log, g.hist);
    SoundKept(c, f.(window := window), g, items, hot, g.log + more, hist);
    AdvancedIsCaught(c, f, g, now, order, at, items, hot, more, g.log + more, hist, parts');
    f' := f.(window := window, items := items, hot := hot);
    g' := g.(log := g.log + more, hist := hist);
    ts, parts := more, parts';
  }

  lemma SoundFacts(c: Config, f: Fields, g: Book)
    requires Sound(c, f, g, {})
    ensures forall k :: k in f.items ==> f.items[k].key == k
    ensures f.evictions == 0 && f.capacityDrops == 0 && f.oversized == 0 ==> f.items.Keys == g.observed
  {
    BalancedTidy(c, f.items, g.log, f.hot, g.hist);
  }

  /** The key joins the observed ones, and is refused if it is too long. */
  lemma SoundObserved(c: Config, f: Fields, g: Book, key: string)
    requires Sound(c, f, g, {}) && key != ""
    ensures Sound(c, f, g.(observed := g.observed + {key}), {key})
    ensures Sound(c, f.(oversized := f.oversized + 1), g.(observed := g.observed + {key}), {})
  {
  }

  /** A trackable key finds or is given a slot, or is refused; then it is counted. */
  method ObserveKey(c: Config, f: Fields, ghost g: Book, key: string)
    returns (f': Fields, dropped: bool, ts: seq<Transition>, ghost g': Book)
    requires Sound(c, f, g, {key})
    ensures Sound(c, f', g', {}) && g'.log == g.log + ts && g'.observed == g.observed
    ensures f' == Counted(c, f, key) && ts == CountedReport(c, f, key)
    ensures dropped <==> key !in f.items && SlotIsHot(c, f)
    ensures dropped ==> key !in f'.items && f'.items == f.items && f'.ring == f.ring && g'.hist == g.hist
    ensures !dropped ==>
      var hist := Admitting(c, f, g.hist, key);
      key in f'.items && key in hist && g'.hist == hist[key := hist[key] + [Request]]
  {
    f', dropped, ts, g' := GetOrCreate(c, f, g, key);
    if !dropped {
      var f2, promoted, g2 := CountRequest(c, f', g', key);
      AppendAgain(g.log, ts, promoted);
      f', g', ts := f2, g2, ts + promoted;
    }
  }

  /** The fields and the reply are those of an observation. */
  ghost predicate Observes(c: Config, f: Fields, key: string, f': Fields, o: Observation)
    requires ValidConfig(c)
  {
    f' == ObservedNow(c, f, key) && o == ObserveReply(c, f, key, [])
  }

  lemma UntrackableObserved(c: Config, f: Fields, key: string, f': Fields, o: Observation)
    requires ValidConfig(c) && !Trackable(key) && f' == (if key == "" then f else f.(oversized := f.oversized + 1))
    requires o == Observation([], NoState, f'.hot, false, f'.capacityDrops, key != "", f'.oversized)
    ensures Observes(c, f, key, f', o)
  {
  }

  lemma KeyObserved(c: Config, f: Fields, key: string, f': Fields, dropped: bool, ts: seq<Transition>, o: Observation)
    requires ValidConfig(c) && Trackable(key) && f' == Counted(c, f, key) && ts == CountedReport(c, f, key)
    requires dropped <==> key !in f'.items
    requires o == Observation(ts, if dropped then NoState else State(f'.items[key].state), f'.hot, dropped,
                              f'.capacityDrops, false, f'.oversized)
    ensures Observes(c, f, key, f', o)
  {
    assert [] + ts == ts;
  }

  /** An observation once elapsed windows have been applied. */
  method ObserveNow(c: Config, f: Fields, ghost g: Book, key: string)
    returns (f': Fields, o: Observation, ghost g': Book)
    requires Sound(c, f, g, {})
    ensures Sound(c, f', g', {}) && g'.log == g.log + o.transitions
    ensures Observes(c, f, key, f', o)
    ensures g'.observed == if key == "" then g.observed else g.observed + {key}
    ensures ObservedAt(c, f, g.hist, key, f', o, g'.hist)
  {
    AppendAgain(g.log, [], []);
    if key == "" {
      f', o, g' := f, Observation([], NoState, f.hot, false, f.capacityDrops, false, f.oversized), g;
      UntrackableObserved(c, f, key, f', o);
      return;
    }
    SoundObserved(c, f, g, key);
    ghost var seen := g.(observed := g.observed + {key});
    if |key| > MAX_TRACKED_KEY_BYTES {
      f', g' := f.(oversized := f.oversized + 1), seen;
      o := Observation([], NoState, f'.hot, false, f'.capacityDrops, true, f'.oversized);
      UntrackableObserved(c, f, key, f', o);
      return;
    }
    var f2, dropped, more, g2 := ObserveKey(c, f, seen, key);
    f', g' := f2, g2;
    var state := if dropped then NoState else State(f2.items[key].state);
    o := Observation(more, state, f2.hot, dropped, f2.capacityDrops, false, f2.oversized);
    KeyObserved(c, f, key, f2, dropped, more, o);
  }

  lemma ObserveCalled(c: Config, f: Fields, key: string, now: int, mid: Fields, ts: seq<Transition>, f': Fields,
                      o: Observation)
    requires ValidConfig(c) && Caught(c, f, now, mid, ts) && Observes(c, mid, key, f', o)
    ensures Called(c, f, CallObserve(key, now), Observed(o.(transitions := ts + o.transitions)), f')
  {
    var own := ObservedReport(c, mid, key);
    assert ts + ([] + own) == ts + own;
    assert Does(c, mid, ts, CallObserve(key, now), Observed(o.(transitions := ts + o.transitions)), f');
  }

  /** When a key is refused, and what its history becomes: `mid` is the tracker once the
      elapsed windows have been applied. */
  ghost predicate ObservedAt(c: Config, mid: Fields, hist: Histories, key: string, f': Fields, o: Observation,
                             hist': Histories) {
    && (o.capacityObservationDropped <==> Trackable(key) && key !in mid.items && SlotIsHot(c, mid))
    && (!Trackable(key) || o.capacityObservationDropped
        ==> o.state == NoState && f'.items == mid.items && hist' == hist)
    && (Trackable(key) && !o.capacityObservationDropped ==>
          var h := Admitting(c, mid, hist, key);
          key in f'.items && o.state == State(f'.items[key].state) && key in h && hist' == h[key := h[key] + [Request]])
  }

  /** What an observation does, `mid` being the tracker once the elapsed windows have been
      applied: fields and reply are those of the call, the current window is open, the log
      grows by what is reported, and the key joins the observed ones. */
  ghost predicate ObservedWell(c: Config, f: Fields, g: Book, key: string, now: int, mid: Fields,
                               f': Fields, o: Observation, g': Book)
    requires ValidConfig(c)
  {
    && Called(c, f, CallObserve(key, now), Observed(o), f') && (exists ts :: Caught(c, f, now, mid, ts))
    && f'.window == Boundary(c, f.window, now) && g'.log == g.log + o.transitions
    && g'.observed == (if key == "" then g.observed else g.observed + {key})
    && ObservedAt(c, mid, Advanced(c, g.hist, f.window, now), key, f', o, g'.hist)
  }

  /** tracker.go ObserveWithState: advance, then observe. */
  method Observe(c: Config, f: Fields, ghost g: Book, key: string, now: int, order: seq<string>,
                 ghost at: map<string, nat>)
    returns (f': Fields, o: Observation, ghost g': Book, ghost mid: Fields)
    requires Sound(c, f, g, {}) && Enumerates(order, at, f.items)
    ensures Sound(c, f', g', {}) && ObservedWell(c, f, g, key, now, mid, f', o, g')
  {
    var f1, ts, g1, parts := AdvanceFields(c, f, g, now, order, at);
    var f2, o2, g2 := ObserveNow(c, f1, g1, key);
    AppendAgain(g.log, ts, o2.transitions);
    ObserveCalled(c, f, key, now, f1, ts, f2, o2);
    f', o, g', mid := f2, o2.(transitions := ts + o2.transitions), g2, f1;
    CalledWindow(c, f, CallObserve(key, now), Observed(o), f');
  }

  method AdmitTracked(c: Config, f: Fields, ghost g: Book, key: string)
    returns (f': Fields, ts: seq<Transition>, ghost g': Book)
    requires Sound(c, f, g, {}) && key in f.items
    ensures key in g.hist && Sound(c, f', g', {})
    ensures f' == AdmittedNow(f, key) && ts == AdmittedReport(f, key)
    ensures g' == g.(log := g.log + ts, hist := g.hist[key := g.hist[key] + [Admission]])
  {
    SoundKey(c, f, g, key);
    var e, before := f.items[key], f.items[key].state;
    ts := [];
    if e.state != Hot {
      e := e.(state := Hot, hotWindows := 0, coolingAt := 0);
      ts := [Transition(e.key, before, e.state)];
    }
    ChangePath(key, before, e.state);
    var hot := AdjustHot(f.hot, before, e.state);
    BalancedEvent(c, f.items, g.log, f.hot, g.hist, key, e, ts, Admission, hot);
    SoundWith(c, f, g, key, e, f.items[key := e], hot, g.log + ts, g.hist[key := g.hist[key] + [Admission]]);
    f' := f.(items := f.items[key := e], hot := hot);
    g' := g.(log := g.log + ts, hist := g.hist[key := g.hist[key] + [Admission]]);
  }

  /** The fields and the reply are those of an admission. */
  ghost predicate Admits(f: Fields, key: string, f': Fields, o: Observation) {
    f' == AdmittedNow(f, key) && o == AdmitReply(f, key, [])
  }

  lemma UntrackedAdmits(f: Fields, key: string, o: Observation)
    requires key !in f.items && o == Observation([], NoState, f.hot, false, f.capacityDrops, false, f.oversized)
    ensures Admits(f, key, f, o)
  {
  }

  lemma TrackedAdmits(f: Fields, key: string, f': Fields, ts: seq<Transition>, o: Observation)
    requires key in f.items && f' == AdmittedNow(f, key) && ts == AdmittedReport(f, key)
    requires o == Observation(ts, State(f'.items[key].state), f'.hot, false, f'.capacityDrops, false, f'.oversized)
    ensures Admits(f, key, f', o) && f'.items[key].state == Hot && f'.items.Keys == f.items.Keys
  {
    assert [] + ts == ts;
  }

  lemma AdmitCalled(c: Config, f: Fields, key: string, now: int, mid: Fields, ts: seq<Transition>, f': Fields,
                    o: Observation)
    requires ValidConfig(c) && Caught(c, f, now, mid, ts) && Admits(mid, key, f', o)
    ensures Called(c, f, CallAdmit(key, now), Observed(o.(transitions := ts + o.transitions)), f')
  {
    var own := AdmittedReport(mid, key);
    assert ts + ([] + own) == ts + own;
    assert Does(c, mid, ts, CallAdmit(key, now), Observed(o.(transitions := ts + o.transitions)), f');
  }

  /** A tracked key is HOT afterwards, an untracked one is left alone. */
  ghost predicate AdmittedAt(items: map<string, Entry>, hist: Histories, key: string, f': Fields, o: Observation,
                             hist': Histories) {
    && f'.items.Keys == items.Keys
    && (key !in items ==> o.state == NoState && hist' == hist)
    && (key in items ==>
          && o.state == State(Hot) && key in f'.items && f'.items[key].state == Hot
          && key in hist && hist' == hist[key := hist[key] + [Admission]])
  }

  /** An admission once elapsed windows have been applied. */
  method AdmitNow(c: Config, f: Fields, ghost g: Book, key: string) returns (f': Fields, o: Observation, ghost g': Book)
    requires Sound(c, f, g, {})
    ensures Sound(c, f', g', {}) && g'.log == g.log + o.transitions && g'.observed == g.observed
    ensures Admits(f, key, f', o) && AdmittedAt(f.items, g.hist, key, f', o, g'.hist)
  {
    if key !in f.items {
      f', o, g' := f, Observation([], NoState, f.hot, false, f.capacityDrops, false, f.oversized), g;
      AppendAgain(g.log, [], []);
      UntrackedAdmits(f, key, o);
      return;
    }
    var f2, ts, g2 := AdmitTracked(c, f, g, key);
    f', g' := f2, g2;
    o := Observation(ts, State(f2.items[key].state), f2.hot, false, f2.capacityDrops, false, f2.oversized);
    TrackedAdmits(f, key, f2, ts, o);
  }

  /** What an admission does, in the same terms as an observation. */
  ghost predicate AdmittedWell(c: Config, f: Fields, g: Book, key: string, now: int, f': Fields, o: Observation,
                               g': Book)
    requires ValidConfig(c)
  {
    && Called(c, f, CallAdmit(key, now), Observed(o), f')
    && f'.window == Boundary(c, f.window, now) && g'.log == g.log + o.transitions && g'.observed == g.observed
    && AdmittedAt(f.items, Advanced(c, g.hist, f.window, now), key, f', o, g'.hist)
  }

  /** tracker.go Admit: promotes a tracked key without request evidence. */
  method AdmitKey(c: Config, f: Fields, ghost g: Book, key: string, now: int, order: seq<string>,
                  ghost at: map<string, nat>)
    returns (f': Fields, o: Observation, ghost g': Book)
    requires Sound(c, f, g, {}) && Enumerates(order, at, f.items)
    ensures Sound(c, f', g', {}) && AdmittedWell(c, f, g, key, now, f', o, g')
  {
    var f1, ts, g1, parts := AdvanceFields(c, f, g, now, order, at);
    var f2, o2, g2 := AdmitNow(c, f1, g1, key);
    AppendAgain(g.log, ts, o2.transitions);
    AdmitCalled(c, f, key, now, f1, ts, f2, o2);
    f', o, g' := f2, o2.(transitions := ts + o2.transitions), g2;
    CalledWindow(c, f, CallAdmit(key, now), Observed(o), f');
  }

  lemma SoundAtStart(c: Config, now: int)
    requires ValidConfig(c)
    ensures Sound(c, Fields(now, map[], [], 0, 0, 0, 0, 0), Book([], map[], {}, map[]), {})
  {
  }

  class Tracker {
    const c: Config
    var f: Fields
    ghost var g: Book

    ghost predicate Valid()
      reads this
    {
      Sound(c, f, g, {})
    }

    constructor (cfg: Config, now: int)
      requires cfg.window > 0 ==> 0.0 < cfg.seconds
      ensures c == Normalized(cfg) && f == Fields(now, map[], [], 0, 0, 0, 0, 0) && g.log == [] && g.observed == {}
      ensures Valid() <==> Usable(cfg)
    {
      if Usable(cfg) {
        SoundAtStart(Normalized(cfg), now);
      }
      c := Normalized(cfg);
      f := Fields(now, map[], [], 0, 0, 0, 0, 0);
      g := Book([], map[], {}, map[]);
    }

    method ObserveWithState(key: string, now: int, order: seq<string>, ghost at: map<string, nat>)
      returns (o: Observation, ghost mid: Fields)
      requires Valid() && Enumerates(order, at, f.items)
      modifies this
      ensures Valid() && ObservedWell(c, old(f), old(g), key, now, mid, f, o, g)
    {
      var f', o', g', mid' := Observe(c, f, g, key, now, order, at);
      f, g, o, mid := f', g', o', mid';
    }

    method Admit(key: string, now: int, order: seq<string>, ghost at: map<string, nat>) returns (o: Observation)
      requires Valid() && Enumerates(order, at, f.items)
      modifies this
      ensures Valid() && AdmittedWell(c, old(f), old(g), key, now, f, o, g)
    {
      var f', o', g' := AdmitKey(c, f, g, key, now, order, at);
      f, g, o := f', g', o';
    }

    method Advance(now: int, order: seq<string>, ghost at: map<string, nat>) returns (ts: seq<Transition>)
      requires Valid() && Enumerates(order, at, f.items)
      modifies this
      ensures Valid() && g == old(g).(log := old(g.log) + ts, hist := Advanced(c, old(g.hist), old(f.window), now))
      ensures Caught(c, old(f), now, f, ts) && Called(c, old(f), CallAdvance(now), Moved(ts), f)
    {
      var f', ts', g', parts := AdvanceFields(c, f, g, now, order, at);
      assert Does(c, f', ts', CallAdvance(now), Moved(ts'), f');
      f, g, ts := f', g', ts';
    }

    /** What the tracker answers is what replaying the log says. */
    method IsHot(key: string) returns (b: bool)
      requires Valid()
      ensures b <==> StateAfter(g.log, key) == Hot
    {
      b := key in f.items && f.items[key].state == Hot;
      var s := StateAfter(g.log, key);
    }
  }
}
