/** What each call does to the tracker's fields, without iteration order, log or
    history; and that an extra Advance makes no difference to any later call. */
module HotnessCalls {
  import opened HotnessModel
  import opened HotnessEarly
  import opened HotnessHistory
  import opened HotnessLog
  import opened HotnessPass

  const MAX_TRACKED_KEY_BYTES := 1024

  /** The tracker's fields. */
  datatype Fields = Fields(
    window: int, items: map<string, Entry>, ring: seq<string>, nextVictim: nat, hot: int,
    evictions: nat, capacityDrops: nat, oversized: nat)

  datatype MaybeHeat = NoState | State(heat: Heat)

  datatype Observation = Observation(
    transitions: seq<Transition>, state: MaybeHeat, hot: int,
    capacityObservationDropped: bool, capacityDrops: nat,
    oversizedObservationDropped: bool, oversizedObservationsDropped: nat)

  /** Whole windows that have ended by `now`, counted one at a time ... */
  function Windows(c: Config, window: int, now: int): nat
    requires ValidConfig(c)
    decreases now - window
  {
    if now < window + c.window then 0 else 1 + Windows(c, window + c.window, now)
  }

  /** ... and the start of the window that is then open. */
  function Boundary(c: Config, window: int, now: int): int
    requires ValidConfig(c)
    decreases now - window
  {
    if now < window + c.window then window else Boundary(c, window + c.window, now)
  }

  lemma NoMultiple(d: int, w: int)
    requires -w < d * w < w
    ensures d == 0
  {
    assert d >= 1 ==> d * w >= w;
    assert d <= -1 ==> d * w <= -w;
  }

  lemma Quotient(a: int, w: int, q: int, r: int)
    requires 0 <= r < w && a == q * w + r
    ensures a / w == q
  {
    var q', r' := a / w, a % w;
    assert a == q' * w + r' && 0 <= r' < w;
    assert (q' - q) * w == q' * w - q * w;
    NoMultiple(q' - q, w);
  }

  lemma DivideStep(a: int, w: int)
    requires 0 < w <= a
    ensures a / w == (a - w) / w + 1 && (a - w) / w >= 0
  {
    var q, r := (a - w) / w, (a - w) % w;
    assert a - w == q * w + r;
    assert (q + 1) * w == q * w + w;
    Quotient(a, w, q + 1, r);
  }

  /** Division counts the windows, and multiplication finds the boundary. */
  lemma {:induction false} WindowsFit(c: Config, window: int, now: int)
    requires ValidConfig(c) && now >= window + c.window
    ensures Windows(c, window, now) == (now - window) / c.window >= 1
    ensures Boundary(c, window, now) == window + Windows(c, window, now) * c.window
    decreases now - window
  {
    DivideStep(now - window, c.window);
    var next := window + c.window;
    if now >= next + c.window {
      WindowsFit(c, next, now);
      var n := Windows(c, next, now);
      assert (n + 1) * c.window == n * c.window + c.window;
    } else {
      Quotient(now - window, c.window, 1, now - next);
    }
  }

  lemma {:induction false} WindowsSplit(c: Config, window: int, now1: int, now2: int)
    requires ValidConfig(c) && now1 <= now2
    ensures Windows(c, window, now2) == Windows(c, window, now1) + Windows(c, Boundary(c, window, now1), now2)
    ensures Boundary(c, window, now2) == Boundary(c, Boundary(c, window, now1), now2)
    decreases now1 - window
  {
    if now1 >= window + c.window {
      WindowsSplit(c, window + c.window, now1, now2);
    }
  }

  lemma NoWindows(c: Config, window: int, now: int)
    requires ValidConfig(c) && Windows(c, window, now) == 0
    ensures Boundary(c, window, now) == window
  {
  }

  // -------------------------------------------------------------- reports

  /** The transitions of one key, in the order reported. */
  function Of(ts: seq<Transition>, k: string): seq<Transition> {
    if ts == [] then [] else (if ts[0].key == k then [ts[0]] else []) + Of(ts[1..], k)
  }

  lemma {:induction false} OfJoin(a: seq<Transition>, b: seq<Transition>, k: string)
    ensures Of(a + b, k) == Of(a, k) + Of(b, k)
    decreases |a|
  {
    if a == [] {
      assert a + b == b;
    } else {
      assert (a + b)[1..] == a[1..] + b;
      OfJoin(a[1..], b, k);
      var head := if a[0].key == k then [a[0]] else [];
      assert head + (Of(a[1..], k) + Of(b, k)) == (head + Of(a[1..], k)) + Of(b, k);
    }
  }

  lemma {:induction false} OfPath(ts: seq<Transition>, key: string, from: Heat, to: Heat, k: string)
    requires Path(ts, key, from, to)
    ensures Of(ts, k) == if k == key then ts else []
    decreases |ts|
  {
    if ts != [] {
      OfPath(ts[1..], key, ts[0].to, to, k);
    }
  }

  /** What n elapsed windows make a key report. */
  function Told(c: Config, items: map<string, Entry>, n: nat, first: int, k: string): seq<Transition>
    requires ValidConfig(c)
  {
    if k in items then Elapse(c, items[k], n, first).log else []
  }

  lemma PartTold(c: Config, e: Entry, n: nat, first: int, k: string)
    requires ValidConfig(c)
    ensures Of(Elapse(c, e, n, first).log, k) == if k == e.key then Elapse(c, e, n, first).log else []
  {
    ElapsePath(c, e, n, first);
    OfPath(Elapse(c, e, n, first).log, e.key, e.state, Elapse(c, e, n, first).entry.state, k);
  }

  /** In any iteration order, every key's transitions are those of its own part. */
  lemma {:induction false} PartsTold(c: Config, items: map<string, Entry>, n: nat, first: int, order: seq<string>,
                                     at: map<string, nat>, parts: seq<seq<Transition>>, k: string)
    requires ValidConfig(c) && Enumerates(order, at, items) && AllReport(c, items, n, first, order, parts)
    requires forall j :: j in items ==> items[j].key == j
    ensures Of(Flatten(parts), k) == if k in at && at[k] < |parts| then Elapse(c, items[k], n, first).log else []
    decreases |parts|
  {
    if parts != [] {
      var m := |parts| - 1;
      var init, key := parts[..m], order[m];
      assert AllReport(c, items, n, first, order, init);
      PartsTold(c, items, n, first, order, at, init, k);
      OfJoin(Flatten(init), parts[m], k);
      assert Reports(c, items[key], n, first, parts[m]);
      PartTold(c, items[key], n, first, k);
      if k != key && k in at {
        Elsewhere(order, at, items, m, k);
      }
    }
  }

  // --------------------------------------------------- what the calls do

  /** Advancing to `now`: every entry goes through the elapsed windows and reports it. */
  ghost predicate Caught(c: Config, f: Fields, now: int, f': Fields, ts: seq<Transition>)
    requires ValidConfig(c)
  {
    var n, first := Windows(c, f.window, now), f.window + c.window;
    && f' == f.(window := Boundary(c, f.window, now), items := f'.items, hot := |HotKeys(f'.items)|)
    && AllElapsed(c, f.items, n, first, f'.items)
    && AllTold(c, f.items, n, first, ts)
  }

  ghost predicate AllElapsed(c: Config, items: map<string, Entry>, n: nat, first: int, items': map<string, Entry>)
    requires ValidConfig(c)
  {
    && items'.Keys == items.Keys
    && forall k {:trigger Becomes(c, items[k], n, first, items'[k])} :: k in items ==>
         Becomes(c, items[k], n, first, items'[k])
  }

  ghost predicate AllTold(c: Config, items: map<string, Entry>, n: nat, first: int, ts: seq<Transition>)
    requires ValidConfig(c)
  {
    forall k {:trigger Of(ts, k)} :: Of(ts, k) == Told(c, items, n, first, k)
  }

  predicate Trackable(key: string) { key != "" && |key| <= MAX_TRACKED_KEY_BYTES }

  ghost predicate SlotIsHot(c: Config, f: Fields) {
    && |f.ring| == c.maxTracked && f.nextVictim < |f.ring| && f.ring[f.nextVictim] in f.items
    && f.items[f.ring[f.nextVictim]].state == Hot
  }

  function NextSlot(cursor: nat, cap: nat): nat { if cursor + 1 == cap then 0 else cursor + 1 }

  /** tracker.go getOrCreateLocked: a key that has no slot is given a free one, or the one
      at the cursor unless that is HOT; the cursor moves on. */
  function Placed(c: Config, f: Fields, key: string): Fields {
    if key in f.items then f
    else if |f.ring| < c.maxTracked then f.(ring := f.ring + [key], items := f.items[key := NewEntry(key)])
    else if |f.ring| <= f.nextVictim then f
    else
      var moved := f.(nextVictim := NextSlot(f.nextVictim, |f.ring|));
      var victim := f.ring[f.nextVictim];
      if StateOf(f.items, victim) == Hot then moved.(capacityDrops := f.capacityDrops + 1)
      else moved.(evictions := f.evictions + 1, ring := f.ring[f.nextVictim := key],
                  items := (f.items - {victim})[key := NewEntry(key)])
  }

  /** The eviction it reports. */
  function Evicted(c: Config, f: Fields, key: string): seq<Transition> {
    if key in f.items || |f.ring| < c.maxTracked || |f.ring| <= f.nextVictim then []
    else
      var victim := f.ring[f.nextVictim];
      if StateOf(f.items, victim) == Hot then [] else Change(victim, StateOf(f.items, victim), Cold)
  }

  /** A tracked entry changes, and the counter with it. */
  function WithEntry(f: Fields, key: string, e: Entry): Fields {
    f.(items := f.items[key := e], hot := f.hot + IsHot(e.state) - IsHot(StateOf(f.items, key)))
  }

  /** The key is given a slot, if it gets one, and the request is counted. */
  function Counted(c: Config, f: Fields, key: string): Fields
    requires ValidConfig(c)
  {
    var p := Placed(c, f, key);
    if key in p.items then WithEntry(p, key, Seen(c, p.items[key])) else p
  }

  function CountedReport(c: Config, f: Fields, key: string): seq<Transition>
    requires ValidConfig(c)
  {
    var p := Placed(c, f, key);
    if key in p.items then Evicted(c, f, key) + Change(key, p.items[key].state, Seen(c, p.items[key]).state) else []
  }

  /** An observation, once elapsed windows have been applied. */
  function ObservedNow(c: Config, f: Fields, key: string): Fields
    requires ValidConfig(c)
  {
    if key == "" then f
    else if |key| > MAX_TRACKED_KEY_BYTES then f.(oversized := f.oversized + 1)
    else Counted(c, f, key)
  }

  function ObservedReport(c: Config, f: Fields, key: string): seq<Transition>
    requires ValidConfig(c)
  {
    if Trackable(key) then CountedReport(c, f, key) else []
  }

  function AdmittedNow(f: Fields, key: string): Fields {
    if key in f.items then WithEntry(f, key, Admitted(f.items[key])) else f
  }

  function AdmittedReport(f: Fields, key: string): seq<Transition> {
    if key in f.items then Change(key, f.items[key].state, Hot) else []
  }

  datatype Call = CallObserve(key: string, now: int) | CallAdmit(key: string, now: int) | CallAdvance(now: int)

  datatype Reply = Moved(ts: seq<Transition>) | Observed(o: Observation)

  function Transitions(r: Reply): seq<Transition> { if r.Moved? then r.ts else r.o.transitions }

  /** The keys a report says have left HOT, in order. */
  function Demoted(ts: seq<Transition>): seq<string> {
    if ts == [] then [] else (if ts[0].from == Hot then [ts[0].key] else []) + Demoted(ts[1..])
  }

  function ObserveReply(c: Config, f: Fields, key: string, ts: seq<Transition>): Observation
    requires ValidConfig(c)
  {
    var f' := ObservedNow(c, f, key);
    Observation(ts + ObservedReport(c, f, key),
                if Trackable(key) && key in f'.items then State(f'.items[key].state) else NoState,
                f'.hot, Trackable(key) && key !in f'.items, f'.capacityDrops,
                |key| > MAX_TRACKED_KEY_BYTES, f'.oversized)
  }

  function AdmitReply(f: Fields, key: string, ts: seq<Transition>): Observation {
    Observation(ts + AdmittedReport(f, key), if key in f.items then State(Hot) else NoState,
                AdmittedNow(f, key).hot, false, f.capacityDrops, false, f.oversized)
  }

  /** The part of a call that follows the advance to its clock reading. */
  ghost predicate Does(c: Config, mid: Fields, ts: seq<Transition>, call: Call, r: Reply, f': Fields)
    requires ValidConfig(c)
  {
    match call
    case CallObserve(key, _) => f' == ObservedNow(c, mid, key) && r == Observed(ObserveReply(c, mid, key, ts))
    case CallAdmit(key, _) => f' == AdmittedNow(mid, key) && r == Observed(AdmitReply(mid, key, ts))
    case CallAdvance(_) => f' == mid && r == Moved(ts)
  }

  /** ObserveWithState, Admit or Advance, from these fields, gives this reply and leaves
      those fields. */
  ghost predicate Called(c: Config, f: Fields, call: Call, r: Reply, f': Fields)
    requires ValidConfig(c)
  {
    exists mid, ts :: Caught(c, f, call.now, mid, ts) && Does(c, mid, ts, call, r, f')
  }

  /** Every call leaves the window open that contains its clock reading. */
  lemma CalledWindow(c: Config, f: Fields, call: Call, r: Reply, f': Fields)
    requires ValidConfig(c) && Called(c, f, call, r, f')
    ensures f'.window == Boundary(c, f.window, call.now)
  {
  }

  /** A run of calls: the fields before each and after the last, and the replies. */
  ghost predicate IsCallRun(c: Config, fs: seq<Fields>, calls: seq<Call>, rs: seq<Reply>) {
    && ValidConfig(c) && |rs| == |calls| && |fs| == |calls| + 1
    && forall i {:trigger CallAt(c, fs, calls, rs, i)} :: 0 <= i < |calls| ==> CallAt(c, fs, calls, rs, i)
  }

  ghost predicate CallAt(c: Config, fs: seq<Fields>, calls: seq<Call>, rs: seq<Reply>, i: nat)
    requires ValidConfig(c) && i < |rs| && i < |calls| && i + 1 < |fs|
  {
    Called(c, fs[i], calls[i], rs[i], fs[i + 1])
  }

  // -------------------------------------------- alike up to capped streaks

  ghost predicate Alike(c: Config, a: Fields, b: Fields) {
    a == b.(items := a.items) && AllSame(c, a.items, b.items)
  }

  ghost predicate AllSame(c: Config, a: map<string, Entry>, b: map<string, Entry>) {
    a.Keys == b.Keys && forall k {:trigger Same(c, a[k], b[k])} :: k in a ==> Same(c, a[k], b[k])
  }

  /** The same reply, but for the order in which different keys are reported. */
  ghost predicate Agree(a: Reply, b: Reply) {
    && (if a.Moved? then b.Moved? else b.Observed? && a.o == b.o.(transitions := a.o.transitions))
    && SameTold(Transitions(a), Transitions(b))
  }

  /** The same reply, once what an earlier advance reported is put in front. */
  ghost predicate AgreeAfter(ts: seq<Transition>, a: Reply, b: Reply) {
    && (if a.Moved? then b.Moved? else b.Observed? && a.o == b.o.(transitions := a.o.transitions))
    && SameTold(ts + Transitions(a), Transitions(b))
  }

  ghost predicate SameTold(ts: seq<Transition>, us: seq<Transition>) {
    forall k {:trigger Of(ts, k)} {:trigger Of(us, k)} :: Of(ts, k) == Of(us, k)
  }

  lemma SameAt(c: Config, a: map<string, Entry>, b: map<string, Entry>, k: string)
    requires AllSame(c, a, b)
    ensures StateOf(a, k) == StateOf(b, k) && (k in a ==> Same(c, a[k], b[k]))
  {
    if k in a {
      assert Same(c, a[k], b[k]);
    }
  }

  lemma HotAlike(c: Config, a: map<string, Entry>, b: map<string, Entry>)
    requires AllSame(c, a, b)
    ensures HotKeys(a) == HotKeys(b)
  {
    forall k ensures k in HotKeys(a) <==> k in HotKeys(b) {
      SameAt(c, a, b, k);
    }
  }

  lemma ElapsedAlike(c: Config, a: Entry, b: Entry, n: nat, first: int, a': Entry, b': Entry)
    requires ValidConfig(c) && Same(c, a, b) && Becomes(c, a, n, first, a') && Becomes(c, b, n, first, b')
    ensures Same(c, a', b') && Elapse(c, a, n, first).log == Elapse(c, b, n, first).log
  {
    ElapseSame(c, a, b, n, first);
  }

  lemma CaughtAlike(c: Config, a: Fields, b: Fields, now: int, a': Fields, ts: seq<Transition>, b': Fields,
                    us: seq<Transition>)
    requires ValidConfig(c) && Alike(c, a, b) && Caught(c, a, now, a', ts) && Caught(c, b, now, b', us)
    ensures Alike(c, a', b') && SameTold(ts, us)
  {
    var n, first := Windows(c, a.window, now), a.window + c.window;
    ItemsAlike(c, a.items, b.items, n, first, a'.items, b'.items);
    HotAlike(c, a'.items, b'.items);
    ReportsAlike(c, a.items, b.items, n, first, ts, us);
  }

  lemma ItemsAlike(c: Config, a: map<string, Entry>, b: map<string, Entry>, n: nat, first: int,
                   a': map<string, Entry>, b': map<string, Entry>)
    requires ValidConfig(c) && AllSame(c, a, b) && AllElapsed(c, a, n, first, a') && AllElapsed(c, b, n, first, b')
    ensures AllSame(c, a', b')
  {
    forall k {:trigger Same(c, a'[k], b'[k])} | k in a' ensures Same(c, a'[k], b'[k]) {
      SameAt(c, a, b, k);
      ElapsedAlike(c, a[k], b[k], n, first, a'[k], b'[k]);
    }
  }

  lemma ReportsAlike(c: Config, a: map<string, Entry>, b: map<string, Entry>, n: nat, first: int,
                     ts: seq<Transition>, us: seq<Transition>)
    requires ValidConfig(c) && AllSame(c, a, b) && AllTold(c, a, n, first, ts) && AllTold(c, b, n, first, us)
    ensures SameTold(ts, us)
  {
    forall k {:trigger Of(ts, k)} ensures Of(ts, k) == Of(us, k) {
      ToldAlike(c, a, b, n, first, k);
    }
  }

  lemma ToldAlike(c: Config, a: map<string, Entry>, b: map<string, Entry>, n: nat, first: int, k: string)
    requires ValidConfig(c) && AllSame(c, a, b)
    ensures Told(c, a, n, first, k) == Told(c, b, n, first, k)
  {
    if k in a {
      SameAt(c, a, b, k);
      ElapseSame(c, a[k], b[k], n, first);
    }
  }

  lemma WithEntryAlike(c: Config, a: Fields, b: Fields, key: string, x: Entry, y: Entry)
    requires Alike(c, a, b) && Same(c, x, y)
    ensures Alike(c, WithEntry(a, key, x), WithEntry(b, key, y))
  {
    SameAt(c, a.items, b.items, key);
    var p, q := a.items[key := x], b.items[key := y];
    forall k {:trigger Same(c, p[k], q[k])} | k in p ensures Same(c, p[k], q[k]) {
      SameAt(c, a.items, b.items, k);
    }
  }

  lemma PlacedAlike(c: Config, a: Fields, b: Fields, key: string)
    requires Alike(c, a, b)
    ensures Alike(c, Placed(c, a, key), Placed(c, b, key)) && Evicted(c, a, key) == Evicted(c, b, key)
  {
    if a.nextVictim < |a.ring| {
      SameAt(c, a.items, b.items, a.ring[a.nextVictim]);
    }
    var p, q := Placed(c, a, key).items, Placed(c, b, key).items;
    forall k {:trigger Same(c, p[k], q[k])} | k in p && k in q ensures Same(c, p[k], q[k]) {
      SameAt(c, a.items, b.items, k);
    }
  }

  lemma ObservedAlike(c: Config, a: Fields, b: Fields, key: string)
    requires ValidConfig(c) && Alike(c, a, b)
    ensures Alike(c, ObservedNow(c, a, key), ObservedNow(c, b, key))
    ensures ObservedReport(c, a, key) == ObservedReport(c, b, key)
  {
    if Trackable(key) {
      PlacedAlike(c, a, b, key);
      var p, q := Placed(c, a, key), Placed(c, b, key);
      if key in p.items {
        SameAt(c, p.items, q.items, key);
        EventSame(c, p.items[key], q.items[key], Request);
        WithEntryAlike(c, p, q, key, Seen(c, p.items[key]), Seen(c, q.items[key]));
      }
    }
  }

  lemma AdmittedAlike(c: Config, a: Fields, b: Fields, key: string)
    requires ValidConfig(c) && Alike(c, a, b)
    ensures Alike(c, AdmittedNow(a, key), AdmittedNow(b, key))
    ensures AdmittedReport(a, key) == AdmittedReport(b, key)
  {
    SameAt(c, a.items, b.items, key);
    if key in a.items {
      EventSame(c, a.items[key], b.items[key], Admission);
      WithEntryAlike(c, a, b, key, Admitted(a.items[key]), Admitted(b.items[key]));
    }
  }

  lemma SameToldMore(ts: seq<Transition>, us: seq<Transition>, more: seq<Transition>)
    requires SameTold(ts, us)
    ensures SameTold(ts + more, us + more)
  {
    forall k {:trigger Of(ts + more, k)} ensures Of(ts + more, k) == Of(us + more, k) {
      OfJoin(ts, more, k);
      OfJoin(us, more, k);
    }
  }

  /** What follows the advance does the same to fields that are alike. */
  lemma DoesAlike(c: Config, before: seq<Transition>, a: Fields, ts: seq<Transition>, b: Fields, us: seq<Transition>,
                  call: Call, r: Reply, a': Fields, q: Reply, b': Fields)
    requires ValidConfig(c) && Alike(c, a, b) && SameTold(before + ts, us)
    requires Does(c, a, ts, call, r, a') && Does(c, b, us, call, q, b')
    ensures Alike(c, a', b') && AgreeAfter(before, r, q)
  {
    match call
    case CallObserve(key, _) =>
      ObservedAlike(c, a, b, key);
      SameAt(c, a'.items, b'.items, key);
      SameToldMore(before + ts, us, ObservedReport(c, a, key));
      assert before + ts + ObservedReport(c, a, key) == before + (ts + ObservedReport(c, a, key));
    case CallAdmit(key, _) =>
      AdmittedAlike(c, a, b, key);
      SameToldMore(before + ts, us, AdmittedReport(a, key));
      assert before + ts + AdmittedReport(a, key) == before + (ts + AdmittedReport(a, key));
    case CallAdvance(_) =>
  }

  lemma CalledAlike(c: Config, a: Fields, b: Fields, call: Call, r: Reply, a': Fields, q: Reply, b': Fields)
    requires ValidConfig(c) && Alike(c, a, b) && Called(c, a, call, r, a') && Called(c, b, call, q, b')
    ensures Alike(c, a', b') && Agree(r, q)
  {
    var mid, ts :| Caught(c, a, call.now, mid, ts) && Does(c, mid, ts, call, r, a');
    var mid', us :| Caught(c, b, call.now, mid', us) && Does(c, mid', us, call, q, b');
    CaughtAlike(c, a, b, call.now, mid, ts, mid', us);
    assert [] + ts == ts && [] + Transitions(r) == Transitions(r);
    DoesAlike(c, [], mid, ts, mid', us, call, r, a', q, b');
  }

  /** The same replies to calls i to n. */
  ghost predicate AgreeFrom(rs: seq<Reply>, qs: seq<Reply>, i: nat, n: nat)
    requires n <= |rs| && n <= |qs|
  {
    forall j {:trigger Agree(rs[j], qs[j])} :: i <= j < n ==> Agree(rs[j], qs[j])
  }

  /** Two runs of the same calls, alike at call i, stay alike and give the same replies. */
  lemma {:induction false} RunsAlike(c: Config, fs: seq<Fields>, rs: seq<Reply>, gs: seq<Fields>, qs: seq<Reply>,
                                     calls: seq<Call>, i: nat, n: nat)
    requires IsCallRun(c, fs, calls, rs) && IsCallRun(c, gs, calls, qs) && i <= n <= |calls| && Alike(c, fs[i], gs[i])
    ensures Alike(c, fs[n], gs[n]) && AgreeFrom(rs, qs, i, n)
    decreases n
  {
    if i < n {
      RunsAlike(c, fs, rs, gs, qs, calls, i, n - 1);
      assert CallAt(c, fs, calls, rs, n - 1) && CallAt(c, gs, calls, qs, n - 1);
      CalledAlike(c, fs[n - 1], gs[n - 1], calls[n - 1], rs[n - 1], fs[n], qs[n - 1], gs[n]);
    }
  }

  // ------------------------------------------------------ an extra advance

  lemma BoundaryAt(c: Config, window: int, now: int)
    requires ValidConfig(c)
    ensures Boundary(c, window, now) == window + Windows(c, window, now) * c.window
  {
    if now < window + c.window {
      NoWindows(c, window, now);
    } else {
      WindowsFit(c, window, now);
    }
  }

  /** One entry, advanced in two goes or one. */
  lemma EntryTwice(c: Config, e: Entry, m: nat, n: nat, first: int, next: int, e1: Entry, e2: Entry, e3: Entry)
    requires ValidConfig(c) && next == first + m * c.window
    requires Becomes(c, e, m, first, e1) && Becomes(c, e1, n, next, e2) && Becomes(c, e, m + n, first, e3)
    ensures Same(c, e2, e3)
    ensures Elapse(c, e, m, first).log + Elapse(c, e1, n, next).log == Elapse(c, e, m + n, first).log
  {
    ExtraAdvance(c, e, m, n, first);
    ElapseSame(c, e1, Elapse(c, e, m, first).entry, n, next);
  }

  lemma ToldTwice(c: Config, f: map<string, Entry>, f1: map<string, Entry>, m: nat, n: nat, first: int, next: int,
                  k: string)
    requires ValidConfig(c) && next == first + m * c.window && AllElapsed(c, f, m, first, f1)
    ensures Told(c, f, m, first, k) + Told(c, f1, n, next, k) == Told(c, f, m + n, first, k)
  {
    if k in f {
      assert Becomes(c, f[k], m, first, f1[k]);
      EntryTwice(c, f[k], m, n, first, next, f1[k], Elapse(c, f1[k], n, next).entry,
                 Elapse(c, f[k], m + n, first).entry);
    }
  }

  lemma ReportsTwice(c: Config, f: map<string, Entry>, f1: map<string, Entry>, m: nat, n: nat, first: int, next: int,
                     ts: seq<Transition>, us: seq<Transition>, vs: seq<Transition>)
    requires ValidConfig(c) && next == first + m * c.window && AllElapsed(c, f, m, first, f1)
    requires AllTold(c, f, m, first, ts) && AllTold(c, f1, n, next, us) && AllTold(c, f, m + n, first, vs)
    ensures SameTold(ts + us, vs)
  {
    forall k {:trigger Of(ts + us, k)} ensures Of(ts + us, k) == Of(vs, k) {
      OfJoin(ts, us, k);
      ToldTwice(c, f, f1, m, n, first, next, k);
    }
  }

  lemma ItemsTwice(c: Config, f: map<string, Entry>, f1: map<string, Entry>, f2: map<string, Entry>,
                   f3: map<string, Entry>, m: nat, n: nat, first: int, next: int)
    requires ValidConfig(c) && next == first + m * c.window
    requires AllElapsed(c, f, m, first, f1) && AllElapsed(c, f1, n, next, f2) && AllElapsed(c, f, m + n, first, f3)
    ensures AllSame(c, f2, f3)
  {
    forall k {:trigger Same(c, f2[k], f3[k])} | k in f2 ensures Same(c, f2[k], f3[k]) {
      assert Becomes(c, f[k], m, first, f1[k]) && Becomes(c, f1[k], n, next, f2[k])
          && Becomes(c, f[k], m + n, first, f3[k]);
      EntryTwice(c, f[k], m, n, first, next, f1[k], f2[k], f3[k]);
    }
  }

  /** Advancing to now1 and then to now2 is advancing to now2. */
  lemma CaughtTwice(c: Config, f: Fields, now1: int, f1: Fields, ts: seq<Transition>, now2: int, f2: Fields,
                    us: seq<Transition>, f3: Fields, vs: seq<Transition>)
    requires ValidConfig(c) && now1 <= now2
    requires Caught(c, f, now1, f1, ts) && Caught(c, f1, now2, f2, us) && Caught(c, f, now2, f3, vs)
    ensures Alike(c, f2, f3) && SameTold(ts + us, vs)
  {
    var m, n := Windows(c, f.window, now1), Windows(c, f1.window, now2);
    WindowsSplit(c, f.window, now1, now2);
    BoundaryAt(c, f.window, now1);
    var first, next := f.window + c.window, f1.window + c.window;
    ItemsTwice(c, f.items, f1.items, f2.items, f3.items, m, n, first, next);
    HotAlike(c, f2.items, f3.items);
    ReportsTwice(c, f.items, f1.items, m, n, first, next, ts, us, vs);
  }

  /** The first call after an extra Advance. */
  lemma CallAfterAdvance(c: Config, f: Fields, now: int, f1: Fields, ts: seq<Transition>, call: Call,
                         r: Reply, a': Fields, q: Reply, b': Fields)
    requires ValidConfig(c) && Caught(c, f, now, f1, ts) && now <= call.now
    requires Called(c, f1, call, r, a') && Called(c, f, call, q, b')
    ensures Alike(c, a', b') && AgreeAfter(ts, r, q)
  {
    var mid, us :| Caught(c, f1, call.now, mid, us) && Does(c, mid, us, call, r, a');
    var mid', vs :| Caught(c, f, call.now, mid', vs) && Does(c, mid', vs, call, q, b');
    CaughtTwice(c, f, now, f1, ts, call.now, mid, us, mid', vs);
    DoesAlike(c, ts, mid, us, mid', vs, call, r, a', q, b');
  }

  /** An extra Advance changes nothing. Whatever calls follow, on whatever keys, refused,
      evicting or not: from the first of them on the fields are alike and the replies the
      same; only what the extra Advance reported is missing from the first reply. */
  lemma ExtraAdvanceCall(c: Config, f: Fields, now: int, ts: seq<Transition>, calls: seq<Call>,
                         fs: seq<Fields>, rs: seq<Reply>, gs: seq<Fields>, qs: seq<Reply>, n: nat)
    requires IsCallRun(c, fs, calls, rs) && IsCallRun(c, gs, calls, qs) && 1 <= n <= |calls|
    requires gs[0] == f && Caught(c, f, now, fs[0], ts) && now <= calls[0].now
    ensures Alike(c, fs[n], gs[n]) && AgreeAfter(ts, rs[0], qs[0])
    ensures AgreeFrom(rs, qs, 1, n)
  {
    assert CallAt(c, fs, calls, rs, 0) && CallAt(c, gs, calls, qs, 0);
    CallAfterAdvance(c, f, now, fs[0], ts, calls[0], rs[0], fs[1], qs[0], gs[1]);
    RunsAlike(c, fs, rs, gs, qs, calls, 1, n);
  }
}
