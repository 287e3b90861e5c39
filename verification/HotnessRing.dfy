/** How long the admission ring can refuse: runs of calls without an eviction. */
module HotnessRing {
  import opened HotnessModel
  import opened HotnessLog
  import opened HotnessPass
  import opened HotnessCalls

  /** The ring is within capacity, and the cursor within the ring. */
  predicate CursorOk(c: Config, f: Fields) {
    |f.ring| <= c.maxTracked && (f.nextVictim == 0 || f.nextVictim < |f.ring|)
  }

  /** The reply to an observation refused for lack of a slot. */
  predicate Refused(r: Reply) { r.Observed? && r.o.capacityObservationDropped }

  /** The state of the entry in a slot once the windows that have ended by `now` are
      applied; COLD if there is none. */
  function SlotState(c: Config, f: Fields, slot: nat, now: int): Heat
    requires ValidConfig(c)
  {
    if slot < |f.ring| && f.ring[slot] in f.items
    then Elapse(c, f.items[f.ring[slot]], Windows(c, f.window, now), f.window + c.window).entry.state
    else Cold
  }

  // -------------------------------------------------------------- one call

  lemma CaughtSlot(c: Config, f: Fields, now: int, mid: Fields, ts: seq<Transition>, slot: nat)
    requires ValidConfig(c) && Caught(c, f, now, mid, ts) && slot < |f.ring|
    ensures StateOf(mid.items, mid.ring[slot]) == SlotState(c, f, slot, now)
  {
    var k := f.ring[slot];
    if k in f.items {
      assert Becomes(c, f.items[k], Windows(c, f.window, now), f.window + c.window, mid.items[k]);
    }
  }

  /** What giving a key a slot does to the cursor. */
  lemma PlacedCursor(c: Config, f: Fields, key: string)
    requires ValidConfig(c) && CursorOk(c, f)
    ensures var p := Placed(c, f, key);
      && CursorOk(c, p) && f.evictions <= p.evictions
      && (key !in p.items ==>
            && |f.ring| == c.maxTracked && StateOf(f.items, f.ring[f.nextVictim]) == Hot && p.evictions == f.evictions
            && p.nextVictim == NextSlot(f.nextVictim, c.maxTracked))
      && (key in p.items && p.evictions == f.evictions ==> p.nextVictim == f.nextVictim)
  {
  }

  /** A refusal inspects the slot at the cursor, finds it HOT and moves on; without an
      eviction nothing else moves the cursor. */
  ghost predicate Moves(c: Config, f: Fields, call: Call, r: Reply, f': Fields)
    requires ValidConfig(c)
  {
    && CursorOk(c, f') && f.evictions <= f'.evictions
    && (Refused(r) ==>
          && |f.ring| == c.maxTracked && SlotState(c, f, f.nextVictim, call.now) == Hot
          && f'.nextVictim == NextSlot(f.nextVictim, c.maxTracked))
    && (!Refused(r) && f'.evictions == f.evictions ==> f'.nextVictim == f.nextVictim)
  }

  lemma ObserveMoves(c: Config, f: Fields, mid: Fields, ts: seq<Transition>, key: string, now: int)
    requires ValidConfig(c) && CursorOk(c, f) && Caught(c, f, now, mid, ts)
    ensures Moves(c, f, CallObserve(key, now), Observed(ObserveReply(c, mid, key, ts)), ObservedNow(c, mid, key))
  {
    if Trackable(key) {
      PlacedCursor(c, mid, key);
      if f.nextVictim < |f.ring| {
        CaughtSlot(c, f, now, mid, ts, f.nextVictim);
      }
    }
  }

  lemma CallMoves(c: Config, f: Fields, call: Call, r: Reply, f': Fields)
    requires ValidConfig(c) && CursorOk(c, f) && Called(c, f, call, r, f')
    ensures Moves(c, f, call, r, f')
  {
    var mid, ts :| Caught(c, f, call.now, mid, ts) && Does(c, mid, ts, call, r, f');
    if call.CallObserve? {
      ObserveMoves(c, f, mid, ts, call.key, call.now);
    }
  }

  // ------------------------------------------------------------------ runs

  lemma StepMoves(c: Config, fs: seq<Fields>, calls: seq<Call>, rs: seq<Reply>, n: nat)
    requires IsCallRun(c, fs, calls, rs) && n < |calls| && CursorOk(c, fs[n])
    ensures Moves(c, fs[n], calls[n], rs[n], fs[n + 1])
  {
    assert CallAt(c, fs, calls, rs, n);
    CallMoves(c, fs[n], calls[n], rs[n], fs[n + 1]);
  }

  lemma {:induction false} RunCursor(c: Config, fs: seq<Fields>, calls: seq<Call>, rs: seq<Reply>, i: nat, n: nat)
    requires IsCallRun(c, fs, calls, rs) && i <= n < |fs| && CursorOk(c, fs[i])
    ensures CursorOk(c, fs[n]) && fs[i].evictions <= fs[n].evictions
    decreases n
  {
    if i < n {
      RunCursor(c, fs, calls, rs, i, n - 1);
      StepMoves(c, fs, calls, rs, n - 1);
    }
  }

  /** The refusals among replies i to n. */
  function Refusals(rs: seq<Reply>, i: nat, n: nat): nat
    requires i <= n <= |rs|
    decreases n
  {
    if i == n then 0 else Refusals(rs, i, n - 1) + if Refused(rs[n - 1]) then 1 else 0
  }

  /** How many slots the cursor passes before it reaches this one. */
  function Ahead(cursor: nat, slot: nat, cap: nat): int {
    if cursor <= slot then slot - cursor else slot + cap - cursor
  }

  /** Whenever one of the replies i to n refuses, this slot is not HOT. */
  ghost predicate SlotOpen(c: Config, fs: seq<Fields>, calls: seq<Call>, rs: seq<Reply>, i: nat, n: nat, slot: nat)
    requires ValidConfig(c) && n <= |rs| && n <= |calls| && n <= |fs|
  {
    forall j {:trigger Refused(rs[j])} :: i <= j < n && Refused(rs[j]) ==>
      SlotState(c, fs[j], slot, calls[j].now) != Hot
  }

  lemma OneCloser(c: Config, f: Fields, call: Call, r: Reply, f': Fields, slot: nat)
    requires ValidConfig(c) && Moves(c, f, call, r, f') && CursorOk(c, f) && slot < c.maxTracked
    requires f'.evictions <= f.evictions && (Refused(r) ==> SlotState(c, f, slot, call.now) != Hot)
    ensures Ahead(f.nextVictim, slot, c.maxTracked)
         == Ahead(f'.nextVictim, slot, c.maxTracked) + if Refused(r) then 1 else 0
  {
  }

  /** Every refusal brings the cursor one slot closer to a slot that is not HOT. */
  lemma {:induction false} CursorApproaches(c: Config, fs: seq<Fields>, calls: seq<Call>, rs: seq<Reply>,
                                            i: nat, n: nat, slot: nat)
    requires IsCallRun(c, fs, calls, rs) && i <= n <= |calls| && CursorOk(c, fs[i]) && slot < c.maxTracked
    requires fs[n].evictions == fs[i].evictions && SlotOpen(c, fs, calls, rs, i, n, slot)
    ensures CursorOk(c, fs[n])
    ensures Refusals(rs, i, n) + Ahead(fs[n].nextVictim, slot, c.maxTracked)
         == Ahead(fs[i].nextVictim, slot, c.maxTracked)
    decreases n
  {
    if i < n {
      RunCursor(c, fs, calls, rs, i, n - 1);
      StepMoves(c, fs, calls, rs, n - 1);
      OneCloser(c, fs[n - 1], calls[n - 1], rs[n - 1], fs[n], slot);
      CursorApproaches(c, fs, calls, rs, i, n - 1, slot);
    }
  }

  lemma RefusalsBound(c: Config, fs: seq<Fields>, calls: seq<Call>, rs: seq<Reply>, i: nat, n: nat, slot: nat)
    requires IsCallRun(c, fs, calls, rs) && i <= n <= |calls| && CursorOk(c, fs[i]) && slot < c.maxTracked
    requires fs[n].evictions == fs[i].evictions && SlotOpen(c, fs, calls, rs, i, n, slot)
    ensures Refusals(rs, i, n) <= Ahead(fs[i].nextVictim, slot, c.maxTracked) <= c.maxTracked - 1
  {
    CursorApproaches(c, fs, calls, rs, i, n, slot);
  }
}
