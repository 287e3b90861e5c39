/** Deadlock freedom and conservation of the locks, for any set of writers (any
    key lists: repeated, reversed), purges, promotions and refills. */
module ServiceProgress {
  import opened ServiceState
  import opened ServiceSteps
  import opened ServiceInvariant
  import opened ServiceRuns

  ghost predicate Unfinished(th: Thread) {
    match th
    case R(r) => !r.pc.Over?
    case F(f) => f.pc != FEnd
    case W(w) => !w.pc.Returned? && !w.pc.Cancelled?
    case P(p) => p.pc != PEnd
  }

  /** The stripe mutex a thread is about to take. */
  ghost predicate WantsMu(c: Config, sh: Shared, t: Tid, th: Thread, i: Stripe) {
    match th
    case R(r) =>
      || (r.pc.Applying? && r.pc.a == Begin && Pending(sh, t) != [] && i == c.stripe(Pending(sh, t)[0]))
      || (r.pc.Probing? && r.pc.p in {WaitLock, LockKey} && i == c.stripe(r.key))
    case F(f) => f.pc == FLock && i == c.stripe(f.key)
    case W(w) =>
      || (w.pc == Invalidating(InvLock) && w.next < |w.keys| && i == c.stripe(w.keys[w.next]))
      || (w.pc == Through(ThLock) && w.keys != [] && i == c.stripe(w.keys[0]))
    case P(p) => p.pc == PLock && i == p.next
  }

  ghost predicate WantsGate(c: Config, th: Thread, i: Stripe) {
    th.W? && th.w.pc == Gating(Acquire) && i == th.w.next && Needs(c, th.w.keys, i)
  }

  /** Waiting for a lock someone holds, or for a flight that is still running. */
  ghost predicate Blocked(c: Config, sh: Shared, t: Tid, th: Thread) {
    || (exists i: Stripe :: i in sh.mu && WantsMu(c, sh, t, th, i))
    || (exists i: Stripe :: i in sh.gate && WantsGate(c, th, i))
    || WaitsForFlight(sh, th)
  }

  ghost predicate WaitsForFlight(sh: Shared, th: Thread) {
    th.R? && th.r.pc.Missing? && th.r.pc.x.Await?
        && !(th.r.pc.x.flight in sh.flights && sh.flights[th.r.pc.x.flight].done)
  }

  /** The thread can take a step, without being cancelled or timing out. */
  ghost predicate Ready(c: Config, s: State, t: Tid) {
    t in s.threads && exists ch :: Enabled(c, s, Act(t, ch)) && !ch.yes
  }

  // ----------------------------------------- an unblocked thread is ready

  lemma {:induction false} FreshTid(ts: set<Tid>) returns (t: Tid)
    ensures forall x :: x in ts ==> x < t
  {
    if ts == {} {
      t := 0;
    } else {
      var x :| x in ts;
      var y := FreshTid(ts - {x});
      t := if x < y then y else x + 1;
      assert forall z :: z in ts ==> z == x || z in ts - {x};
    }
  }

  ghost function Idle(sh: Shared, fid: Tid, key: Key): Choice {
    Choice(false, false, sh.now, 0, key, fid, sh.hot + {key}, sh.hot + {key}, [])
  }

  lemma ReaderReady(c: Config, sh: Shared, t: Tid, r: Reader, fid: Tid)
    requires ReaderInv(c, sh, t, r) && Shape(c, sh, t, R(r)) && !Blocked(c, sh, t, R(r)) && Unfinished(R(r))
    requires fid !in sh.flights
    ensures ReaderCan(c, sh, t, r, Idle(sh, fid, r.key))
  {
    match r.pc
    case Applying(a, _) =>
      if a == Begin && Pending(sh, t) != [] {
        assert WantsMu(c, sh, t, R(r), c.stripe(Pending(sh, t)[0]));
      }
    case Probing(p) =>
      if p in {WaitLock, LockKey} {
        assert WantsMu(c, sh, t, R(r), c.stripe(r.key));
      }
    case _ =>
  }

  lemma FlierReady(c: Config, sh: Shared, t: Tid, f: Flier, fid: Tid)
    requires FlierShape(sh, t, f) && !Blocked(c, sh, t, F(f)) && Unfinished(F(f))
    ensures FlierCan(c, sh, t, f, Idle(sh, fid, f.key))
  {
    if f.pc == FLock {
      assert WantsMu(c, sh, t, F(f), c.stripe(f.key));
    }
  }

  lemma WriterReady(c: Config, sh: Shared, t: Tid, w: Writer, fid: Tid, key: Key)
    requires WriterShape(c, w) && !Blocked(c, sh, t, W(w)) && Unfinished(W(w))
    ensures WriterCan(c, sh, w, Idle(sh, fid, key))
  {
    match w.pc
    case Gating(g) =>
      if g == Acquire && w.next < STRIPES && Needs(c, w.keys, w.next) {
        assert WantsGate(c, W(w), w.next);
      }
    case Invalidating(v) =>
      if v == InvLock && w.next < |w.keys| {
        assert WantsMu(c, sh, t, W(w), c.stripe(w.keys[w.next]));
      }
    case Through(h) =>
      if h == ThLock {
        assert WantsMu(c, sh, t, W(w), c.stripe(w.keys[0]));
      }
    case _ =>
  }

  lemma PurgerReady(c: Config, sh: Shared, t: Tid, p: Purger)
    requires p.next <= STRIPES && !Blocked(c, sh, t, P(p)) && Unfinished(P(p))
    ensures PurgerCan(sh, p)
  {
    if p.pc == PLock && p.next < STRIPES {
      assert WantsMu(c, sh, t, P(p), p.next);
    }
  }

  lemma UnblockedIsReady(c: Config, s: State, t: Tid)
    requires Inv(c, s) && t in s.threads && Unfinished(s.threads[t]) && !Blocked(c, s.sh, t, s.threads[t])
    ensures Ready(c, s, t)
  {
    var fid := FreshTid(s.threads.Keys);
    assert ThreadInv(c, s.sh, t, s.threads[t]);
    var key := if s.threads[t].R? then s.threads[t].r.key else if s.threads[t].F? then s.threads[t].f.key else "";
    var ch := Idle(s.sh, fid, key);
    match s.threads[t] {
      case R(r) => ReaderReady(c, s.sh, t, r, fid);
      case F(f) => FlierReady(c, s.sh, t, f, fid);
      case W(w) => WriterReady(c, s.sh, t, w, fid, key);
      case P(p) => PurgerReady(c, s.sh, t, p);
    }
    LaunchIsFresh(c, s, t, ch);
    assert Enabled(c, s, Act(t, ch));
  }

  lemma LaunchIsFresh(c: Config, s: State, t: Tid, ch: Choice)
    requires t in s.threads && Can(c, s.sh, t, s.threads[t], ch) && ch.fid !in s.threads
    ensures Spawn(Move(c, s.sh, t, s.threads[t], ch).0).Keys !! s.threads.Keys
  {
  }

  // --------------------------------------------------- someone is ready

  /** The holder of a stripe mutex waits, if at all, for a higher stripe: only a
      full purge holds one mutex while taking another. */
  lemma HolderWaitsHigher(c: Config, sh: Shared, t: Tid, th: Thread, i: Stripe)
    requires TLock(c, sh, t, th) && OwnsMu(sh, t, i) && Blocked(c, sh, t, th)
    ensures th.P? && th.p.pc == PLock && i < th.p.next < STRIPES && th.p.next in sh.mu
  {
    assert HoldsMu(c, Pending(sh, t), th, i);
  }

  lemma {:induction false} MutexHolderReady(c: Config, s: State, i: Stripe)
    requires Inv(c, s) && i in s.sh.mu
    ensures exists t :: t in s.threads && Ready(c, s, t) && exists j: Stripe :: OwnsMu(s.sh, t, j)
    decreases STRIPES - i
  {
    var t := s.sh.mu[i];
    assert OwnsMu(s.sh, t, i);
    assert ThreadInv(c, s.sh, t, s.threads[t]);
    assert HoldsMu(c, Pending(s.sh, t), s.threads[t], i);
    if Blocked(c, s.sh, t, s.threads[t]) {
      HolderWaitsHigher(c, s.sh, t, s.threads[t], i);
      MutexHolderReady(c, s, s.threads[t].p.next);
    } else {
      UnblockedIsReady(c, s, t);
    }
  }

  lemma {:induction false} GateHolderReady(c: Config, s: State, i: Stripe)
    requires Inv(c, s) && i in s.sh.gate
    ensures exists t :: t in s.threads && Ready(c, s, t) &&
              exists j: Stripe :: OwnsMu(s.sh, t, j) || OwnsGate(s.sh, t, j)
    decreases STRIPES - i
  {
    var t := s.sh.gate[i];
    var th := s.threads[t];
    assert OwnsGate(s.sh, t, i);
    assert ThreadInv(c, s.sh, t, th);
    assert HoldsGate(c, th, i);
    if j: Stripe :| j in s.sh.mu && WantsMu(c, s.sh, t, th, j) {
      MutexHolderReady(c, s, j);
    } else if j: Stripe :| j in s.sh.gate && WantsGate(c, th, j) {
      GateHolderReady(c, s, j);
    } else {
      UnblockedIsReady(c, s, t);
    }
  }

  /** Deadlock freedom: while any stripe mutex or mutation gate is held, some
      holder of a lock can step; and while any operation is unfinished, some
      operation can step (an upstream call may always return). */
  lemma NoDeadlock(c: Config, run: seq<State>, n: nat)
    requires IsRun(c, run) && n < |run|
    ensures (exists i: Stripe :: i in run[n].sh.mu || i in run[n].sh.gate) ==>
              exists t :: t in run[n].threads && Ready(c, run[n], t)
                          && exists j: Stripe :: OwnsMu(run[n].sh, t, j) || OwnsGate(run[n].sh, t, j)
    ensures (exists t :: t in run[n].threads && Unfinished(run[n].threads[t])) ==> exists t :: Ready(c, run[n], t)
  {
    RunInv(c, run, n);
    HoldersReady(c, run[n]);
    if t :| t in run[n].threads && Unfinished(run[n].threads[t]) {
      SomeoneReady(c, run[n], t);
    }
  }

  lemma HoldersReady(c: Config, s: State)
    requires Inv(c, s)
    ensures (exists i: Stripe :: i in s.sh.mu || i in s.sh.gate) ==>
              exists t :: t in s.threads && Ready(c, s, t) &&
                exists j: Stripe :: OwnsMu(s.sh, t, j) || OwnsGate(s.sh, t, j)
  {
    if i: Stripe :| i in s.sh.mu || i in s.sh.gate {
      if i in s.sh.mu {
        MutexHolderReady(c, s, i);
      } else {
        GateHolderReady(c, s, i);
      }
    }
  }

  lemma SomeoneReady(c: Config, s: State, t: Tid)
    requires Inv(c, s) && t in s.threads && Unfinished(s.threads[t])
    ensures exists o :: Ready(c, s, o)
  {
    var th := s.threads[t];
    if j: Stripe :| j in s.sh.mu && WantsMu(c, s.sh, t, th, j) {
      MutexHolderReady(c, s, j);
    } else if j: Stripe :| j in s.sh.gate && WantsGate(c, th, j) {
      GateHolderReady(c, s, j);
    } else if WaitsForFlight(s.sh, th) {
      assert ThreadInv(c, s.sh, t, th);
      FlightReady(c, s, th.r.pc.x.flight);
    } else {
      UnblockedIsReady(c, s, t);
    }
  }

  lemma FlightReady(c: Config, s: State, f: Tid)
    requires Inv(c, s) && f in s.sh.flights && !s.sh.flights[f].done
    ensures exists o :: Ready(c, s, o)
  {
    assert ThreadInv(c, s.sh, f, s.threads[f]);
    if j: Stripe :| j in s.sh.mu && WantsMu(c, s.sh, f, s.threads[f], j) {
      MutexHolderReady(c, s, j);
    } else {
      UnblockedIsReady(c, s, f);
    }
  }

  /** Gate conservation: a gate is held only by a running write that needs it (by
      one: `gate` is a map), and a write that returned or was cancelled holds no
      gate; no finished operation holds a stripe mutex. */
  lemma FinishedHoldsNothing(c: Config, run: seq<State>, n: nat, t: Tid, i: Stripe)
    requires IsRun(c, run) && n < |run| && t in run[n].threads
    ensures OwnsGate(run[n].sh, t, i) ==>
              run[n].threads[t].W? && Needs(c, run[n].threads[t].w.keys, i) && Unfinished(run[n].threads[t])
    ensures OwnsMu(run[n].sh, t, i) ==> Unfinished(run[n].threads[t])
  {
    RunInv(c, run, n);
    assert ThreadInv(c, run[n].sh, t, run[n].threads[t]);
  }
}
