/** One guarded effect keeps the shared invariant and respects what every other
    thread relies on. */
module ServiceEffects {
  import opened ServiceState
  import opened ServiceSteps
  import opened ServiceInvariant

  // ---------------------------------------------------------------- frames

  predicate ChangesLocks(eff: Effect) {
    eff.LockMu? || eff.UnlockMu? || eff.Discharge? || eff.Seal? || eff.LockGate? || eff.UnlockGate? || eff.Track?
  }

  predicate ChangesBooks(eff: Effect) {
    eff.Bump? || eff.PurgeBump? || eff.Seal? || eff.Forget? || eff.WriteOrigin?
  }

  predicate ChangesFlights(eff: Effect) { eff.Launch? || eff.FetchDone? || eff.Finish? }

  lemma KeepsLocks(sh: Shared, me: Tid, eff: Effect)
    requires EffectOk(sh, me, eff) && !ChangesLocks(eff)
    ensures var sh' := Apply(sh, me, eff); sh'.mu == sh.mu && sh'.gate == sh.gate && sh'.pending == sh.pending
  {
  }

  lemma KeepsBooks(sh: Shared, me: Tid, eff: Effect)
    requires EffectOk(sh, me, eff) && !ChangesBooks(eff)
    ensures var sh' := Apply(sh, me, eff); sh'.hist == sh.hist && sh'.epoch == sh.epoch && sh'.origin == sh.origin
  {
  }

  lemma KeepsFlights(sh: Shared, me: Tid, eff: Effect)
    requires EffectOk(sh, me, eff) && !ChangesFlights(eff)
    ensures var sh' := Apply(sh, me, eff); sh'.flights == sh.flights && (!eff.Forget? ==> sh'.table == sh.table)
  {
  }

  // ------------------------------------------------------------------ rely

  lemma LocksRely(c: Config, sh: Shared, me: Tid, eff: Effect, o: Tid)
    requires Guard(c, sh, me, eff) && ChangesLocks(eff) && o != me
    ensures RelyLock(sh, Apply(sh, me, eff), o)
  {
  }

  lemma SameLocksRely(sh: Shared, sh': Shared, o: Tid)
    requires sh'.mu == sh.mu && sh'.gate == sh.gate && sh'.pending == sh.pending
    ensures RelyLock(sh, sh', o)
  {
  }

  lemma EffectRelyLock(c: Config, sh: Shared, me: Tid, eff: Effect, o: Tid)
    requires Guard(c, sh, me, eff) && o != me
    ensures RelyLock(sh, Apply(sh, me, eff), o)
  {
    if ChangesLocks(eff) {
      LocksRely(c, sh, me, eff, o);
    } else {
      KeepsLocks(sh, me, eff);
      SameLocksRely(sh, Apply(sh, me, eff), o);
    }
  }

  // One lemma per effect on the books: everything recorded grows, in order.

  lemma WriteOriginGrows(c: Config, sh: Shared, me: Tid, x: Key, k: Key)
    requires HistInv(c, sh, k)
    ensures var sh' := Apply(sh, me, WriteOrigin(x)); Grows(c, sh, sh', k) && HistInv(c, sh', k)
  {
  }

  lemma BumpGrows(c: Config, sh: Shared, me: Tid, i: Stripe, vis: map<Key, nat>, k: Key)
    requires HistInv(c, sh, k) && Guard(c, sh, me, Bump(i, vis))
    ensures var sh' := Apply(sh, me, Bump(i, vis)); Grows(c, sh, sh', k) && HistInv(c, sh', k)
  {
  }

  lemma PurgeBumpGrows(c: Config, sh: Shared, me: Tid, i: Stripe, k: Key)
    requires HistInv(c, sh, k)
    ensures var sh' := Apply(sh, me, PurgeBump(i)); Grows(c, sh, sh', k) && HistInv(c, sh', k)
  {
  }

  lemma SealGrows(c: Config, sh: Shared, me: Tid, x: Key, i: Stripe, clean: map<Key, nat>, bar: nat, k: Key)
    requires HistInv(c, sh, k) && Guard(c, sh, me, Seal(x, i, clean, bar))
    ensures var sh' := Apply(sh, me, Seal(x, i, clean, bar)); Grows(c, sh, sh', k) && HistInv(c, sh', k)
  {
  }

  lemma ForgetGrows(c: Config, sh: Shared, me: Tid, x: Key, served: map<Key, nat>, k: Key)
    requires HistInv(c, sh, k) && Guard(c, sh, me, Forget(x, served))
    ensures var sh' := Apply(sh, me, Forget(x, served)); Grows(c, sh, sh', k) && HistInv(c, sh', k)
  {
  }

  lemma BookGrows(c: Config, sh: Shared, me: Tid, eff: Effect, k: Key)
    requires HistInv(c, sh, k) && ChangesBooks(eff) && Guard(c, sh, me, eff)
    ensures Grows(c, sh, Apply(sh, me, eff), k) && HistInv(c, Apply(sh, me, eff), k)
  {
    match eff
    case WriteOrigin(x) => WriteOriginGrows(c, sh, me, x, k);
    case Bump(i, vis) => BumpGrows(c, sh, me, i, vis, k);
    case PurgeBump(i) => PurgeBumpGrows(c, sh, me, i, k);
    case Seal(x, i, clean, bar) => SealGrows(c, sh, me, x, i, clean, bar, k);
    case Forget(x, served) => ForgetGrows(c, sh, me, x, served, k);
  }

  lemma SameBooksGrow(c: Config, sh: Shared, sh': Shared, k: Key)
    requires HistInv(c, sh, k) && sh'.hist == sh.hist && sh'.epoch == sh.epoch && sh'.origin == sh.origin
    ensures Grows(c, sh, sh', k) && HistInv(c, sh', k)
  {
  }

  lemma EffectGrows(c: Config, sh: Shared, me: Tid, eff: Effect, k: Key)
    requires HistInv(c, sh, k) && Guard(c, sh, me, eff)
    ensures Grows(c, sh, Apply(sh, me, eff), k) && HistInv(c, Apply(sh, me, eff), k)
  {
    if ChangesBooks(eff) {
      BookGrows(c, sh, me, eff, k);
    } else {
      KeepsBooks(sh, me, eff);
      SameBooksGrow(c, sh, Apply(sh, me, eff), k);
    }
  }

  /** A pending demotion of k, in someone's list, is still in that list after an
      effect that does not discharge it. */
  lemma EffectPending(c: Config, sh: Shared, me: Tid, eff: Effect, t: Tid, k: Key)
    requires Guard(c, sh, me, eff) && k in Pending(sh, t)
    requires eff.Discharge? && t == me ==> k != Pending(sh, me)[0]
    ensures k in Pending(Apply(sh, me, eff), t)
  {
    if eff.Discharge? && t == me {
      var n :| 0 <= n < |Pending(sh, me)| && Pending(sh, me)[n] == k;
      assert Pending(sh, me)[1..][n - 1] == k;
    }
  }

  lemma EffectOwed(c: Config, sh: Shared, me: Tid, eff: Effect, o: Tid, k: Key)
    requires Guard(c, sh, me, eff) && o != me && OwnsMu(sh, o, c.stripe(k))
    ensures HotOrOwed(sh, k) ==> HotOrOwed(Apply(sh, me, eff), k)
    ensures HotOrOwedElse(sh, o, k) ==> HotOrOwedElse(Apply(sh, me, eff), o, k)
  {
    var sh' := Apply(sh, me, eff);
    if k in sh.hot {
      if k !in sh'.hot {
        assert k in sh'.pending[me];
      }
    } else {
      forall t | t in sh.pending && k in sh.pending[t] ensures t in sh'.pending && k in sh'.pending[t] {
        EffectPending(c, sh, me, eff, t, k);
      }
      EffectRelyLock(c, sh, me, eff, o);
    }
  }

  ghost predicate SteadyBooks(c: Config, sh: Shared, sh': Shared, k: Key) {
    && Epoch(c, sh', k) == Epoch(c, sh, k) && Bar(c, sh', k) == Bar(c, sh, k)
    && At(sh'.hist.clean, k) == At(sh.hist.clean, k)
  }

  lemma SealSteady(c: Config, sh: Shared, me: Tid, x: Key, i: Stripe, clean: map<Key, nat>, bar: nat, o: Tid, k: Key)
    requires Guard(c, sh, me, Seal(x, i, clean, bar)) && o != me && OwnsMu(sh, o, c.stripe(k))
    ensures SteadyBooks(c, sh, Apply(sh, me, Seal(x, i, clean, bar)), k)
  {
  }

  /** While o owns the stripe of k, no other thread's effect moves its books. */
  lemma BookSteady(c: Config, sh: Shared, me: Tid, eff: Effect, o: Tid, k: Key)
    requires Guard(c, sh, me, eff) && ChangesBooks(eff) && o != me && OwnsMu(sh, o, c.stripe(k))
    ensures SteadyBooks(c, sh, Apply(sh, me, eff), k)
  {
    match eff
    case WriteOrigin(_) =>
    case Bump(_, _) =>
    case PurgeBump(_) =>
    case Seal(x, i, clean, bar) => SealSteady(c, sh, me, x, i, clean, bar, o, k);
    case Forget(_, _) =>
  }

  lemma SameBooksSteady(c: Config, sh: Shared, sh': Shared, k: Key)
    requires sh'.hist == sh.hist && sh'.epoch == sh.epoch
    ensures SteadyBooks(c, sh, sh', k)
  {
  }

  lemma KeepsFlag(sh: Shared, me: Tid, eff: Effect)
    requires EffectOk(sh, me, eff) && !eff.SetFlag?
    ensures Apply(sh, me, eff).flag == sh.flag
  {
  }

  lemma EffectSteadyHist(c: Config, sh: Shared, me: Tid, eff: Effect, o: Tid, k: Key)
    requires Guard(c, sh, me, eff) && o != me && OwnsMu(sh, o, c.stripe(k))
    ensures SteadyBooks(c, sh, Apply(sh, me, eff), k)
    ensures c.stripe(k) in Apply(sh, me, eff).flag <==> c.stripe(k) in sh.flag
  {
    if ChangesBooks(eff) {
      BookSteady(c, sh, me, eff, o, k);
    } else {
      KeepsBooks(sh, me, eff);
      SameBooksSteady(c, sh, Apply(sh, me, eff), k);
    }
    if !eff.SetFlag? {
      KeepsFlag(sh, me, eff);
    }
  }

  ghost predicate SteadyTiers(sh: Shared, sh': Shared, k: Key) {
    && (k in sh'.prot ==> k in sh.prot && sh'.prot[k] == sh.prot[k])
    && (k in sh'.prob ==> k in sh.prob && sh'.prob[k] == sh.prob[k])
  }

  predicate ChangesTiers(eff: Effect) {
    eff.DelProt? || eff.DelProb? || eff.PutProt? || eff.PutProb? || eff.ClearProt? || eff.ClearProb?
  }

  lemma KeepsTiers(sh: Shared, me: Tid, eff: Effect)
    requires EffectOk(sh, me, eff) && !ChangesTiers(eff)
    ensures Apply(sh, me, eff).prot == sh.prot && Apply(sh, me, eff).prob == sh.prob
  {
  }

  lemma EffectSteadyTiers(c: Config, sh: Shared, me: Tid, eff: Effect, o: Tid, k: Key)
    requires Guard(c, sh, me, eff) && o != me && OwnsMu(sh, o, c.stripe(k))
    ensures SteadyTiers(sh, Apply(sh, me, eff), k)
  {
    if !ChangesTiers(eff) {
      KeepsTiers(sh, me, eff);
    }
  }

  lemma EffectSteady(c: Config, sh: Shared, me: Tid, eff: Effect, o: Tid, k: Key)
    requires Guard(c, sh, me, eff) && o != me && OwnsMu(sh, o, c.stripe(k))
    ensures Steady(c, sh, Apply(sh, me, eff), o, k)
  {
    EffectOwed(c, sh, me, eff, o, k);
    EffectSteadyHist(c, sh, me, eff, o, k);
    EffectSteadyTiers(c, sh, me, eff, o, k);
  }

  lemma BumpGate(c: Config, sh: Shared, me: Tid, i: Stripe, vis: map<Key, nat>, o: Tid, k: Key)
    requires Guard(c, sh, me, Bump(i, vis)) && o != me && OwnsGate(sh, o, c.stripe(k))
    ensures At(Apply(sh, me, Bump(i, vis)).hist.vis, k) == At(sh.hist.vis, k)
  {
  }

  lemma KeepsVis(sh: Shared, me: Tid, eff: Effect)
    requires EffectOk(sh, me, eff) && !eff.Bump?
    ensures Apply(sh, me, eff).hist.vis == sh.hist.vis
  {
  }

  lemma BookGate(c: Config, sh: Shared, me: Tid, eff: Effect, o: Tid, k: Key)
    requires Guard(c, sh, me, eff) && ChangesBooks(eff) && o != me && OwnsGate(sh, o, c.stripe(k))
    ensures At(Apply(sh, me, eff).hist.vis, k) == At(sh.hist.vis, k)
  {
    if eff.Bump? {
      BumpGate(c, sh, me, eff.i, eff.vis, o, k);
    } else {
      KeepsVis(sh, me, eff);
    }
  }

  lemma EffectGate(c: Config, sh: Shared, me: Tid, eff: Effect, o: Tid, k: Key)
    requires Guard(c, sh, me, eff) && o != me && OwnsGate(sh, o, c.stripe(k))
    ensures At(Apply(sh, me, eff).hist.vis, k) == At(sh.hist.vis, k)
  {
    if ChangesBooks(eff) {
      BookGate(c, sh, me, eff, o, k);
    } else {
      KeepsBooks(sh, me, eff);
    }
  }

  lemma FlightsRely(c: Config, sh: Shared, me: Tid, eff: Effect, o: Tid, f: Tid)
    requires Guard(c, sh, me, eff) && ChangesFlights(eff) && o != me && f in sh.flights
    ensures RelyFlight(sh, Apply(sh, me, eff), o, f)
  {
  }

  lemma EffectFlight(c: Config, sh: Shared, me: Tid, eff: Effect, o: Tid, f: Tid)
    requires Guard(c, sh, me, eff) && o != me && f in sh.flights
    ensures RelyFlight(sh, Apply(sh, me, eff), o, f)
  {
    if ChangesFlights(eff) {
      FlightsRely(c, sh, me, eff, o, f);
    } else {
      KeepsFlights(sh, me, eff);
    }
  }

  lemma BookEpoch(sh: Shared, me: Tid, eff: Effect, i: Stripe)
    requires EffectOk(sh, me, eff) && ChangesBooks(eff)
    ensures At(sh.epoch, i) <= At(Apply(sh, me, eff).epoch, i)
  {
  }

  lemma EffectEpoch(c: Config, sh: Shared, me: Tid, eff: Effect, i: Stripe)
    requires Guard(c, sh, me, eff)
    ensures At(sh.epoch, i) <= At(Apply(sh, me, eff).epoch, i)
  {
    if ChangesBooks(eff) {
      BookEpoch(sh, me, eff, i);
    } else {
      KeepsBooks(sh, me, eff);
    }
  }

  lemma EffectTime(sh: Shared, me: Tid, eff: Effect)
    requires EffectOk(sh, me, eff)
    ensures Apply(sh, me, eff).now == sh.now
  {
  }

  lemma EffectRely(c: Config, sh: Shared, me: Tid, eff: Effect, o: Tid)
    requires SharedInv(c, sh) && Guard(c, sh, me, eff) && o != me
    ensures Rely(c, sh, Apply(sh, me, eff), o)
  {
    var sh' := Apply(sh, me, eff);
    EffectTime(sh, me, eff);
    EffectRelyLock(c, sh, me, eff, o);
    forall k ensures Grows(c, sh, sh', k) {
      assert HistInv(c, sh, k);
      EffectGrows(c, sh, me, eff, k);
    }
    forall i: Stripe ensures At(sh.epoch, i) <= At(sh'.epoch, i) {
      EffectEpoch(c, sh, me, eff, i);
    }
    forall k | OwnsMu(sh, o, c.stripe(k)) ensures Steady(c, sh, sh', o, k) {
      EffectSteady(c, sh, me, eff, o, k);
    }
    forall k | OwnsGate(sh, o, c.stripe(k)) ensures At(sh'.hist.vis, k) == At(sh.hist.vis, k) {
      EffectGate(c, sh, me, eff, o, k);
    }
    forall f | f in sh.flights ensures RelyFlight(sh, sh', o, f) {
      EffectFlight(c, sh, me, eff, o, f);
    }
  }

  // ---------------------------------------------------- shared invariant

  lemma FlightsFlightInv(c: Config, sh: Shared, me: Tid, eff: Effect, f: Tid)
    requires Guard(c, sh, me, eff) && ChangesFlights(eff) && f in Apply(sh, me, eff).flights
    requires f in sh.flights ==> FlightInv(c, sh, f) && HistInv(c, sh, sh.flights[f].key)
    ensures FlightInv(c, Apply(sh, me, eff), f)
  {
  }

  lemma BumpFlightInv(c: Config, sh: Shared, me: Tid, i: Stripe, vis: map<Key, nat>, f: Tid)
    requires f in sh.flights && FlightInv(c, sh, f) && Guard(c, sh, me, Bump(i, vis))
    ensures FlightInv(c, Apply(sh, me, Bump(i, vis)), f)
  {
  }

  /** A flight stays as it should while epochs only advance. */
  lemma LaterFlightInv(c: Config, sh: Shared, sh': Shared, f: Tid)
    requires f in sh.flights && FlightInv(c, sh, f) && sh'.flights == sh.flights && sh'.hist.vis == sh.hist.vis
    requires Epoch(c, sh, sh.flights[f].key) <= Epoch(c, sh', sh.flights[f].key)
    ensures FlightInv(c, sh', f)
  {
  }

  lemma BookFlightInv(c: Config, sh: Shared, me: Tid, eff: Effect, f: Tid)
    requires f in sh.flights && FlightInv(c, sh, f) && HistInv(c, sh, sh.flights[f].key)
    requires Guard(c, sh, me, eff) && ChangesBooks(eff)
    ensures f in Apply(sh, me, eff).flights && FlightInv(c, Apply(sh, me, eff), f)
  {
    if eff.Bump? {
      BumpFlightInv(c, sh, me, eff.i, eff.vis, f);
    } else {
      KeepsVis(sh, me, eff);
      KeepsFlights(sh, me, eff);
      BookEpoch(sh, me, eff, c.stripe(sh.flights[f].key));
      LaterFlightInv(c, sh, Apply(sh, me, eff), f);
    }
  }

  lemma EffectFlightInv(c: Config, sh: Shared, me: Tid, eff: Effect, f: Tid)
    requires SharedInv(c, sh) && Guard(c, sh, me, eff) && f in Apply(sh, me, eff).flights
    ensures FlightInv(c, Apply(sh, me, eff), f)
  {
    if f in sh.flights {
      assert FlightInv(c, sh, f);
      assert HistInv(c, sh, sh.flights[f].key);
    }
    if ChangesFlights(eff) {
      FlightsFlightInv(c, sh, me, eff, f);
    } else {
      KeepsFlights(sh, me, eff);
      if ChangesBooks(eff) {
        BookFlightInv(c, sh, me, eff, f);
      } else {
        KeepsBooks(sh, me, eff);
      }
    }
  }

  lemma FlightsTableInv(c: Config, sh: Shared, me: Tid, eff: Effect, k: Key)
    requires HistInv(c, sh, k) && (k in sh.table ==> TableInv(sh, k))
    requires Guard(c, sh, me, eff) && ChangesFlights(eff) && k in Apply(sh, me, eff).table
    ensures TableInv(Apply(sh, me, eff), k)
  {
  }

  lemma ForgetTableInv(c: Config, sh: Shared, me: Tid, x: Key, served: map<Key, nat>, k: Key)
    requires k in sh.table ==> TableInv(sh, k)
    requires Guard(c, sh, me, Forget(x, served)) && k in Apply(sh, me, Forget(x, served)).table
    ensures TableInv(Apply(sh, me, Forget(x, served)), k)
  {
  }

  lemma KeepsServed(sh: Shared, me: Tid, eff: Effect)
    requires EffectOk(sh, me, eff) && !eff.Forget?
    ensures Apply(sh, me, eff).hist.served == sh.hist.served
  {
  }

  lemma BookTableInv(c: Config, sh: Shared, me: Tid, eff: Effect, k: Key)
    requires k in sh.table ==> TableInv(sh, k)
    requires Guard(c, sh, me, eff) && ChangesBooks(eff) && k in Apply(sh, me, eff).table
    ensures TableInv(Apply(sh, me, eff), k)
  {
    if eff.Forget? {
      ForgetTableInv(c, sh, me, eff.k, eff.served, k);
    } else {
      KeepsServed(sh, me, eff);
      KeepsFlights(sh, me, eff);
    }
  }

  lemma EffectTableInv(c: Config, sh: Shared, me: Tid, eff: Effect, k: Key)
    requires HistInv(c, sh, k) && (k in sh.table ==> TableInv(sh, k))
    requires Guard(c, sh, me, eff) && k in Apply(sh, me, eff).table
    ensures TableInv(Apply(sh, me, eff), k)
  {
    if ChangesFlights(eff) {
      FlightsTableInv(c, sh, me, eff, k);
    } else if ChangesBooks(eff) {
      BookTableInv(c, sh, me, eff, k);
    } else {
      KeepsFlights(sh, me, eff);
      KeepsBooks(sh, me, eff);
    }
  }

  /** A key that stops being HOT is owed by the thread that noticed. */
  lemma TrackHot(c: Config, sh: Shared, me: Tid, eff: Effect, k: Key)
    requires Guard(c, sh, me, eff) && eff.Track? && HotOrOwed(sh, k)
    ensures HotOrOwed(Apply(sh, me, eff), k)
  {
    var sh' := Apply(sh, me, eff);
    if k in sh.hot {
      if k !in sh'.hot {
        assert k in sh'.pending[me];
      }
    } else {
      var t :| t in sh.pending && k in sh.pending[t];
      EffectPending(c, sh, me, eff, t, k);
    }
  }

  /** A demotion is discharged once the key is gone, HOT again, or owed by another. */
  lemma DischargeHot(c: Config, sh: Shared, me: Tid, i: Stripe, k: Key)
    requires Guard(c, sh, me, Discharge(i)) && HotOrOwed(sh, k) && k in sh.prot
    ensures HotOrOwed(Apply(sh, me, Discharge(i)), k)
  {
    var sh' := Apply(sh, me, Discharge(i));
    if k !in sh.hot {
      if k == Pending(sh, me)[0] {
        if t :| t in sh.pending && t != me && k in sh.pending[t] {
          assert k in sh'.pending[t];
        } else {
          assert k in sh'.pending[me];
        }
      } else {
        var t :| t in sh.pending && k in sh.pending[t];
        EffectPending(c, sh, me, Discharge(i), t, k);
      }
    }
  }

  lemma KeepsOwed(sh: Shared, me: Tid, eff: Effect)
    requires EffectOk(sh, me, eff) && !eff.Track? && !eff.Discharge?
    ensures Apply(sh, me, eff).hot == sh.hot && Apply(sh, me, eff).pending == sh.pending
  {
  }

  lemma EffectTierHot(c: Config, sh: Shared, me: Tid, eff: Effect, k: Key)
    requires TierInv(c, sh, k) && Guard(c, sh, me, eff) && k in Apply(sh, me, eff).prot
    ensures HotOrOwed(Apply(sh, me, eff), k)
  {
    if eff.Track? {
      TrackHot(c, sh, me, eff, k);
    } else if eff.Discharge? {
      DischargeHot(c, sh, me, eff.i, k);
    } else {
      KeepsOwed(sh, me, eff);
    }
  }

  lemma SealGood(c: Config, sh: Shared, me: Tid, x: Key, i: Stripe, clean: map<Key, nat>, bar: nat, k: Key, e: Entry)
    requires Guard(c, sh, me, Seal(x, i, clean, bar)) && Good(c, sh, k, e)
    requires x == k ==> bar <= e.epoch && (k in clean ==> clean[k] <= e.ver)
    ensures Good(c, Apply(sh, me, Seal(x, i, clean, bar)), k, e)
  {
  }

  lemma PurgeBumpGood(c: Config, sh: Shared, me: Tid, i: Stripe, k: Key, e: Entry)
    requires Good(c, sh, k, e) && c.stripe(k) != i
    ensures Good(c, Apply(sh, me, PurgeBump(i)), k, e)
  {
  }

  lemma BookGood(c: Config, sh: Shared, me: Tid, eff: Effect, k: Key, e: Entry)
    requires HistInv(c, sh, k) && Guard(c, sh, me, eff) && ChangesBooks(eff) && Good(c, sh, k, e)
    requires eff.PurgeBump? ==> c.stripe(k) != eff.i
    requires eff.Seal? && eff.k == k ==> eff.bar <= e.epoch && (k in eff.clean ==> eff.clean[k] <= e.ver)
    ensures Good(c, Apply(sh, me, eff), k, e)
  {
    match eff
    case Seal(x, i, clean, bar) => SealGood(c, sh, me, x, i, clean, bar, k, e);
    case PurgeBump(i) => PurgeBumpGood(c, sh, me, i, k, e);
    case WriteOrigin(_) =>
    case Bump(_, _) =>
    case Forget(_, _) =>
  }

  lemma SameBooksGood(c: Config, sh: Shared, sh': Shared, k: Key, e: Entry)
    requires Good(c, sh, k, e) && sh'.hist == sh.hist && sh'.epoch == sh.epoch
    ensures Good(c, sh', k, e)
  {
  }

  lemma EffectGood(c: Config, sh: Shared, me: Tid, eff: Effect, k: Key, e: Entry)
    requires HistInv(c, sh, k) && Guard(c, sh, me, eff) && Good(c, sh, k, e)
    requires eff.PurgeBump? ==> c.stripe(k) != eff.i
    requires eff.Seal? && eff.k == k ==> eff.bar <= e.epoch && (k in eff.clean ==> eff.clean[k] <= e.ver)
    ensures Good(c, Apply(sh, me, eff), k, e)
  {
    if ChangesBooks(eff) {
      BookGood(c, sh, me, eff, k, e);
    } else {
      KeepsBooks(sh, me, eff);
      SameBooksGood(c, sh, Apply(sh, me, eff), k, e);
    }
  }

  lemma PutTierInv(c: Config, sh: Shared, me: Tid, eff: Effect, k: Key)
    requires TierInv(c, sh, k) && Guard(c, sh, me, eff) && (eff.PutProt? || eff.PutProb?)
    ensures TierInv(c, Apply(sh, me, eff), k)
  {
  }

  /** What is still there is what was there. */
  lemma StillThere(sh: Shared, me: Tid, eff: Effect, k: Key)
    requires EffectOk(sh, me, eff) && !eff.PutProt? && !eff.PutProb?
    ensures SteadyTiers(sh, Apply(sh, me, eff), k)
  {
    if !ChangesTiers(eff) {
      KeepsTiers(sh, me, eff);
    }
  }

  lemma KeptTierInv(c: Config, sh: Shared, me: Tid, eff: Effect, k: Key)
    requires HistInv(c, sh, k) && TierInv(c, sh, k) && Guard(c, sh, me, eff)
    requires SteadyTiers(sh, Apply(sh, me, eff), k)
    ensures TierInv(c, Apply(sh, me, eff), k)
  {
    var sh' := Apply(sh, me, eff);
    if k in sh'.prot {
      EffectTierHot(c, sh, me, eff, k);
      EffectGood(c, sh, me, eff, k, sh.prot[k]);
    } else if k in sh'.prob {
      EffectGood(c, sh, me, eff, k, sh.prob[k]);
    }
  }

  lemma EffectTierInv(c: Config, sh: Shared, me: Tid, eff: Effect, k: Key)
    requires HistInv(c, sh, k) && TierInv(c, sh, k) && Guard(c, sh, me, eff)
    ensures TierInv(c, Apply(sh, me, eff), k)
  {
    if eff.PutProt? || eff.PutProb? {
      PutTierInv(c, sh, me, eff, k);
    } else {
      StillThere(sh, me, eff, k);
      KeptTierInv(c, sh, me, eff, k);
    }
  }

  lemma EffectSharedInv(c: Config, sh: Shared, me: Tid, eff: Effect)
    requires SharedInv(c, sh) && Guard(c, sh, me, eff)
    ensures SharedInv(c, Apply(sh, me, eff))
  {
    var sh' := Apply(sh, me, eff);
    forall k ensures HistInv(c, sh', k) && TierInv(c, sh', k) {
      assert HistInv(c, sh, k) && TierInv(c, sh, k);
      EffectGrows(c, sh, me, eff, k);
      EffectTierInv(c, sh, me, eff, k);
    }
    forall f | f in sh'.flights ensures FlightInv(c, sh', f) {
      EffectFlightInv(c, sh, me, eff, f);
    }
    forall k | k in sh'.table ensures TableInv(sh', k) {
      assert HistInv(c, sh, k);
      EffectTableInv(c, sh, me, eff, k);
    }
  }
}
