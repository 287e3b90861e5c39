/** What a thread knows survives every step of the others. */
module ServiceStable {
  import opened ServiceState
  import opened ServiceInvariant

  lemma StableLock(c: Config, sh: Shared, sh': Shared, o: Tid, th: Thread)
    requires TLock(c, sh, o, th) && RelyLock(sh, sh', o)
    requires forall f :: f in sh.flights ==> RelyFlight(sh, sh', o, f)
    ensures TLock(c, sh', o, th)
  {
    if th.F? {
      assert RelyFlight(sh, sh', o, o);
    }
  }

  lemma StablePc(c: Config, sh: Shared, sh': Shared, o: Tid, r: Reader)
    requires PcInv(c, sh, o, r) && r.floor <= At(sh.hist.served, r.key)
    requires HistInv(c, sh, r.key) && Grows(c, sh, sh', r.key) && Pending(sh', o) == Pending(sh, o)
    requires r.pc.Applying? && r.pc.a != Begin && Pending(sh, o) != [] ==> Steady(c, sh, sh', o, Pending(sh, o)[0])
    requires r.pc.Promoting? ==> Steady(c, sh, sh', o, r.key)
    requires r.pc.Missing? && r.pc.x.Await? ==> r.pc.x.flight in sh.flights && RelyFlight(sh, sh', o, r.pc.x.flight)
    ensures PcInv(c, sh', o, r)
  {
  }

  lemma StableReader(c: Config, sh: Shared, sh': Shared, o: Tid, r: Reader)
    requires TLock(c, sh, o, R(r)) && ReaderInv(c, sh, o, r) && HistInv(c, sh, r.key) && Rely(c, sh, sh', o)
    ensures ReaderInv(c, sh', o, r)
  {
    assert Grows(c, sh, sh', r.key);
    if r.pc.Applying? && r.pc.a != Begin {
      assert HoldsMu(c, Pending(sh, o), R(r), c.stripe(Pending(sh, o)[0]));
    }
    if r.pc.Promoting? {
      assert HoldsMu(c, Pending(sh, o), R(r), c.stripe(r.key));
    }
    StablePc(c, sh, sh', o, r);
  }

  lemma StableFlier(c: Config, sh: Shared, sh': Shared, o: Tid, f: Flier)
    requires TLock(c, sh, o, F(f)) && FlierInv(c, sh, f) && Rely(c, sh, sh', o)
    ensures FlierInv(c, sh', f)
  {
    assert HoldsMu(c, Pending(sh, o), F(f), c.stripe(f.key)) ==> Steady(c, sh, sh', o, f.key);
  }

  lemma StableWrote(c: Config, sh: Shared, sh': Shared, o: Tid, w: Writer)
    requires TLock(c, sh, o, W(w)) && WriterInv(c, sh, w) && Rely(c, sh, sh', o)
    ensures forall k :: k in w.wrote ==> WroteInv(c, sh', w, k)
  {
    forall k | k in w.wrote ensures WroteInv(c, sh', w, k) {
      assert WroteInv(c, sh, w, k);
      assert Grows(c, sh, sh', k);
    }
  }

  lemma StablePass(c: Config, sh: Shared, sh': Shared, w: Writer)
    requires forall k :: Grows(c, sh, sh', k)
    ensures CleanedSoFar(sh, w) ==> CleanedSoFar(sh', w)
    ensures VisibleSoFar(sh, w) ==> VisibleSoFar(sh', w)
    ensures AllCleaned(sh, w) ==> AllCleaned(sh', w)
    ensures AllVisible(sh, w) ==> AllVisible(sh', w)
  {
    forall k
      ensures Cleaned(sh, w, k) ==> Cleaned(sh', w, k)
      ensures Visible(sh, w, k) ==> Visible(sh', w, k)
    {
      assert Grows(c, sh, sh', k);
    }
  }

  lemma StableWriterPc(c: Config, sh: Shared, sh': Shared, o: Tid, w: Writer)
    requires WriterPcInv(c, sh, w) && forall k :: Grows(c, sh, sh', k)
    requires w.pc.Invalidating? && w.pc.v != InvLock && w.next < |w.keys| ==> Steady(c, sh, sh', o, w.keys[w.next])
    requires w.pc.Through? && w.pc.h != ThLock && w.keys != [] ==> Steady(c, sh, sh', o, w.keys[0])
    ensures WriterPcInv(c, sh', w)
  {
    StablePass(c, sh, sh', w);
  }

  lemma StableWriter(c: Config, sh: Shared, sh': Shared, o: Tid, w: Writer)
    requires TLock(c, sh, o, W(w)) && WriterInv(c, sh, w) && Rely(c, sh, sh', o)
    ensures WriterInv(c, sh', w)
  {
    StableWrote(c, sh, sh', o, w);
    if w.pc.Invalidating? && w.pc.v != InvLock {
      assert HoldsMu(c, Pending(sh, o), W(w), c.stripe(w.keys[w.next]));
    }
    if w.pc.Through? && w.pc.h != ThLock {
      assert HoldsMu(c, Pending(sh, o), W(w), c.stripe(w.keys[0]));
    }
    StableWriterPc(c, sh, sh', o, w);
  }

  lemma StablePurger(c: Config, sh: Shared, sh': Shared, o: Tid, p: Purger)
    requires TLock(c, sh, o, P(p)) && PurgerInv(sh, p) && Rely(c, sh, sh', o)
    ensures PurgerInv(sh', p)
  {
    if p.pc == PProb || p.pc == PBump {
      forall k
        ensures k in sh'.prot ==> k in sh.prot
        ensures k in sh'.prob ==> k in sh.prob
      {
        assert HoldsMu(c, Pending(sh, o), P(p), c.stripe(k));
        assert Steady(c, sh, sh', o, k);
      }
      assert sh.prot == map[] ==> sh'.prot == map[];
      assert sh.prob == map[] ==> sh'.prob == map[];
    }
  }

  lemma StableThread(c: Config, sh: Shared, sh': Shared, o: Tid, th: Thread)
    requires SharedInv(c, sh) && ThreadInv(c, sh, o, th) && Rely(c, sh, sh', o)
    ensures ThreadInv(c, sh', o, th)
  {
    StableLock(c, sh, sh', o, th);
    match th
    case R(r) =>
      assert HistInv(c, sh, r.key);
      StableReader(c, sh, sh', o, r);
    case F(f) => StableFlier(c, sh, sh', o, f);
    case W(w) => StableWriter(c, sh, sh', o, w);
    case P(p) => StablePurger(c, sh, sh', o, p);
  }
}
