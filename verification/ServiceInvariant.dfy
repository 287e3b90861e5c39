/** The invariant of the service in rely/guarantee form: what holds of the shared
    state (`SharedInv`), what each thread knows at its program counter
    (`ThreadInv`), what every step guarantees (`Guard`) and what a thread may
    rely on while others step (`Rely`). */
module ServiceInvariant {
  import opened ServiceState
  import opened ServiceSteps

  // ------------------------------------------------------ small vocabulary

  ghost predicate OwnsMu(sh: Shared, t: Tid, i: Stripe) { i in sh.mu && sh.mu[i] == t }
  ghost predicate OwnsGate(sh: Shared, t: Tid, i: Stripe) { i in sh.gate && sh.gate[i] == t }

  ghost function Epoch(c: Config, sh: Shared, k: Key): nat { At(sh.epoch, c.stripe(k)) }

  /** The epoch below which no refill of k may be present any more. */
  ghost function Bar(c: Config, sh: Shared, k: Key): nat {
    var a, b := At(sh.hist.keyBar, k), At(sh.hist.stripeBar, c.stripe(k));
    if a < b then b else a
  }

  /** Some thread still has to apply a transition of k out of HOT. */
  ghost predicate Owed(p: map<Tid, seq<Key>>, k: Key) {
    exists t :: t in p && k in p[t]
  }

  ghost predicate OwedElse(p: map<Tid, seq<Key>>, me: Tid, k: Key) {
    || (exists t :: t in p && t != me && k in p[t])
    || (me in p && p[me] != [] && k in p[me][1..])
  }

  ghost predicate HotOrOwed(sh: Shared, k: Key) { k in sh.hot || Owed(sh.pending, k) }
  ghost predicate HotOrOwedElse(sh: Shared, me: Tid, k: Key) { k in sh.hot || OwedElse(sh.pending, me, k) }

  ghost predicate EntryOk(c: Config, k: Key, e: Entry) {
    e.expiresAt <= e.storedAt + StoreTTL(c, k, e.pttl, e.candidate)
  }

  /** An entry of k that may be present now. */
  ghost predicate Good(c: Config, sh: Shared, k: Key, e: Entry) {
    && At(sh.hist.clean, k) <= e.ver
    && Bar(c, sh, k) <= e.epoch <= Epoch(c, sh, k)
    && EntryOk(c, k, e)
  }

  // --------------------------------------------------------- shared state

  ghost predicate HistInv(c: Config, sh: Shared, k: Key) {
    && At(sh.hist.served, k) <= At(sh.hist.clean, k) <= At(sh.hist.vis, k) <= At(sh.origin, k)
    && Bar(c, sh, k) <= Epoch(c, sh, k)
  }

  /** A flight's fetch is no older than the last barrier, unless its epoch shows
      it is outdated; a registered flight serves no reader anything too old. */
  ghost predicate FlightInv(c: Config, sh: Shared, f: Tid)
    requires f in sh.flights
  {
    var x := sh.flights[f];
    && x.epoch <= Epoch(c, sh, x.key)
    && (x.outcome.Fetched? && x.epoch == Epoch(c, sh, x.key) ==> At(sh.hist.vis, x.key) <= x.outcome.ver)
  }

  ghost predicate TableInv(sh: Shared, k: Key)
    requires k in sh.table
  {
    var f := sh.table[k];
    && f in sh.flights && sh.flights[f].key == k
    && (sh.flights[f].outcome.Fetched? ==> At(sh.hist.served, k) <= sh.flights[f].outcome.ver)
  }

  ghost predicate TierInv(c: Config, sh: Shared, k: Key) {
    && (k in sh.prot ==> Good(c, sh, k, sh.prot[k]) && HotOrOwed(sh, k) && k !in sh.prob)
    && (k in sh.prob ==> Good(c, sh, k, sh.prob[k]))
  }

  ghost predicate SharedInv(c: Config, sh: Shared) {
    && (forall k :: HistInv(c, sh, k))
    && (forall f :: f in sh.flights ==> FlightInv(c, sh, f))
    && (forall k :: k in sh.table ==> TableInv(sh, k))
    && (forall k :: TierInv(c, sh, k))
  }

  // ------------------------------------------------------------ guarantee

  ghost predicate Guard(c: Config, sh: Shared, me: Tid, eff: Effect) {
    EffectOk(sh, me, eff) &&
    match eff
    case Nop => true
    case LockMu(i) => i !in sh.mu
    case UnlockMu(i) => OwnsMu(sh, me, i)
    case DelProt(k) => OwnsMu(sh, me, c.stripe(k))
    case DelProb(k) => OwnsMu(sh, me, c.stripe(k))
    case PutProt(k, e) => OwnsMu(sh, me, c.stripe(k)) && Good(c, sh, k, e) && HotOrOwed(sh, k) && k !in sh.prob
    case PutProb(k, e) => OwnsMu(sh, me, c.stripe(k)) && Good(c, sh, k, e) && k !in sh.prot
    case ClearProt => true
    case ClearProb => true
    case SetFlag(i, _) => OwnsMu(sh, me, i)
    case Track(hot, tracked, todo) => forall k :: k in sh.hot && k !in hot ==> k in todo
    case Discharge(i) =>
      var k := Pending(sh, me)[0];
      i == c.stripe(k) && OwnsMu(sh, me, i) && (k !in sh.prot || HotOrOwedElse(sh, me, k))
    case Launch(fid, flight, register) =>
      && fid !in sh.flights && fid != me
      && flight.outcome.Unfetched? && !flight.done && flight.epoch <= Epoch(c, sh, flight.key)
    case FetchDone(outcome) =>
      && sh.flights[me].outcome.Unfetched? && !sh.flights[me].done
      && (outcome.Fetched? ==> outcome.ver == At(sh.origin, sh.flights[me].key))
    case Finish(k) => true
    case LockGate(i) => i !in sh.gate
    case UnlockGate(i) => OwnsGate(sh, me, i)
    case WriteOrigin(k) => true
    case Bump(i, vis) =>
      && OwnsMu(sh, me, i)
      && (forall k :: k in vis ==>
            c.stripe(k) == i && OwnsGate(sh, me, i) && At(sh.hist.vis, k) <= vis[k] <= At(sh.origin, k))
    case PurgeBump(i) =>
      && OwnsMu(sh, me, i) && sh.prot == map[] && sh.prob == map[]
    case Seal(k, i, clean, bar) =>
      && i == c.stripe(k) && OwnsMu(sh, me, i) && bar <= At(sh.epoch, i)
      && k !in sh.prob
      && (k in sh.prot ==> bar <= sh.prot[k].epoch)
      && (forall x :: x in clean ==>
            && x == k && OwnsGate(sh, me, i)
            && At(sh.hist.clean, k) <= clean[x] <= At(sh.hist.vis, k)
            && (k in sh.prot ==> clean[x] <= sh.prot[k].ver))
    case Forget(k, served) =>
      forall x :: x in served ==>
        x == k && OwnsGate(sh, me, c.stripe(k)) && At(sh.hist.served, k) <= served[x] <= At(sh.hist.clean, k)
  }

  // ----------------------------------------------------------------- rely

  ghost predicate RelyLock(sh: Shared, sh': Shared, o: Tid) {
    && (forall i: Stripe :: OwnsMu(sh', o, i) <==> OwnsMu(sh, o, i))
    && (forall i: Stripe :: OwnsGate(sh', o, i) <==> OwnsGate(sh, o, i))
    && Pending(sh', o) == Pending(sh, o)
  }

  /** Everything recorded about k only grows. */
  ghost predicate Grows(c: Config, sh: Shared, sh': Shared, k: Key) {
    && At(sh.origin, k) <= At(sh'.origin, k)
    && Epoch(c, sh, k) <= Epoch(c, sh', k)
    && At(sh.hist.vis, k) <= At(sh'.hist.vis, k)
    && At(sh.hist.clean, k) <= At(sh'.hist.clean, k)
    && At(sh.hist.served, k) <= At(sh'.hist.served, k)
    && Bar(c, sh, k) <= Bar(c, sh', k)
  }

  /** While o owns the stripe of k, others can only evict k, and cannot move its
      epoch, its barriers or its flag; a key that stops being HOT becomes owed. */
  ghost predicate Steady(c: Config, sh: Shared, sh': Shared, o: Tid, k: Key) {
    && (k in sh'.prot ==> k in sh.prot && sh'.prot[k] == sh.prot[k])
    && (k in sh'.prob ==> k in sh.prob && sh'.prob[k] == sh.prob[k])
    && Epoch(c, sh', k) == Epoch(c, sh, k)
    && Bar(c, sh', k) == Bar(c, sh, k)
    && At(sh'.hist.clean, k) == At(sh.hist.clean, k)
    && (c.stripe(k) in sh'.flag <==> c.stripe(k) in sh.flag)
    && (HotOrOwed(sh, k) ==> HotOrOwed(sh', k))
    && (HotOrOwedElse(sh, o, k) ==> HotOrOwedElse(sh', o, k))
  }

  ghost predicate RelyFlight(sh: Shared, sh': Shared, o: Tid, f: Tid)
    requires f in sh.flights
  {
    && f in sh'.flights
    && sh'.flights[f].key == sh.flights[f].key && sh'.flights[f].epoch == sh.flights[f].epoch
    && (f == o ==> sh'.flights[f] == sh.flights[f])
    && (sh.flights[f].outcome.Fetched? ==> sh'.flights[f].outcome == sh.flights[f].outcome)
    && (sh.flights[f].outcome.Unfetched? && sh'.flights[f].outcome.Fetched? ==>
          sh'.flights[f].outcome.ver == At(sh.origin, sh.flights[f].key))
    && (sh.flights[f].outcome.Errored? ==> sh'.flights[f].outcome.Errored?)
  }

  ghost predicate Rely(c: Config, sh: Shared, sh': Shared, o: Tid) {
    && sh.now <= sh'.now
    && RelyLock(sh, sh', o)
    && (forall k :: Grows(c, sh, sh', k))
    && (forall i: Stripe :: At(sh.epoch, i) <= At(sh'.epoch, i))
    && (forall k :: OwnsMu(sh, o, c.stripe(k)) ==> Steady(c, sh, sh', o, k))
    && (forall k :: OwnsGate(sh, o, c.stripe(k)) ==> At(sh'.hist.vis, k) == At(sh.hist.vis, k))
    && (forall f :: f in sh.flights ==> RelyFlight(sh, sh', o, f))
  }

  // -------------------------------------------------------- thread facts

  ghost predicate FlierShape(sh: Shared, t: Tid, f: Flier) {
    && t in sh.flights && sh.flights[t].key == f.key && sh.flights[t].epoch == f.epoch
    && (f.pc == FFetch ==> sh.flights[t].outcome.Unfetched?)
    && (f.pc !in {FFetch, FFinish, FEnd} ==> sh.flights[t].outcome.Fetched?)
    && (sh.flights[t].done <==> f.pc == FEnd)
  }

  ghost predicate WriterShape(c: Config, w: Writer) {
    && (forall k :: k in w.wrote ==> k in w.keys)
    && (!w.gated ==> w.wrote == map[] && w.final)
    && match w.pc
       case Gating(g) => w.next <= STRIPES && (g == Let <==> w.final) && (g != Let ==> w.gated && w.wrote == map[])
       case Invalidating(v) =>
         && w.next <= |w.keys|
         && (!w.final ==> w.wrote == map[])
         && (v != InvLock ==> w.next < |w.keys|)
         && (v in {InvProt, InvProb, InvUnlock} ==> c.stripe(w.keys[w.next]) in w.bumped)
       case Calling => w.gated && !w.final
       case Through(h) =>
         && w.gated && w.final && |w.keys| == 1 && w.keys[0] in w.wrote
         && (h in {ThProb, ThHot, ThStore, ThDel, ThUnlock} ==> c.stripe(w.keys[0]) in w.bumped)
       case Forgetting => w.next <= |w.keys| && w.final
       case Returned => w.final
       case Cancelled => w.wrote == map[]
  }

  /** Facts about a thread's own locals at each program counter. */
  ghost predicate Shape(c: Config, sh: Shared, t: Tid, th: Thread) {
    match th
    case R(r) => r.pc.Applying? && r.pc.a != Begin ==> Pending(sh, t) != []
    case F(f) => FlierShape(sh, t, f)
    case W(w) => WriterShape(c, w)
    case P(p) => p.next <= STRIPES
  }

  ghost predicate TLock(c: Config, sh: Shared, t: Tid, th: Thread) {
    && Shape(c, sh, t, th)
    && (forall i: Stripe :: OwnsMu(sh, t, i) <==> HoldsMu(c, Pending(sh, t), th, i))
    && (forall i: Stripe :: OwnsGate(sh, t, i) <==> HoldsGate(c, th, i))
  }

  /** A value found locally: fresh at the clock reading of this read, and not
      older than the writes this read must see. */
  ghost predicate Found(c: Config, r: Reader) {
    r.floor <= r.hit.ver && r.begun <= r.at < r.hit.expiresAt && EntryOk(c, r.key, r.hit)
  }

  ghost predicate ApplyInv(c: Config, sh: Shared, t: Tid, r: Reader, a: ApplyPc, then_: Then) {
    && (then_ == ThenServe ==> Found(c, r))
    && (a == DropProb ==> Pending(sh, t) != [] && Pending(sh, t)[0] !in sh.prot)
    && (a == Release ==>
          Pending(sh, t) != [] && (Pending(sh, t)[0] !in sh.prot || HotOrOwedElse(sh, t, Pending(sh, t)[0])))
  }

  ghost predicate PromoteInv(c: Config, sh: Shared, r: Reader, m: PromotePc) {
    && Found(c, r)
    && (m in {Admit, RaiseFlag, Take, Install} ==> Good(c, sh, r.key, r.hit))
    && (m in {RaiseFlag, Take, Install} ==> HotOrOwed(sh, r.key))
    && (m in {Take, Install, LowerHit, LowerMiss} ==> c.stripe(r.key) in sh.flag)
    && (m == Install ==> r.key !in sh.prob)
  }

  ghost predicate MissInv(c: Config, sh: Shared, r: Reader, x: MissPc) {
    match x
    case Join(epoch) => epoch <= Epoch(c, sh, r.key)
    case Await(f) =>
      && f in sh.flights && sh.flights[f].key == r.key
      && (sh.flights[f].outcome.Fetched? ==> r.floor <= sh.flights[f].outcome.ver)
    case _ => true
  }

  ghost predicate EndInv(c: Config, r: Reader, end: ReadEnd) {
    match end
    case ServedLocal => Found(c, r)
    case Served(out) => r.floor <= out
    case _ => true
  }

  ghost predicate PcInv(c: Config, sh: Shared, t: Tid, r: Reader) {
    match r.pc
    case Observing => true
    case Applying(a, then_) => ApplyInv(c, sh, t, r, a, then_)
    case Probing(p) => p == HitUnlock ==> Found(c, r)
    case Promoting(m) => PromoteInv(c, sh, r, m)
    case Missing(x) => MissInv(c, sh, r, x)
    case Over(end) => EndInv(c, r, end)
  }

  ghost predicate ReaderInv(c: Config, sh: Shared, t: Tid, r: Reader) {
    r.floor <= At(sh.hist.served, r.key) && r.begun <= sh.now && PcInv(c, sh, t, r)
  }

  ghost predicate FlierInv(c: Config, sh: Shared, f: Flier) {
    && (f.pc in {FGoneProt, FGoneProb, FHot, FHotDel, FHotStore, FColdDel, FColdTracked, FColdStore} ==>
          f.epoch == Epoch(c, sh, f.key))
    && (f.pc in {FHotDel, FHotStore} ==> HotOrOwed(sh, f.key))
    && (f.pc == FHotStore ==> f.key !in sh.prob)
    && (f.pc in {FColdTracked, FColdStore} ==> f.key !in sh.prot)
  }

  /** A version this command wrote: nobody else's write of k reaches a barrier
      while the gate is held. */
  ghost predicate WroteInv(c: Config, sh: Shared, w: Writer, k: Key)
    requires k in w.wrote
  {
    && w.wrote[k] <= At(sh.origin, k)
    && (HoldsGate(c, W(w), c.stripe(k)) ==> At(sh.hist.vis, k) <= w.wrote[k])
    && (w.final && c.stripe(k) in w.bumped ==> w.wrote[k] <= At(sh.hist.vis, k))
  }

  ghost predicate Cleaned(sh: Shared, w: Writer, k: Key) { k in w.wrote ==> w.wrote[k] <= At(sh.hist.clean, k) }
  ghost predicate Visible(sh: Shared, w: Writer, k: Key) { k in w.wrote ==> w.wrote[k] <= At(sh.hist.served, k) }

  ghost predicate CleanedSoFar(sh: Shared, w: Writer) {
    w.final ==> forall j :: 0 <= j < w.next && j < |w.keys| ==> Cleaned(sh, w, w.keys[j])
  }

  ghost predicate VisibleSoFar(sh: Shared, w: Writer) {
    forall j :: 0 <= j < w.next && j < |w.keys| ==> Visible(sh, w, w.keys[j])
  }

  ghost predicate InvalidateInv(sh: Shared, w: Writer, v: InvPc) {
    && CleanedSoFar(sh, w)
    && (v in {InvProb, InvUnlock} ==> w.next < |w.keys| && w.keys[w.next] !in sh.prot)
    && (v == InvUnlock ==> w.next < |w.keys| && w.keys[w.next] !in sh.prob)
  }

  ghost predicate ThroughInv(c: Config, sh: Shared, w: Writer, h: ThroughPc) {
    && w.keys != []
    && var k := w.keys[0];
       && (h in {ThProb, ThHot, ThStore, ThDel} ==> At(w.bumped, c.stripe(k)) == Epoch(c, sh, k))
       && (h in {ThHot, ThStore, ThDel, ThUnlock} ==> k !in sh.prob)
       && (h == ThStore ==> HotOrOwed(sh, k))
       && (h == ThUnlock && k in sh.prot && k in w.wrote ==>
             w.wrote[k] <= sh.prot[k].ver && At(w.bumped, c.stripe(k)) <= sh.prot[k].epoch)
  }

  ghost predicate AllCleaned(sh: Shared, w: Writer) { forall k :: k in w.wrote ==> Cleaned(sh, w, k) }
  ghost predicate AllVisible(sh: Shared, w: Writer) { forall k :: k in w.wrote ==> Visible(sh, w, k) }

  /** Where a write stands: which of its keys are behind the final barrier. */
  ghost predicate WriterPcInv(c: Config, sh: Shared, w: Writer) {
    match w.pc
    case Gating(g) => g == Let ==> AllVisible(sh, w)
    case Invalidating(v) => InvalidateInv(sh, w, v)
    case Calling => true
    case Through(h) => ThroughInv(c, sh, w, h)
    case Forgetting => AllCleaned(sh, w) && VisibleSoFar(sh, w)
    case Returned => AllVisible(sh, w)
    case Cancelled => true
  }

  ghost predicate BumpedInv(sh: Shared, w: Writer) {
    forall i :: i in w.bumped ==> w.bumped[i] <= At(sh.epoch, i)
  }

  ghost predicate AllWrote(c: Config, sh: Shared, w: Writer) {
    forall k :: k in w.wrote ==> WroteInv(c, sh, w, k)
  }

  ghost predicate WriterInv(c: Config, sh: Shared, w: Writer) {
    AllWrote(c, sh, w) && BumpedInv(sh, w) && WriterPcInv(c, sh, w)
  }

  ghost predicate PurgerInv(sh: Shared, p: Purger) {
    match p.pc
    case PProb => sh.prot == map[]
    case PBump => sh.prot == map[] && sh.prob == map[]
    case _ => true
  }

  ghost predicate ThreadInv(c: Config, sh: Shared, t: Tid, th: Thread) {
    TLock(c, sh, t, th) &&
    match th
    case R(r) => ReaderInv(c, sh, t, r)
    case F(f) => FlierInv(c, sh, f)
    case W(w) => WriterInv(c, sh, w)
    case P(p) => PurgerInv(sh, p)
  }

  ghost predicate Inv(c: Config, s: State) {
    && SharedInv(c, s.sh)
    && (forall t :: t in s.threads ==> ThreadInv(c, s.sh, t, s.threads[t]))
    && (forall f :: f in s.sh.flights ==> f in s.threads && s.threads[f].F?)
    && (forall i :: i in s.sh.mu ==> s.sh.mu[i] in s.threads)
    && (forall i :: i in s.sh.gate ==> s.sh.gate[i] in s.threads)
    && (forall t :: Pending(s.sh, t) != [] ==> t in s.threads)
  }
}
