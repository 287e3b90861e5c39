/** Each thread's own step meets the guarantee and leads to what the thread
    knows at its next program counter. */
module ServiceLocal {
  import opened ServiceState
  import opened ServiceSteps
  import opened ServiceInvariant
  import opened ServiceEffects

  // ----------------------------------------------------------- ownership

  ghost predicate MuAfter(eff: Effect, i: Stripe, before: bool) {
    match eff
    case LockMu(j) => i == j || before
    case UnlockMu(j) => i != j && before
    case Discharge(j) => i != j && before
    case Seal(_, j, _, _) => i != j && before
    case _ => before
  }

  ghost predicate GateAfter(eff: Effect, i: Stripe, before: bool) {
    match eff
    case LockGate(j) => i == j || before
    case UnlockGate(j) => i != j && before
    case _ => before
  }

  lemma OwnsAfterLock(sh: Shared, me: Tid, eff: Effect, i: Stripe)
    requires EffectOk(sh, me, eff) && ChangesLocks(eff)
    ensures OwnsMu(Apply(sh, me, eff), me, i) <==> MuAfter(eff, i, OwnsMu(sh, me, i))
  {
  }

  lemma OwnsAfterGate(sh: Shared, me: Tid, eff: Effect, i: Stripe)
    requires EffectOk(sh, me, eff) && ChangesLocks(eff)
    ensures OwnsGate(Apply(sh, me, eff), me, i) <==> GateAfter(eff, i, OwnsGate(sh, me, i))
  {
  }

  lemma OwnsAfter(sh: Shared, me: Tid, eff: Effect, i: Stripe)
    requires EffectOk(sh, me, eff)
    ensures OwnsMu(Apply(sh, me, eff), me, i) <==> MuAfter(eff, i, OwnsMu(sh, me, i))
    ensures OwnsGate(Apply(sh, me, eff), me, i) <==> GateAfter(eff, i, OwnsGate(sh, me, i))
  {
    if ChangesLocks(eff) {
      OwnsAfterLock(sh, me, eff, i);
      OwnsAfterGate(sh, me, eff, i);
    } else {
      KeepsLocks(sh, me, eff);
    }
  }

  /** The demotions the acting thread still owes after its step. */
  ghost function Todo(sh: Shared, me: Tid, eff: Effect): seq<Key> {
    match eff
    case Track(_, _, todo) => Pending(sh, me) + todo
    case Discharge(_) => if Pending(sh, me) == [] then [] else Pending(sh, me)[1..]
    case _ => Pending(sh, me)
  }

  lemma TodoAfter(sh: Shared, me: Tid, eff: Effect)
    requires EffectOk(sh, me, eff)
    ensures Pending(Apply(sh, me, eff), me) == Todo(sh, me, eff)
  {
  }

  /** Program counter and effect agree on what is held. */
  ghost predicate Agree(c: Config, sh: Shared, me: Tid, th: Thread, eff: Effect, th': Thread, i: Stripe) {
    && (HoldsMu(c, Todo(sh, me, eff), th', i) <==> MuAfter(eff, i, HoldsMu(c, Pending(sh, me), th, i)))
    && (HoldsGate(c, th', i) <==> GateAfter(eff, i, HoldsGate(c, th, i)))
  }

  lemma LockAfter(c: Config, sh: Shared, me: Tid, th: Thread, eff: Effect, th': Thread)
    requires TLock(c, sh, me, th) && EffectOk(sh, me, eff) && Shape(c, Apply(sh, me, eff), me, th')
    requires forall i: Stripe :: Agree(c, sh, me, th, eff, th', i)
    ensures TLock(c, Apply(sh, me, eff), me, th')
  {
    var sh' := Apply(sh, me, eff);
    TodoAfter(sh, me, eff);
    forall i: Stripe
      ensures OwnsMu(sh', me, i) <==> HoldsMu(c, Pending(sh', me), th', i)
      ensures OwnsGate(sh', me, i) <==> HoldsGate(c, th', i)
    {
      assert Agree(c, sh, me, th, eff, th', i);
      OwnsAfter(sh, me, eff, i);
    }
  }

  lemma ApplyAgree(c: Config, sh: Shared, me: Tid, r: Reader, a: ApplyPc, then_: Then, eff: Effect, r': Reader,
                   i: Stripe)
    requires r.pc == Applying(a, then_) && ApplyCan(c, sh, me, a) && ApplyMove(c, sh, me, r, a, then_) == (eff, r')
    ensures Agree(c, sh, me, R(r), eff, R(r'), i)
  {
  }

  lemma ProbeAgree(c: Config, sh: Shared, me: Tid, r: Reader, p: ProbePc, ch: Choice, eff: Effect, r': Reader,
                   i: Stripe)
    requires r.pc == Probing(p) && ProbeMove(c, sh, r, p, ch) == (eff, r')
    ensures Agree(c, sh, me, R(r), eff, R(r'), i)
  {
  }

  lemma PromoteAgree(c: Config, sh: Shared, me: Tid, r: Reader, m: PromotePc, ch: Choice, eff: Effect, r': Reader,
                     i: Stripe)
    requires r.pc == Promoting(m) && PromoteMove(c, r, m, ch) == (eff, r')
    ensures Agree(c, sh, me, R(r), eff, R(r'), i)
  {
  }

  lemma MissAgree(c: Config, sh: Shared, me: Tid, r: Reader, ch: Choice, eff: Effect, r': Reader, i: Stripe)
    requires r.pc.Observing? || r.pc.Missing?
    requires ReaderCan(c, sh, me, r, ch) && ReaderMove(c, sh, me, r, ch) == (eff, r')
    ensures Agree(c, sh, me, R(r), eff, R(r'), i)
  {
  }

  lemma ReaderAgree(c: Config, sh: Shared, me: Tid, r: Reader, ch: Choice, eff: Effect, r': Reader, i: Stripe)
    requires ReaderCan(c, sh, me, r, ch) && ReaderMove(c, sh, me, r, ch) == (eff, r')
    ensures Agree(c, sh, me, R(r), eff, R(r'), i)
  {
    match r.pc
    case Applying(a, then_) => ApplyAgree(c, sh, me, r, a, then_, eff, r', i);
    case Probing(p) => ProbeAgree(c, sh, me, r, p, ch, eff, r', i);
    case Promoting(m) => PromoteAgree(c, sh, me, r, m, ch, eff, r', i);
    case _ => MissAgree(c, sh, me, r, ch, eff, r', i);
  }

  lemma ApplyShapeAfter(c: Config, sh: Shared, me: Tid, r: Reader, a: ApplyPc, then_: Then, eff: Effect, r': Reader)
    requires ApplyCan(c, sh, me, a) && ApplyMove(c, sh, me, r, a, then_) == (eff, r')
    ensures EffectOk(sh, me, eff) && Shape(c, Apply(sh, me, eff), me, R(r'))
  {
  }

  /** A reader that is not applying demotions, or about to apply the first one. */
  ghost predicate Idle(pc: ReadPc) { pc.Applying? ==> pc.a == Begin }

  lemma ObserveIdle(c: Config, r: Reader, ch: Choice)
    ensures Idle(ObserveMove(c, r, ch).1.pc) && !ObserveMove(c, r, ch).0.Discharge?
  {
  }

  lemma ProbeIdle(c: Config, sh: Shared, r: Reader, p: ProbePc, ch: Choice)
    ensures Idle(ProbeMove(c, sh, r, p, ch).1.pc)
  {
  }

  lemma PromoteIdle(c: Config, r: Reader, m: PromotePc, ch: Choice)
    ensures Idle(PromoteMove(c, r, m, ch).1.pc)
  {
  }

  lemma MissIdle(c: Config, sh: Shared, r: Reader, x: MissPc, ch: Choice)
    ensures Idle(MissMove(c, sh, r, x, ch).1.pc)
  {
  }

  lemma ReaderShapeAfter(c: Config, sh: Shared, me: Tid, r: Reader, ch: Choice, eff: Effect, r': Reader)
    requires ReaderCan(c, sh, me, r, ch) && ReaderMove(c, sh, me, r, ch) == (eff, r') && EffectOk(sh, me, eff)
    ensures Shape(c, Apply(sh, me, eff), me, R(r'))
  {
    match r.pc
    case Observing => ObserveIdle(c, r, ch);
    case Applying(a, then_) => ApplyShapeAfter(c, sh, me, r, a, then_, eff, r');
    case Probing(p) => ProbeIdle(c, sh, r, p, ch);
    case Promoting(m) => PromoteIdle(c, r, m, ch);
    case Missing(x) => MissIdle(c, sh, r, x, ch);
  }

  lemma FlierAgree(c: Config, sh: Shared, me: Tid, f: Flier, ch: Choice, eff: Effect, f': Flier, i: Stripe)
    requires FlierCan(c, sh, me, f, ch) && FlierMove(c, sh, me, f, ch) == (eff, f')
    ensures Agree(c, sh, me, F(f), eff, F(f'), i)
  {
  }

  lemma FlierShapeAfter(c: Config, sh: Shared, me: Tid, f: Flier, ch: Choice, eff: Effect, f': Flier)
    requires FlierCan(c, sh, me, f, ch) && FlierShape(sh, me, f) && FlierMove(c, sh, me, f, ch) == (eff, f')
    ensures EffectOk(sh, me, eff) && FlierShape(Apply(sh, me, eff), me, f')
  {
  }

  lemma GateAgree(c: Config, sh: Shared, me: Tid, w: Writer, g: GatePc, ch: Choice, eff: Effect, w': Writer, i: Stripe)
    requires w.pc == Gating(g) && GateCan(c, sh, w, g, ch) && WriterShape(c, w)
    requires GateMove(c, sh, w, g, ch) == (eff, w')
    ensures Agree(c, sh, me, W(w), eff, W(w'), i) && EffectOk(sh, me, eff) && WriterShape(c, w')
  {
  }

  lemma InvalidateAgree(c: Config, sh: Shared, me: Tid, w: Writer, v: InvPc, eff: Effect, w': Writer, i: Stripe)
    requires w.pc == Invalidating(v) && InvalidateCan(c, sh, w, v) && WriterShape(c, w)
    requires InvalidateMove(c, sh, w, v) == (eff, w')
    ensures Agree(c, sh, me, W(w), eff, W(w'), i) && EffectOk(sh, me, eff) && WriterShape(c, w')
  {
  }

  lemma ThroughAgree(c: Config, sh: Shared, me: Tid, w: Writer, h: ThroughPc, ch: Choice, eff: Effect, w': Writer,
                     i: Stripe)
    requires w.pc == Through(h) && ThroughCan(c, sh, w, h, ch) && WriterShape(c, w)
    requires ThroughMove(c, sh, w, h, ch) == (eff, w')
    ensures Agree(c, sh, me, W(w), eff, W(w'), i) && EffectOk(sh, me, eff) && WriterShape(c, w')
  {
  }

  lemma CallAgree(c: Config, sh: Shared, me: Tid, w: Writer, ch: Choice, eff: Effect, w': Writer, i: Stripe)
    requires w.pc == Calling || w.pc == Forgetting
    requires WriterCan(c, sh, w, ch) && WriterShape(c, w) && WriterMove(c, sh, w, ch) == (eff, w')
    ensures Agree(c, sh, me, W(w), eff, W(w'), i) && EffectOk(sh, me, eff) && WriterShape(c, w')
  {
  }

  lemma WriterAgree(c: Config, sh: Shared, me: Tid, w: Writer, ch: Choice, eff: Effect, w': Writer, i: Stripe)
    requires WriterCan(c, sh, w, ch) && WriterShape(c, w) && WriterMove(c, sh, w, ch) == (eff, w')
    ensures Agree(c, sh, me, W(w), eff, W(w'), i) && EffectOk(sh, me, eff) && WriterShape(c, w')
  {
    match w.pc
    case Gating(g) => GateAgree(c, sh, me, w, g, ch, eff, w', i);
    case Invalidating(v) => InvalidateAgree(c, sh, me, w, v, eff, w', i);
    case Through(h) => ThroughAgree(c, sh, me, w, h, ch, eff, w', i);
    case _ => CallAgree(c, sh, me, w, ch, eff, w', i);
  }

  lemma PurgerAgree(c: Config, sh: Shared, me: Tid, p: Purger, eff: Effect, p': Purger, i: Stripe)
    requires PurgerCan(sh, p) && PurgerMove(sh, p) == (eff, p') && p.next <= STRIPES
    ensures Agree(c, sh, me, P(p), eff, P(p'), i)
    ensures EffectOk(sh, me, eff) && p'.next <= STRIPES
  {
  }

  // ------------------------------------------------------------- readers

  lemma ObserveStep(c: Config, sh: Shared, me: Tid, r: Reader, ch: Choice, eff: Effect, r': Reader)
    requires ObserveCan(c, sh, r, ch) && ObserveMove(c, r, ch) == (eff, r')
    ensures Guard(c, sh, me, eff) && PcInv(c, Apply(sh, me, eff), me, r')
  {
  }

  lemma ApplyStep(c: Config, sh: Shared, me: Tid, r: Reader, a: ApplyPc, then_: Then, eff: Effect, r': Reader)
    requires ApplyCan(c, sh, me, a) && ApplyInv(c, sh, me, r, a, then_)
    requires a != Begin ==> OwnsMu(sh, me, c.stripe(Pending(sh, me)[0]))
    requires ApplyMove(c, sh, me, r, a, then_) == (eff, r')
    ensures Guard(c, sh, me, eff) && PcInv(c, Apply(sh, me, eff), me, r')
  {
  }

  lemma ProbeStep(c: Config, sh: Shared, me: Tid, r: Reader, p: ProbePc, ch: Choice, eff: Effect, r': Reader)
    requires ProbeCan(c, sh, r, p, ch) && (p == HitUnlock ==> Found(c, r)) && r.floor <= At(sh.hist.served, r.key)
    requires HistInv(c, sh, r.key) && TierInv(c, sh, r.key)
    requires p in {HitUnlock, MissUnlock} ==> OwnsMu(sh, me, c.stripe(r.key))
    requires ProbeMove(c, sh, r, p, ch) == (eff, r')
    ensures Guard(c, sh, me, eff) && PcInv(c, Apply(sh, me, eff), me, r')
  {
  }

  lemma PromoteGuard(c: Config, sh: Shared, me: Tid, r: Reader, m: PromotePc, ch: Choice, eff: Effect, r': Reader)
    requires PromoteCan(sh, r, m, ch) && PromoteInv(c, sh, r, m) && OwnsMu(sh, me, c.stripe(r.key))
    requires PromoteMove(c, r, m, ch) == (eff, r')
    ensures Guard(c, sh, me, eff)
  {
  }

  lemma PromoteIn(c: Config, sh: Shared, me: Tid, r: Reader, m: PromotePc, ch: Choice, eff: Effect, r': Reader)
    requires PromoteInv(c, sh, r, m) && PromoteMove(c, r, m, ch) == (eff, r') && m in {Admit, RaiseFlag, Take, Install}
    requires EffectOk(sh, me, eff)
    ensures PcInv(c, Apply(sh, me, eff), me, r')
  {
  }

  lemma PromoteOut(c: Config, sh: Shared, me: Tid, r: Reader, m: PromotePc, ch: Choice, eff: Effect, r': Reader)
    requires PromoteInv(c, sh, r, m) && PromoteMove(c, r, m, ch) == (eff, r') && m !in {Admit, RaiseFlag, Take, Install}
    requires EffectOk(sh, me, eff)
    ensures PcInv(c, Apply(sh, me, eff), me, r')
  {
  }

  lemma PromoteStep(c: Config, sh: Shared, me: Tid, r: Reader, m: PromotePc, ch: Choice, eff: Effect, r': Reader)
    requires PromoteCan(sh, r, m, ch) && PromoteInv(c, sh, r, m) && OwnsMu(sh, me, c.stripe(r.key))
    requires PromoteMove(c, r, m, ch) == (eff, r')
    ensures Guard(c, sh, me, eff) && PcInv(c, Apply(sh, me, eff), me, r')
  {
    PromoteGuard(c, sh, me, r, m, ch, eff, r');
    if m in {Admit, RaiseFlag, Take, Install} {
      PromoteIn(c, sh, me, r, m, ch, eff, r');
    } else {
      PromoteOut(c, sh, me, r, m, ch, eff, r');
    }
  }

  lemma MissStep(c: Config, sh: Shared, me: Tid, r: Reader, x: MissPc, ch: Choice, eff: Effect, r': Reader)
    requires MissCan(sh, r, x, ch) && MissInv(c, sh, r, x) && r.floor <= At(sh.hist.served, r.key)
    requires eff.Launch? ==> eff.fid != me
    requires HistInv(c, sh, r.key) && TierInv(c, sh, r.key) && (r.key in sh.table ==> TableInv(sh, r.key))
    requires MissMove(c, sh, r, x, ch) == (eff, r')
    ensures Guard(c, sh, me, eff) && PcInv(c, Apply(sh, me, eff), me, r')
  {
  }

  lemma ReaderStep(c: Config, sh: Shared, me: Tid, r: Reader, ch: Choice, eff: Effect, r': Reader)
    requires SharedInv(c, sh) && ThreadInv(c, sh, me, R(r)) && ReaderCan(c, sh, me, r, ch)
    requires ReaderMove(c, sh, me, r, ch) == (eff, r') && (eff.Launch? ==> eff.fid != me)
    ensures Guard(c, sh, me, eff) && PcInv(c, Apply(sh, me, eff), me, r')
  {
    assert HistInv(c, sh, r.key) && TierInv(c, sh, r.key);
    match r.pc
    case Observing => ObserveStep(c, sh, me, r, ch, eff, r');
    case Applying(a, then_) =>
      if a != Begin {
        assert HoldsMu(c, Pending(sh, me), R(r), c.stripe(Pending(sh, me)[0]));
      }
      ApplyStep(c, sh, me, r, a, then_, eff, r');
    case Probing(p) =>
      if p in {HitUnlock, MissUnlock} {
        assert HoldsMu(c, Pending(sh, me), R(r), c.stripe(r.key));
      }
      ProbeStep(c, sh, me, r, p, ch, eff, r');
    case Promoting(m) =>
      assert HoldsMu(c, Pending(sh, me), R(r), c.stripe(r.key));
      PromoteStep(c, sh, me, r, m, ch, eff, r');
    case Missing(x) => MissStep(c, sh, me, r, x, ch, eff, r');
  }

  // ------------------------------------------------------------- flights

  lemma FlierGuard(c: Config, sh: Shared, me: Tid, f: Flier, ch: Choice, eff: Effect, f': Flier)
    requires FlierCan(c, sh, me, f, ch) && FlierShape(sh, me, f) && FlierInv(c, sh, f)
    requires HistInv(c, sh, f.key) && FlightInv(c, sh, me)
    requires f.pc !in {FFetch, FLock, FFinish, FEnd} ==> OwnsMu(sh, me, c.stripe(f.key))
    requires FlierMove(c, sh, me, f, ch) == (eff, f')
    ensures Guard(c, sh, me, eff)
  {
  }

  lemma FlierAfter(c: Config, sh: Shared, me: Tid, f: Flier, ch: Choice, eff: Effect, f': Flier)
    requires FlierCan(c, sh, me, f, ch) && FlierInv(c, sh, f) && FlierMove(c, sh, me, f, ch) == (eff, f')
    ensures EffectOk(sh, me, eff) && FlierInv(c, Apply(sh, me, eff), f')
  {
  }

  lemma FlierStep(c: Config, sh: Shared, me: Tid, f: Flier, ch: Choice, eff: Effect, f': Flier)
    requires FlierCan(c, sh, me, f, ch) && FlierShape(sh, me, f) && FlierInv(c, sh, f)
    requires HistInv(c, sh, f.key) && FlightInv(c, sh, me)
    requires f.pc !in {FFetch, FLock, FFinish, FEnd} ==> OwnsMu(sh, me, c.stripe(f.key))
    requires FlierMove(c, sh, me, f, ch) == (eff, f')
    ensures Guard(c, sh, me, eff) && FlierInv(c, Apply(sh, me, eff), f')
  {
    FlierGuard(c, sh, me, f, ch, eff, f');
    FlierAfter(c, sh, me, f, ch, eff, f');
  }

  // ------------------------------------------------------------- writers

  ghost predicate GatesOwned(c: Config, sh: Shared, me: Tid, w: Writer) {
    forall i: Stripe :: OwnsGate(sh, me, i) <==> HoldsGate(c, W(w), i)
  }

  lemma GateOf(c: Config, sh: Shared, me: Tid, w: Writer, k: Key)
    requires GatesOwned(c, sh, me, w) && WriterShape(c, w) && k in w.wrote
    requires !w.pc.Gating? && !w.pc.Returned? && !w.pc.Cancelled?
    ensures HoldsGate(c, W(w), c.stripe(k)) && OwnsGate(sh, me, c.stripe(k))
  {
    assert Needs(c, w.keys, c.stripe(k));
  }

  /** Steps that write no origin value and pass no barrier leave the account of
      what was written as it is. */
  lemma WroteKeeps(c: Config, sh: Shared, sh': Shared, w: Writer, w': Writer)
    requires AllWrote(c, sh, w) && BumpedInv(sh, w)
    requires w'.wrote == w.wrote && w'.keys == w.keys && w'.gated == w.gated
    requires (w'.bumped == w.bumped && w'.final == w.final) || w'.bumped == map[]
    requires forall i: Stripe :: HoldsGate(c, W(w'), i) ==> HoldsGate(c, W(w), i)
    requires sh'.hist.vis == sh.hist.vis && sh'.origin == sh.origin && sh'.epoch == sh.epoch
    ensures AllWrote(c, sh', w') && BumpedInv(sh', w')
  {
    forall k | k in w'.wrote ensures WroteInv(c, sh', w', k) {
      assert WroteInv(c, sh, w, k);
    }
  }

  lemma GateGuard(c: Config, sh: Shared, me: Tid, w: Writer, g: GatePc, ch: Choice, eff: Effect, w': Writer)
    requires w.pc == Gating(g) && GateCan(c, sh, w, g, ch) && GatesOwned(c, sh, me, w)
    requires GateMove(c, sh, w, g, ch) == (eff, w')
    ensures Guard(c, sh, me, eff)
  {
    if eff.UnlockGate? {
      assert HoldsGate(c, W(w), w.next - 1);
    }
  }

  /** Taking and releasing gates touches nothing else. */
  lemma GateBooks(c: Config, sh: Shared, w: Writer, g: GatePc, ch: Choice, eff: Effect, w': Writer)
    requires GateCan(c, sh, w, g, ch) && w.pc == Gating(g) && GateMove(c, sh, w, g, ch) == (eff, w')
    ensures !ChangesBooks(eff) && w' == w.(pc := w'.pc, next := w'.next)
    ensures g == Let ==> w'.pc in {Gating(Let), Returned} && w'.next <= w.next
    ensures g != Let && w'.pc.Gating? ==> w'.pc.g != Let
    ensures w'.pc.Gating? || w'.pc in {Invalidating(InvLock), Returned, Cancelled}
    ensures w'.pc == Invalidating(InvLock) ==> w'.next == 0
    ensures w'.pc == Returned ==> g == Let
  {
  }

  lemma LetGo(c: Config, sh: Shared, sh': Shared, w: Writer, w': Writer)
    requires WriterInv(c, sh, w) && w.pc == Gating(Let) && w' == w.(pc := w'.pc, next := w'.next)
    requires w'.pc in {Gating(Let), Returned} && w'.next <= w.next
    requires sh'.hist == sh.hist && sh'.origin == sh.origin && sh'.epoch == sh.epoch
    ensures WriterInv(c, sh', w')
  {
    WroteKeeps(c, sh, sh', w, w');
    forall k | k in w'.wrote ensures Visible(sh', w', k) {
      assert Visible(sh, w, k);
    }
  }

  lemma GateStep(c: Config, sh: Shared, me: Tid, w: Writer, g: GatePc, ch: Choice, eff: Effect, w': Writer)
    requires w.pc == Gating(g) && GateCan(c, sh, w, g, ch) && WriterShape(c, w) && WriterInv(c, sh, w)
    requires GateMove(c, sh, w, g, ch) == (eff, w') && EffectOk(sh, me, eff)
    ensures WriterInv(c, Apply(sh, me, eff), w')
  {
    var sh' := Apply(sh, me, eff);
    GateBooks(c, sh, w, g, ch, eff, w');
    KeepsBooks(sh, me, eff);
    if g == Let {
      LetGo(c, sh, sh', w, w');
    }
  }

  lemma InvalidateGuard(c: Config, sh: Shared, me: Tid, w: Writer, v: InvPc, eff: Effect, w': Writer)
    requires w.pc == Invalidating(v) && InvalidateCan(c, sh, w, v) && WriterShape(c, w) && WriterInv(c, sh, w)
    requires v != InvLock ==> OwnsMu(sh, me, c.stripe(w.keys[w.next]))
    requires GatesOwned(c, sh, me, w) && forall k :: HistInv(c, sh, k)
    requires InvalidateMove(c, sh, w, v) == (eff, w')
    ensures Guard(c, sh, me, eff)
  {
    if v == InvBump || v == InvUnlock {
      forall k | k in w.wrote && w.final
        ensures OwnsGate(sh, me, c.stripe(k)) && At(sh.hist.vis, k) <= w.wrote[k] <= At(sh.origin, k)
        ensures At(sh.hist.clean, k) <= w.wrote[k]
      {
        GateOf(c, sh, me, w, k);
        assert WroteInv(c, sh, w, k) && HistInv(c, sh, k);
      }
    }
    if v == InvUnlock && w.keys[w.next] in w.wrote {
      assert WroteInv(c, sh, w, w.keys[w.next]);
    }
  }

  lemma BumpAfter(c: Config, sh: Shared, sh': Shared, w: Writer, w': Writer, i: Stripe)
    requires AllWrote(c, sh, w) && BumpedInv(sh, w)
    requires sh' == sh.(epoch := sh.epoch[i := At(sh.epoch, i) + 1],
                        hist := sh.hist.(vis := sh.hist.vis + WroteIn(c, w, i)))
    requires w'.wrote == w.wrote && w'.keys == w.keys && w'.gated == w.gated && w'.final == w.final
    requires w'.bumped == w.bumped[i := At(sh.epoch, i) + 1]
    requires forall j: Stripe :: HoldsGate(c, W(w'), j) ==> HoldsGate(c, W(w), j)
    ensures AllWrote(c, sh', w') && BumpedInv(sh', w')
  {
    forall k | k in w'.wrote ensures WroteInv(c, sh', w', k) {
      assert WroteInv(c, sh, w, k);
    }
  }

  lemma CleanedAll(sh: Shared, w: Writer)
    requires CleanedSoFar(sh, w) && w.final && |w.keys| <= w.next && forall k :: k in w.wrote ==> k in w.keys
    ensures AllCleaned(sh, w)
  {
    forall k | k in w.wrote ensures Cleaned(sh, w, k) {
      var j :| 0 <= j < |w.keys| && w.keys[j] == k;
    }
  }

  lemma VisibleAll(sh: Shared, w: Writer)
    requires VisibleSoFar(sh, w) && |w.keys| <= w.next && forall k :: k in w.wrote ==> k in w.keys
    ensures AllVisible(sh, w)
  {
    forall k | k in w.wrote ensures Visible(sh, w, k) {
      var j :| 0 <= j < |w.keys| && w.keys[j] == k;
    }
  }

  lemma InvalidateWrote(c: Config, sh: Shared, me: Tid, w: Writer, v: InvPc, eff: Effect, w': Writer)
    requires w.pc == Invalidating(v) && InvalidateCan(c, sh, w, v) && WriterShape(c, w) && WriterInv(c, sh, w)
    requires InvalidateMove(c, sh, w, v) == (eff, w') && EffectOk(sh, me, eff)
    ensures AllWrote(c, Apply(sh, me, eff), w') && BumpedInv(Apply(sh, me, eff), w')
  {
    var sh' := Apply(sh, me, eff);
    if eff.Bump? {
      BumpAfter(c, sh, sh', w, w', eff.i);
    } else {
      WroteKeeps(c, sh, sh', w, w');
    }
  }

  lemma InvalidateSealed(c: Config, sh: Shared, me: Tid, w: Writer, eff: Effect, w': Writer)
    requires w.pc == Invalidating(InvUnlock) && InvalidateCan(c, sh, w, InvUnlock) && InvalidateInv(sh, w, InvUnlock)
    requires InvalidateMove(c, sh, w, InvUnlock) == (eff, w')
    ensures WriterPcInv(c, Apply(sh, me, eff), w')
  {
    var sh' := Apply(sh, me, eff);
    forall j | 0 <= j < w'.next && j < |w.keys| && w.final ensures Cleaned(sh', w', w.keys[j]) {
      if j < w.next {
        assert Cleaned(sh, w, w.keys[j]);
      }
    }
  }

  lemma InvalidateInside(c: Config, sh: Shared, me: Tid, w: Writer, v: InvPc, eff: Effect, w': Writer)
    requires w.pc == Invalidating(v) && InvalidateCan(c, sh, w, v) && InvalidateInv(sh, w, v)
    requires v in {InvBump, InvProt, InvProb}
    requires InvalidateMove(c, sh, w, v) == (eff, w') && EffectOk(sh, me, eff)
    ensures WriterPcInv(c, Apply(sh, me, eff), w')
  {
    var sh' := Apply(sh, me, eff);
    assert sh'.hist.clean == sh.hist.clean;
    forall j | 0 <= j < w.next && j < |w.keys| && w.final ensures Cleaned(sh', w', w.keys[j]) {
      assert Cleaned(sh, w, w.keys[j]);
    }
  }

  lemma InvalidateNext(c: Config, sh: Shared, me: Tid, w: Writer, eff: Effect, w': Writer)
    requires w.pc == Invalidating(InvLock) && InvalidateCan(c, sh, w, InvLock) && WriterShape(c, w)
    requires InvalidateInv(sh, w, InvLock)
    requires InvalidateMove(c, sh, w, InvLock) == (eff, w')
    ensures WriterPcInv(c, Apply(sh, me, eff), w')
  {
    if w.next == |w.keys| && w.final {
      CleanedAll(sh, w);
      assert AllCleaned(Apply(sh, me, eff), w');
    }
  }

  lemma InvalidatePcAfter(c: Config, sh: Shared, me: Tid, w: Writer, v: InvPc, eff: Effect, w': Writer)
    requires w.pc == Invalidating(v) && InvalidateCan(c, sh, w, v) && WriterShape(c, w) && InvalidateInv(sh, w, v)
    requires InvalidateMove(c, sh, w, v) == (eff, w') && EffectOk(sh, me, eff)
    ensures WriterPcInv(c, Apply(sh, me, eff), w')
  {
    if v == InvLock {
      InvalidateNext(c, sh, me, w, eff, w');
    } else if v == InvUnlock {
      InvalidateSealed(c, sh, me, w, eff, w');
    } else {
      InvalidateInside(c, sh, me, w, v, eff, w');
    }
  }

  lemma CallStep(c: Config, sh: Shared, me: Tid, w: Writer, ch: Choice, eff: Effect, w': Writer)
    requires w.pc == Calling && CallCan(w, ch) && WriterShape(c, w) && WriterInv(c, sh, w)
    requires forall k :: HistInv(c, sh, k)
    requires CallMove(sh, w, ch) == (eff, w')
    ensures Guard(c, sh, me, eff) && WriterInv(c, Apply(sh, me, eff), w')
  {
    var sh' := Apply(sh, me, eff);
    if ch.yes {
      forall k | k in w'.wrote ensures WroteInv(c, sh', w', k) {
        assert HistInv(c, sh, k);
        if k != ch.key {
          assert WroteInv(c, sh, w, k);
        }
      }
    } else {
      WroteKeeps(c, sh, sh', w, w');
    }
  }

  lemma ThroughBumpGuard(c: Config, sh: Shared, me: Tid, w: Writer, k: Key, ch: Choice, eff: Effect, w': Writer)
    requires w.pc == Through(ThBump) && ThroughCan(c, sh, w, ThBump, ch) && WriterShape(c, w) && w.keys[0] == k
    requires k in w.wrote
    requires OwnsMu(sh, me, c.stripe(k)) && OwnsGate(sh, me, c.stripe(k)) && WroteInv(c, sh, w, k) && HistInv(c, sh, k)
    requires HoldsGate(c, W(w), c.stripe(k)) && ThroughMove(c, sh, w, ThBump, ch) == (eff, w')
    ensures Guard(c, sh, me, eff)
  {
    forall x | x in w.wrote ensures x == k {
      assert x in w.keys;
    }
  }

  lemma ThroughStoreGuard(c: Config, sh: Shared, me: Tid, w: Writer, k: Key, ch: Choice, eff: Effect, w': Writer)
    requires w.pc == Through(ThStore) && ThroughCan(c, sh, w, ThStore, ch) && w.keys[0] == k && k in w.wrote
    requires OwnsMu(sh, me, c.stripe(k)) && WroteInv(c, sh, w, k) && HistInv(c, sh, k)
    requires HoldsGate(c, W(w), c.stripe(k)) && ThroughInv(c, sh, w, ThStore)
    requires ThroughMove(c, sh, w, ThStore, ch) == (eff, w')
    ensures Guard(c, sh, me, eff)
  {
  }

  lemma ThroughSealGuard(c: Config, sh: Shared, me: Tid, w: Writer, k: Key, ch: Choice, eff: Effect, w': Writer)
    requires w.pc == Through(ThUnlock) && ThroughCan(c, sh, w, ThUnlock, ch) && WriterShape(c, w) && w.keys[0] == k
    requires k in w.wrote
    requires OwnsMu(sh, me, c.stripe(k)) && OwnsGate(sh, me, c.stripe(k)) && WroteInv(c, sh, w, k) && HistInv(c, sh, k)
    requires HoldsGate(c, W(w), c.stripe(k)) && BumpedInv(sh, w) && ThroughInv(c, sh, w, ThUnlock)
    requires ThroughMove(c, sh, w, ThUnlock, ch) == (eff, w')
    ensures Guard(c, sh, me, eff)
  {
  }

  lemma ThroughGuard(c: Config, sh: Shared, me: Tid, w: Writer, h: ThroughPc, ch: Choice, eff: Effect, w': Writer)
    requires w.pc == Through(h) && ThroughCan(c, sh, w, h, ch) && WriterShape(c, w) && WriterInv(c, sh, w)
    requires h != ThLock ==> OwnsMu(sh, me, c.stripe(w.keys[0]))
    requires GatesOwned(c, sh, me, w) && HistInv(c, sh, w.keys[0])
    requires ThroughMove(c, sh, w, h, ch) == (eff, w')
    ensures Guard(c, sh, me, eff)
  {
    var k := w.keys[0];
    GateOf(c, sh, me, w, k);
    assert WroteInv(c, sh, w, k);
    match h
    case ThBump => ThroughBumpGuard(c, sh, me, w, k, ch, eff, w');
    case ThStore => ThroughStoreGuard(c, sh, me, w, k, ch, eff, w');
    case ThUnlock => ThroughSealGuard(c, sh, me, w, k, ch, eff, w');
    case _ =>
  }

  lemma ThroughWrote(c: Config, sh: Shared, me: Tid, w: Writer, h: ThroughPc, ch: Choice, eff: Effect, w': Writer)
    requires w.pc == Through(h) && ThroughCan(c, sh, w, h, ch) && AllWrote(c, sh, w) && BumpedInv(sh, w)
    requires ThroughMove(c, sh, w, h, ch) == (eff, w') && EffectOk(sh, me, eff)
    ensures AllWrote(c, Apply(sh, me, eff), w') && BumpedInv(Apply(sh, me, eff), w')
  {
    var sh' := Apply(sh, me, eff);
    if h == ThBump {
      BumpAfter(c, sh, sh', w, w', c.stripe(w.keys[0]));
    } else {
      assert sh'.hist.vis == sh.hist.vis && sh'.origin == sh.origin && sh'.epoch == sh.epoch;
      WroteKeeps(c, sh, sh', w, w');
    }
  }

  lemma ThroughSealed(c: Config, sh: Shared, me: Tid, w: Writer, ch: Choice, eff: Effect, w': Writer)
    requires w.pc == Through(ThUnlock) && ThroughCan(c, sh, w, ThUnlock, ch) && WriterShape(c, w)
    requires ThroughMove(c, sh, w, ThUnlock, ch) == (eff, w')
    ensures WriterPcInv(c, Apply(sh, me, eff), w')
  {
    forall x | x in w.wrote ensures Cleaned(Apply(sh, me, eff), w', x) {
      assert x in w.keys;
    }
  }

  lemma ThroughPcAfter(c: Config, sh: Shared, me: Tid, w: Writer, h: ThroughPc, ch: Choice, eff: Effect, w': Writer)
    requires w.pc == Through(h) && ThroughCan(c, sh, w, h, ch) && WriterShape(c, w) && ThroughInv(c, sh, w, h)
    requires ThroughMove(c, sh, w, h, ch) == (eff, w') && EffectOk(sh, me, eff)
    ensures WriterPcInv(c, Apply(sh, me, eff), w')
  {
    match h
    case ThLock =>
    case ThBump =>
    case ThProb =>
    case ThHot =>
    case ThStore =>
    case ThDel =>
    case ThUnlock => ThroughSealed(c, sh, me, w, ch, eff, w');
  }

  lemma ForgetGuard(c: Config, sh: Shared, me: Tid, w: Writer, eff: Effect, w': Writer)
    requires w.pc == Forgetting && WriterShape(c, w) && WriterInv(c, sh, w)
    requires GatesOwned(c, sh, me, w) && forall k :: HistInv(c, sh, k)
    requires ForgetMove(w) == (eff, w')
    ensures Guard(c, sh, me, eff)
  {
    if w.next < |w.keys| && w.keys[w.next] in w.wrote {
      var k := w.keys[w.next];
      GateOf(c, sh, me, w, k);
      assert WroteInv(c, sh, w, k) && HistInv(c, sh, k) && Cleaned(sh, w, k);
    }
  }

  lemma ForgetOne(c: Config, sh: Shared, sh': Shared, w: Writer, w': Writer, k: Key)
    requires w.next < |w.keys| && k == w.keys[w.next] && w.final
    requires w' == w.(next := w.next + 1)
    requires sh' == sh.(table := sh.table - {k}, hist := sh.hist.(served := sh.hist.served + WroteAt(w, k)))
    requires AllCleaned(sh, w) && VisibleSoFar(sh, w)
    ensures AllCleaned(sh', w') && VisibleSoFar(sh', w')
  {
    forall j | 0 <= j < w'.next && j < |w.keys| ensures Visible(sh', w', w.keys[j]) {
      if j < w.next {
        assert Visible(sh, w, w.keys[j]);
      }
    }
    forall x | x in w.wrote ensures Cleaned(sh', w', x) {
      assert Cleaned(sh, w, x);
    }
  }

  lemma ForgetStep(c: Config, sh: Shared, me: Tid, w: Writer, eff: Effect, w': Writer)
    requires w.pc == Forgetting && WriterShape(c, w) && WriterInv(c, sh, w)
    requires ForgetMove(w) == (eff, w')
    ensures EffectOk(sh, me, eff) && WriterInv(c, Apply(sh, me, eff), w')
  {
    var sh' := Apply(sh, me, eff);
    WroteKeeps(c, sh, sh', w, w');
    if w.next < |w.keys| {
      ForgetOne(c, sh, sh', w, w', w.keys[w.next]);
    } else {
      VisibleAll(sh, w);
      forall k | k in w.wrote ensures Visible(sh', w', k) {
        assert Visible(sh, w, k);
      }
    }
  }

  lemma InvalidateStep(c: Config, sh: Shared, me: Tid, w: Writer, v: InvPc, eff: Effect, w': Writer)
    requires w.pc == Invalidating(v) && InvalidateCan(c, sh, w, v) && WriterShape(c, w) && WriterInv(c, sh, w)
    requires v != InvLock ==> OwnsMu(sh, me, c.stripe(w.keys[w.next]))
    requires GatesOwned(c, sh, me, w) && forall k :: HistInv(c, sh, k)
    requires InvalidateMove(c, sh, w, v) == (eff, w')
    ensures Guard(c, sh, me, eff) && WriterInv(c, Apply(sh, me, eff), w')
  {
    InvalidateGuard(c, sh, me, w, v, eff, w');
    InvalidateWrote(c, sh, me, w, v, eff, w');
    InvalidatePcAfter(c, sh, me, w, v, eff, w');
  }

  lemma ThroughStep(c: Config, sh: Shared, me: Tid, w: Writer, h: ThroughPc, ch: Choice, eff: Effect, w': Writer)
    requires w.pc == Through(h) && ThroughCan(c, sh, w, h, ch) && WriterShape(c, w) && WriterInv(c, sh, w)
    requires h != ThLock ==> OwnsMu(sh, me, c.stripe(w.keys[0]))
    requires GatesOwned(c, sh, me, w) && HistInv(c, sh, w.keys[0])
    requires ThroughMove(c, sh, w, h, ch) == (eff, w')
    ensures Guard(c, sh, me, eff) && WriterInv(c, Apply(sh, me, eff), w')
  {
    ThroughGuard(c, sh, me, w, h, ch, eff, w');
    ThroughWrote(c, sh, me, w, h, ch, eff, w');
    ThroughPcAfter(c, sh, me, w, h, ch, eff, w');
  }

  lemma WriterStep(c: Config, sh: Shared, me: Tid, w: Writer, ch: Choice, eff: Effect, w': Writer)
    requires SharedInv(c, sh) && ThreadInv(c, sh, me, W(w)) && WriterCan(c, sh, w, ch)
    requires WriterMove(c, sh, w, ch) == (eff, w')
    ensures Guard(c, sh, me, eff) && WriterInv(c, Apply(sh, me, eff), w')
  {
    assert GatesOwned(c, sh, me, w);
    match w.pc
    case Gating(g) =>
      GateGuard(c, sh, me, w, g, ch, eff, w');
      GateStep(c, sh, me, w, g, ch, eff, w');
    case Invalidating(v) =>
      if v != InvLock {
        assert HoldsMu(c, Pending(sh, me), W(w), c.stripe(w.keys[w.next]));
      }
      InvalidateStep(c, sh, me, w, v, eff, w');
    case Calling => CallStep(c, sh, me, w, ch, eff, w');
    case Through(h) =>
      if h != ThLock {
        assert HoldsMu(c, Pending(sh, me), W(w), c.stripe(w.keys[0]));
      }
      assert HistInv(c, sh, w.keys[0]);
      ThroughStep(c, sh, me, w, h, ch, eff, w');
    case Forgetting =>
      ForgetGuard(c, sh, me, w, eff, w');
      ForgetStep(c, sh, me, w, eff, w');
  }

  // ------------------------------------------------------------- purgers

  lemma PurgerStep(c: Config, sh: Shared, me: Tid, p: Purger, eff: Effect, p': Purger)
    requires TLock(c, sh, me, P(p)) && PurgerInv(sh, p) && PurgerCan(sh, p) && PurgerMove(sh, p) == (eff, p')
    ensures Guard(c, sh, me, eff) && PurgerInv(Apply(sh, me, eff), p')
  {
  }
}
