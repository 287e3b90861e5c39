/** The hand-off between the tiers: promotions and refills take a candidate out of
    probation before they put the value into the protected tier. A read that races a
    promotion never misses both tiers, although the flag readers check is shared by the
    whole stripe; a refill raises no flag, and a read misses exactly when its last probe
    falls between the refill's removal and its store. */
module ServiceHandoff {
  import opened ServiceState
  import opened ServiceSteps
  import opened ServiceInvariant
  import opened ServiceEffects
  import opened ServiceRuns
  import opened ServiceBarrier

  ghost predicate Promoter(s: State, t: Tid, k: Key, m: PromotePc) {
    t in s.threads && s.threads[t].R? && s.threads[t].r.key == k && s.threads[t].r.pc == Promoting(m)
  }

  /** t has taken k out of probation and not yet installed it. */
  ghost predicate Carries(s: State, t: Tid, k: Key) { Promoter(s, t, k, Install) }

  ghost predicate Refiller(s: State, t: Tid, k: Key, pc: FlightPc) {
    t in s.threads && s.threads[t].F? && s.threads[t].f.key == k && s.threads[t].f.pc == pc
  }

  /** The refill t of k has emptied probation and not yet stored the protected copy. */
  ghost predicate RefillCarries(s: State, t: Tid, k: Key) { Refiller(s, t, k, FHotStore) }

  /** Whoever is moving k between the tiers does so while k is HOT. */
  ghost predicate MoversHot(s: State, k: Key) {
    && (forall t, m :: Promoter(s, t, k, m) && m in {RaiseFlag, Take, Install} ==> k in s.sh.hot)
    && (forall t, pc :: Refiller(s, t, k, pc) && pc in {FHotDel, FHotStore} ==> k in s.sh.hot)
  }

  ghost predicate Unexpired(s: State, k: Key) {
    && (k in s.sh.prot ==> s.sh.now < s.sh.prot[k].expiresAt)
    && (k in s.sh.prob ==> s.sh.now < s.sh.prob[k].expiresAt)
  }

  /** k is in a tier, or on its way between them. */
  ghost predicate Present(s: State, k: Key) {
    || k in s.sh.prob
    || (k in s.sh.hot && (k in s.sh.prot || Carried(s, k) || Refilled(s, k)))
  }

  ghost predicate Carried(s: State, k: Key) { exists t :: Carries(s, t, k) }
  ghost predicate Refilled(s: State, k: Key) { exists t :: RefillCarries(s, t, k) }

  ghost predicate InProtected(s: State, k: Key) { k in s.sh.prot && k in s.sh.hot }

  /** A step with no eviction, invalidation, purge or demotion of k: nothing removes a
      copy of k except a promotion or a refill moving the candidate to the protected
      tier, none of them fails to store it there, and k stays tracked and, if HOT,
      HOT. */
  ghost predicate Calm(c: Config, s: State, l: Label, k: Key)
    requires Enabled(c, s, l)
  {
    match l
    case EvictProt(x) => x != k
    case EvictProb(x) => x != k
    case Act(t, ch) => CalmEffect(s, t, Move(c, s.sh, t, s.threads[t], ch).0, k)
    case _ => true
  }

  ghost predicate CalmEffect(s: State, t: Tid, eff: Effect, k: Key) {
    match eff
    case DelProt(x) => x == k ==> k !in s.sh.prot && !Carries(s, t, k) && !RefillCarries(s, t, k)
    case DelProb(x) => x == k ==> k !in s.sh.prob || Promoter(s, t, k, Take) || Refiller(s, t, k, FHotDel)
    case ClearProt => false
    case ClearProb => false
    case Track(hot, tracked, _) => (k in s.sh.hot ==> k in hot) && k in tracked
    case _ => true
  }

  ghost predicate CalmNext(c: Config, s: State, s': State, k: Key) {
    exists l :: Enabled(c, s, l) && s' == After(c, s, l) && Calm(c, s, l, k)
  }

  /** What the last probe relies on. */
  ghost predicate BeforeLastProbe(s: State, k: Key) {
    k !in s.sh.prob && k in s.sh.hot && (k in s.sh.prot || Refilled(s, k))
  }

  /** Where a lookup may be while it has not missed, and what it then knows. */
  ghost predicate Safe(c: Config, s: State, r: Reader, k: Key) {
    match r.pc
    case Probing(p) =>
      (match p
       case Protected => Present(s, k)
       case Probation => Present(s, k)
       case Recheck => Present(s, k) && k !in s.sh.prob
       case LoadFlag => Present(s, k) && k !in s.sh.prob
       case WaitLock => Present(s, k) && k !in s.sh.prob
       case LastProbe => BeforeLastProbe(s, k)
       case WaitHeld => InProtected(s, k)
       case LockKey => Present(s, k)
       case HeldHot => k in s.sh.prob || InProtected(s, k)
       case HeldProtected => k in s.sh.prob || InProtected(s, k)
       case HeldCandidate => k in s.sh.prob
       case HitUnlock => true
       case MissUnlock => false)
    case Promoting(m) => m in {Admit, RaiseFlag, Take, Install, LowerHit, UnlockHit}
    case Applying(_, then_) => then_ == ThenServe
    case Over(end) => end == ServedLocal
    case _ => false
  }

  ghost predicate SafeRead(c: Config, s: State, r: Tid, k: Key) {
    && r in s.threads && s.threads[r].R? && s.threads[r].r.key == k
    && MoversHot(s, k)
    && Safe(c, s, s.threads[r].r, k)
  }

  // ---------------------------------------------- presence survives a step

  /** Whoever carries k holds the stripe, and the flag is up. */
  lemma CarrierHolds(c: Config, s: State, t: Tid, k: Key)
    requires Inv(c, s) && Carries(s, t, k)
    ensures OwnsMu(s.sh, t, c.stripe(k)) && c.stripe(k) in s.sh.flag
  {
    assert ThreadInv(c, s.sh, t, s.threads[t]);
    assert HoldsMu(c, Pending(s.sh, t), s.threads[t], c.stripe(k));
  }

  lemma RefillerHolds(c: Config, s: State, t: Tid, k: Key, pc: FlightPc)
    requires Inv(c, s) && Refiller(s, t, k, pc) && pc in {FHotDel, FHotStore}
    ensures OwnsMu(s.sh, t, c.stripe(k))
  {
    assert ThreadInv(c, s.sh, t, s.threads[t]);
    assert HoldsMu(c, Pending(s.sh, t), s.threads[t], c.stripe(k));
  }

  /** With the flag down, a present key is in a tier or carried by a refill. */
  lemma FlagDown(c: Config, s: State, k: Key)
    requires Inv(c, s) && Present(s, k) && c.stripe(k) !in s.sh.flag
    ensures k in s.sh.prob || InProtected(s, k) || (k in s.sh.hot && Refilled(s, k))
  {
    if t :| Carries(s, t, k) {
      CarrierHolds(c, s, t, k);
    }
  }

  /** With the stripe free, a present key is in a tier. */
  lemma StripeFree(c: Config, s: State, k: Key)
    requires Inv(c, s) && Present(s, k) && c.stripe(k) !in s.sh.mu
    ensures k in s.sh.prob || InProtected(s, k)
  {
    if t :| Carries(s, t, k) {
      CarrierHolds(c, s, t, k);
    }
    if t :| RefillCarries(s, t, k) {
      RefillerHolds(c, s, t, k, FHotStore);
    }
  }

  lemma KeepsHot(sh: Shared, me: Tid, eff: Effect)
    requires EffectOk(sh, me, eff) && !eff.Track?
    ensures Apply(sh, me, eff).hot == sh.hot
  {
  }

  lemma CalmHot(s: State, t: Tid, eff: Effect, k: Key)
    requires EffectOk(s.sh, t, eff) && CalmEffect(s, t, eff, k)
    ensures k in s.sh.hot ==> k in Apply(s.sh, t, eff).hot
  {
    if !eff.Track? {
      KeepsHot(s.sh, t, eff);
    }
  }

  lemma CalmTierEffect(c: Config, s: State, t: Tid, eff: Effect, k: Key)
    requires Guard(c, s.sh, t, eff) && CalmEffect(s, t, eff, k) && ChangesTiers(eff)
    ensures CalmTiersAfter(c, s, t, eff, k)
  {
  }

  ghost predicate CalmTiersAfter(c: Config, s: State, t: Tid, eff: Effect, k: Key)
    requires EffectOk(s.sh, t, eff)
  {
    var sh' := Apply(s.sh, t, eff);
    && (k in s.sh.prot ==> k in sh'.prot)
    && (k in s.sh.prob && k !in sh'.prob ==> eff == DelProb(k))
    && (k in sh'.prob && k !in s.sh.prob ==> k !in s.sh.prot && OwnsMu(s.sh, t, c.stripe(k)))
  }

  /** What a calm effect does to the tiers of k. */
  lemma CalmTiers(c: Config, s: State, t: Tid, eff: Effect, k: Key)
    requires Guard(c, s.sh, t, eff) && CalmEffect(s, t, eff, k)
    ensures CalmTiersAfter(c, s, t, eff, k) && (k in s.sh.hot ==> k in Apply(s.sh, t, eff).hot)
  {
    CalmHot(s, t, eff, k);
    if ChangesTiers(eff) {
      CalmTierEffect(c, s, t, eff, k);
    } else {
      KeepsTiers(s.sh, t, eff);
    }
  }

  lemma TakerMoves(c: Config, s: State, t: Tid, ch: Choice, k: Key)
    requires t in s.threads && Can(c, s.sh, t, s.threads[t], ch) && Promoter(s, t, k, Take)
    ensures Move(c, s.sh, t, s.threads[t], ch) == (DelProb(k), R(s.threads[t].r.(pc := Promoting(Install))))
  {
  }

  lemma InstallerMoves(c: Config, s: State, t: Tid, ch: Choice, k: Key)
    requires t in s.threads && Can(c, s.sh, t, s.threads[t], ch) && Carries(s, t, k)
    ensures Move(c, s.sh, t, s.threads[t], ch).0 == PutProt(k, s.threads[t].r.hit)
         || Move(c, s.sh, t, s.threads[t], ch).0 == DelProt(k)
  {
  }

  lemma RefillTakes(c: Config, s: State, t: Tid, ch: Choice, k: Key)
    requires t in s.threads && Can(c, s.sh, t, s.threads[t], ch) && Refiller(s, t, k, FHotDel)
    ensures Move(c, s.sh, t, s.threads[t], ch) == (DelProb(k), F(s.threads[t].f.(pc := FHotStore)))
  {
  }

  lemma RefillStores(c: Config, s: State, t: Tid, ch: Choice, k: Key)
    requires t in s.threads && Can(c, s.sh, t, s.threads[t], ch) && RefillCarries(s, t, k)
    ensures var eff := Move(c, s.sh, t, s.threads[t], ch).0; (eff.PutProt? && eff.k == k) || eff == DelProt(k)
  {
  }

  /** The state after thread t took a step with this effect. */
  ghost predicate Acted(s: State, t: Tid, eff: Effect, th: Thread, s': State) {
    && t in s.threads && EffectOk(s.sh, t, eff) && Spawn(eff).Keys !! s.threads.Keys
    && s'.sh == Apply(s.sh, t, eff) && s'.threads == s.threads[t := th] + Spawn(eff)
  }

  /** The candidate leaves probation: someone carries it now. */
  lemma TakenIsCarried(c: Config, s: State, t: Tid, ch: Choice, th: Thread, s': State, k: Key)
    requires t in s.threads && Can(c, s.sh, t, s.threads[t], ch)
    requires Move(c, s.sh, t, s.threads[t], ch) == (DelProb(k), th)
    requires Acted(s, t, DelProb(k), th, s') && MoversHot(s, k)
    requires Promoter(s, t, k, Take) || Refiller(s, t, k, FHotDel)
    ensures k in s.sh.hot && (Carries(s', t, k) || RefillCarries(s', t, k))
  {
    if Promoter(s, t, k, Take) {
      TakerMoves(c, s, t, ch, k);
    } else {
      RefillTakes(c, s, t, ch, k);
    }
  }

  /** Whoever carries k still does after a calm step, or has stored it. */
  lemma CarriedOn(c: Config, s: State, t: Tid, ch: Choice, eff: Effect, th: Thread, s': State, u: Tid, k: Key)
    requires t in s.threads && Can(c, s.sh, t, s.threads[t], ch) && Move(c, s.sh, t, s.threads[t], ch) == (eff, th)
    requires Acted(s, t, eff, th, s') && CalmEffect(s, t, eff, k) && (Carries(s, u, k) || RefillCarries(s, u, k))
    ensures if u == t then eff.PutProt? && eff.k == k
            else (Carries(s, u, k) ==> Carries(s', u, k)) && (RefillCarries(s, u, k) ==> RefillCarries(s', u, k))
  {
    if u == t {
      if Carries(s, t, k) {
        InstallerMoves(c, s, t, ch, k);
      } else {
        RefillStores(c, s, t, ch, k);
      }
    }
  }

  lemma PresentAfterAct(c: Config, s: State, t: Tid, ch: Choice, eff: Effect, th: Thread, s': State, k: Key)
    requires t in s.threads && Can(c, s.sh, t, s.threads[t], ch) && Move(c, s.sh, t, s.threads[t], ch) == (eff, th)
    requires Acted(s, t, eff, th, s') && Guard(c, s.sh, t, eff) && CalmEffect(s, t, eff, k)
    requires MoversHot(s, k) && Present(s, k)
    ensures Present(s', k)
  {
    CalmTiers(c, s, t, eff, k);
    if k in s.sh.prob {
      if k !in s'.sh.prob {
        TakenIsCarried(c, s, t, ch, th, s', k);
      }
    } else if k !in s.sh.prot {
      var u :| Carries(s, u, k) || RefillCarries(s, u, k);
      CarriedOn(c, s, t, ch, eff, th, s', u, k);
    }
  }

  /** How a flight gets to the transfer. */
  lemma RefillerCame(c: Config, sh: Shared, me: Tid, f: Flier, ch: Choice, eff: Effect, f': Flier)
    requires FlierCan(c, sh, me, f, ch) && FlierMove(c, sh, me, f, ch) == (eff, f')
    ensures f'.key == f.key
    ensures f'.pc == FHotDel ==> f.key in sh.hot
    ensures f'.pc == FHotStore ==> f.pc == FHotDel
  {
  }

  /** A reader that has decided to move the candidate, or is moving it. */
  ghost predicate Moving(pc: ReadPc) { pc.Promoting? && pc.m in {RaiseFlag, Take, Install} }

  lemma ObserveNotMoving(c: Config, r: Reader, ch: Choice)
    ensures !Moving(ObserveMove(c, r, ch).1.pc)
  {
  }

  lemma ApplyNotMoving(c: Config, sh: Shared, me: Tid, r: Reader, a: ApplyPc, then_: Then)
    requires ApplyCan(c, sh, me, a)
    ensures !Moving(ApplyMove(c, sh, me, r, a, then_).1.pc)
  {
  }

  lemma ProbeNotMoving(c: Config, sh: Shared, r: Reader, p: ProbePc, ch: Choice)
    ensures !Moving(ProbeMove(c, sh, r, p, ch).1.pc)
  {
  }

  lemma MissNotMoving(c: Config, sh: Shared, r: Reader, x: MissPc, ch: Choice)
    ensures !Moving(MissMove(c, sh, r, x, ch).1.pc)
  {
  }

  lemma PromoteMoving(c: Config, r: Reader, p: PromotePc, ch: Choice, eff: Effect, r': Reader, m: PromotePc)
    requires PromoteMove(c, r, p, ch) == (eff, r') && r'.pc == Promoting(m) && Moving(r'.pc)
    ensures r.key == r'.key && (m == RaiseFlag ==> eff.Track? && r.key in eff.hot)
    ensures (m == Take ==> p == RaiseFlag) && (m == Install ==> p == Take)
  {
  }

  /** How a reader gets to the transfer. */
  lemma PromoterCame(c: Config, sh: Shared, me: Tid, r: Reader, ch: Choice, eff: Effect, r': Reader, m: PromotePc)
    requires ReaderCan(c, sh, me, r, ch) && ReaderMove(c, sh, me, r, ch) == (eff, r')
    requires r'.pc == Promoting(m) && Moving(r'.pc)
    ensures r.pc.Promoting? && r.key == r'.key && (m == RaiseFlag ==> eff.Track? && r.key in eff.hot)
    ensures m == Take ==> r.pc == Promoting(RaiseFlag)
    ensures m == Install ==> r.pc == Promoting(Take)
  {
    match r.pc
    case Observing => ObserveNotMoving(c, r, ch);
    case Applying(a, then_) => ApplyNotMoving(c, sh, me, r, a, then_);
    case Probing(p) => ProbeNotMoving(c, sh, r, p, ch);
    case Promoting(p) => PromoteMoving(c, r, p, ch, eff, r', m);
    case Missing(x) => MissNotMoving(c, sh, r, x, ch);
  }

  lemma PromoterBefore(c: Config, sh: Shared, me: Tid, th: Thread, ch: Choice, eff: Effect, th': Thread, m: PromotePc)
    requires Can(c, sh, me, th, ch) && Move(c, sh, me, th, ch) == (eff, th')
    requires th'.R? && th'.r.pc == Promoting(m) && Moving(th'.r.pc)
    ensures th.R? && th.r.key == th'.r.key
    ensures m == RaiseFlag ==> eff.Track? && th.r.key in eff.hot
    ensures m == Take ==> th.r.pc == Promoting(RaiseFlag)
    ensures m == Install ==> th.r.pc == Promoting(Take)
  {
    if th.R? {
      PromoterCame(c, sh, me, th.r, ch, eff, th'.r, m);
    }
  }

  lemma RefillersHotAfterAct(c: Config, s: State, t: Tid, ch: Choice, eff: Effect, th: Thread, s': State, k: Key,
                             u: Tid, pc: FlightPc)
    requires t in s.threads && Can(c, s.sh, t, s.threads[t], ch) && Move(c, s.sh, t, s.threads[t], ch) == (eff, th)
    requires Acted(s, t, eff, th, s') && MoversHot(s, k)
    requires Refiller(s', u, k, pc) && pc in {FHotDel, FHotStore}
    ensures k in s.sh.hot
  {
    if u == t {
      if s.threads[t].F? {
        RefillerCame(c, s.sh, t, s.threads[t].f, ch, eff, th.f);
        assert pc == FHotStore ==> Refiller(s, t, k, FHotDel);
      }
    } else if u in s.threads {
      assert Refiller(s, u, k, pc);
    }
  }

  lemma HotAfterAct(c: Config, s: State, t: Tid, ch: Choice, eff: Effect, th: Thread, s': State, k: Key)
    requires t in s.threads && Can(c, s.sh, t, s.threads[t], ch) && Move(c, s.sh, t, s.threads[t], ch) == (eff, th)
    requires Acted(s, t, eff, th, s') && Guard(c, s.sh, t, eff) && CalmEffect(s, t, eff, k) && MoversHot(s, k)
    ensures MoversHot(s', k)
  {
    CalmTiers(c, s, t, eff, k);
    forall u, m | Promoter(s', u, k, m) && m in {RaiseFlag, Take, Install} ensures k in s'.sh.hot {
      if u == t {
        PromoterBefore(c, s.sh, t, s.threads[t], ch, eff, th, m);
        if m == Take {
          assert Promoter(s, t, k, RaiseFlag);
        } else if m == Install {
          assert Promoter(s, t, k, Take);
        }
      } else if u in s.threads {
        assert Promoter(s, u, k, m);
      }
    }
    forall u, pc | Refiller(s', u, k, pc) && pc in {FHotDel, FHotStore} ensures k in s'.sh.hot {
      RefillersHotAfterAct(c, s, t, ch, eff, th, s', k, u, pc);
    }
  }

  // ------------------------------------------------- another thread steps

  lemma MoverHolds(c: Config, s: State, u: Tid, k: Key)
    requires Inv(c, s) && (Carries(s, u, k) || RefillCarries(s, u, k))
    ensures OwnsMu(s.sh, u, c.stripe(k))
  {
    if Carries(s, u, k) {
      CarrierHolds(c, s, u, k);
    } else {
      RefillerHolds(c, s, u, k, FHotStore);
    }
  }

  /** Who fills probation holds the stripe, so it is not while another carries k. */
  lemma NotRefilled(c: Config, s: State, t: Tid, ch: Choice, eff: Effect, th: Thread, s': State, u: Tid, k: Key)
    requires OwnsMu(s.sh, u, c.stripe(k)) && (Carries(s, u, k) || RefillCarries(s, u, k)) && k !in s.sh.prob
    requires t in s.threads && Can(c, s.sh, t, s.threads[t], ch) && Move(c, s.sh, t, s.threads[t], ch) == (eff, th)
    requires Acted(s, t, eff, th, s') && CalmEffect(s, t, eff, k)
    requires k in s'.sh.prob ==> OwnsMu(s.sh, t, c.stripe(k))
    ensures k !in s'.sh.prob
  {
    CarriedOn(c, s, t, ch, eff, th, s', u, k);
  }

  /** Nobody refills probation while k is present elsewhere. */
  lemma ProbationStaysEmpty(c: Config, s: State, t: Tid, ch: Choice, eff: Effect, th: Thread, s': State, k: Key)
    requires Inv(c, s) && Present(s, k) && k !in s.sh.prob
    requires t in s.threads && Can(c, s.sh, t, s.threads[t], ch) && Move(c, s.sh, t, s.threads[t], ch) == (eff, th)
    requires Acted(s, t, eff, th, s') && CalmEffect(s, t, eff, k) && CalmTiersAfter(c, s, t, eff, k)
    ensures k !in s'.sh.prob
  {
    if k !in s.sh.prot {
      var u :| Carries(s, u, k) || RefillCarries(s, u, k);
      MoverHolds(c, s, u, k);
      NotRefilled(c, s, t, ch, eff, th, s', u, k);
    }
  }

  /** What the last probe relies on survives other threads' steps. */
  lemma LastProbeKept(c: Config, s: State, t: Tid, ch: Choice, eff: Effect, th: Thread, s': State, k: Key)
    requires Inv(c, s) && BeforeLastProbe(s, k)
    requires t in s.threads && Can(c, s.sh, t, s.threads[t], ch) && Move(c, s.sh, t, s.threads[t], ch) == (eff, th)
    requires Acted(s, t, eff, th, s') && Guard(c, s.sh, t, eff) && CalmEffect(s, t, eff, k)
    ensures BeforeLastProbe(s', k)
  {
    CalmTiers(c, s, t, eff, k);
    ProbationStaysEmpty(c, s, t, ch, eff, th, s', k);
    if k !in s.sh.prot {
      var u :| RefillCarries(s, u, k);
      CarriedOn(c, s, t, ch, eff, th, s', u, k);
    }
  }

  /** Whoever takes the candidate holds the stripe. */
  lemma TakerHolds(c: Config, s: State, t: Tid, k: Key)
    requires Inv(c, s) && (Promoter(s, t, k, Take) || Refiller(s, t, k, FHotDel))
    ensures OwnsMu(s.sh, t, c.stripe(k))
  {
    if Promoter(s, t, k, Take) {
      assert ThreadInv(c, s.sh, t, s.threads[t]);
      assert HoldsMu(c, Pending(s.sh, t), s.threads[t], c.stripe(k));
    } else {
      RefillerHolds(c, s, t, k, FHotDel);
    }
  }

  // What is enough for a lookup to stay safe while another thread steps.

  ghost predicate PresenceKept(s: State, s': State, k: Key) {
    && (Present(s, k) ==> Present(s', k)) && (InProtected(s, k) ==> InProtected(s', k))
    && (Present(s, k) && k !in s.sh.prob ==> k !in s'.sh.prob)
  }

  ghost predicate ProbeKept(s: State, s': State, k: Key) { BeforeLastProbe(s, k) ==> BeforeLastProbe(s', k) }

  ghost predicate HeldKept(s: State, s': State, pc: ReadPc, k: Key) {
    pc.Probing? && pc.p in {HeldHot, HeldProtected, HeldCandidate} && k in s.sh.prob ==> k in s'.sh.prob
  }

  lemma SafeUndisturbed(c: Config, s: State, s': State, r: Reader, k: Key)
    requires Safe(c, s, r, k) && PresenceKept(s, s', k) && ProbeKept(s, s', k) && HeldKept(s, s', r.pc, k)
    ensures Safe(c, s', r, k)
  {
  }

  lemma PresentKept(c: Config, s: State, t: Tid, ch: Choice, eff: Effect, th: Thread, s': State, k: Key)
    requires Inv(c, s) && MoversHot(s, k)
    requires t in s.threads && Can(c, s.sh, t, s.threads[t], ch) && Move(c, s.sh, t, s.threads[t], ch) == (eff, th)
    requires Acted(s, t, eff, th, s') && Guard(c, s.sh, t, eff) && CalmEffect(s, t, eff, k)
    ensures PresenceKept(s, s', k)
  {
    CalmTiers(c, s, t, eff, k);
    if Present(s, k) {
      PresentAfterAct(c, s, t, ch, eff, th, s', k);
      if k !in s.sh.prob {
        ProbationStaysEmpty(c, s, t, ch, eff, th, s', k);
      }
    }
  }

  /** A lookup that holds the stripe keeps the candidate it found. */
  lemma CandidateKept(c: Config, s: State, t: Tid, eff: Effect, th: Thread, s': State, r: Tid, k: Key)
    requires Inv(c, s) && r != t && OwnsMu(s.sh, r, c.stripe(k)) && k in s.sh.prob
    requires Acted(s, t, eff, th, s') && Guard(c, s.sh, t, eff) && CalmEffect(s, t, eff, k)
    ensures k in s'.sh.prob
  {
    CalmTiers(c, s, t, eff, k);
    if k !in s'.sh.prob {
      TakerHolds(c, s, t, k);
    }
  }

  lemma LastProbeStep(c: Config, s: State, t: Tid, ch: Choice, eff: Effect, th: Thread, s': State, k: Key)
    requires Inv(c, s)
    requires t in s.threads && Can(c, s.sh, t, s.threads[t], ch) && Move(c, s.sh, t, s.threads[t], ch) == (eff, th)
    requires Acted(s, t, eff, th, s') && Guard(c, s.sh, t, eff) && CalmEffect(s, t, eff, k)
    ensures ProbeKept(s, s', k)
  {
    if BeforeLastProbe(s, k) {
      LastProbeKept(c, s, t, ch, eff, th, s', k);
    }
  }

  lemma HolderUndisturbed(c: Config, s: State, t: Tid, eff: Effect, th: Thread, s': State, r: Tid, k: Key)
    requires Inv(c, s) && r in s.threads && s.threads[r].R? && s.threads[r].r.key == k && r != t
    requires Acted(s, t, eff, th, s') && Guard(c, s.sh, t, eff) && CalmEffect(s, t, eff, k)
    ensures HeldKept(s, s', s.threads[r].r.pc, k)
  {
    var pc := s.threads[r].r.pc;
    if pc.Probing? && pc.p in {HeldHot, HeldProtected, HeldCandidate} && k in s.sh.prob {
      ProbeHolds(c, s, r);
      CandidateKept(c, s, t, eff, th, s', r, k);
    }
  }

  lemma SafeWhileOthersAct(c: Config, s: State, t: Tid, ch: Choice, eff: Effect, th: Thread, s': State, r: Tid, k: Key)
    requires Inv(c, s) && SafeRead(c, s, r, k) && r != t
    requires t in s.threads && Can(c, s.sh, t, s.threads[t], ch) && Move(c, s.sh, t, s.threads[t], ch) == (eff, th)
    requires Acted(s, t, eff, th, s') && Guard(c, s.sh, t, eff) && CalmEffect(s, t, eff, k)
    ensures SafeRead(c, s', r, k)
  {
    HotAfterAct(c, s, t, ch, eff, th, s', k);
    PresentKept(c, s, t, ch, eff, th, s', k);
    LastProbeStep(c, s, t, ch, eff, th, s', k);
    HolderUndisturbed(c, s, t, eff, th, s', r, k);
    SafeUndisturbed(c, s, s', s.threads[r].r, k);
  }

  lemma ProbeHolds(c: Config, s: State, r: Tid)
    requires Inv(c, s) && r in s.threads && s.threads[r].R?
    ensures s.threads[r].r.pc.Probing? && s.threads[r].r.pc.p in {WaitHeld, HeldHot, HeldProtected, HeldCandidate} ==>
              OwnsMu(s.sh, r, c.stripe(s.threads[r].r.key))
  {
    assert ThreadInv(c, s.sh, r, s.threads[r]);
    if s.threads[r].r.pc.Probing? && s.threads[r].r.pc.p in {WaitHeld, HeldHot, HeldProtected, HeldCandidate} {
      assert HoldsMu(c, Pending(s.sh, r), s.threads[r], c.stripe(s.threads[r].r.key));
    }
  }

  // --------------------------------------------------- the reader steps

  /** What the lookup's own probe finds, unless it is the last one and the key is in
      neither tier. */
  lemma ProbeFinds(c: Config, s: State, r: Reader, p: ProbePc, ch: Choice, eff: Effect, r': Reader)
    requires Inv(c, s) && c.probation && Unexpired(s, r.key) && r.pc == Probing(p) && Safe(c, s, r, r.key)
    requires p == LastProbe ==> r.key in s.sh.prot
    requires ProbeCan(c, s.sh, r, p, ch) && ProbeMove(c, s.sh, r, p, ch) == (eff, r')
    ensures Safe(c, s, r', r.key) && (eff == Nop || eff.LockMu? || eff.UnlockMu?)
  {
    var k := r.key;
    if p == LoadFlag && c.stripe(k) !in s.sh.flag {
      FlagDown(c, s, k);
    }
    if p in {WaitLock, LockKey} {
      StripeFree(c, s, k);
    }
  }

  /** A probe changes neither the tiers nor who carries what. */
  lemma SafeAfterProbe(c: Config, s: State, t: Tid, eff: Effect, r': Reader, s': State, k: Key)
    requires Acted(s, t, eff, R(r'), s') && s.threads[t].R? && s.threads[t].r.pc.Probing?
    requires eff == Nop || eff.LockMu? || eff.UnlockMu?
    requires Safe(c, s, r', k)
    ensures Safe(c, s', r', k)
  {
    forall u | Carries(s, u, k) ensures Carries(s', u, k) {
    }
    forall u | RefillCarries(s, u, k) ensures RefillCarries(s', u, k) {
    }
  }

  /** Past the decision to promote, a calm read ends in a local hit. */
  lemma PromotionServes(c: Config, s: State, t: Tid, r: Reader, ch: Choice, eff: Effect, r': Reader, s': State)
    requires Safe(c, s, r, r.key) && (r.pc.Promoting? || r.pc.Applying?) && t in s.threads && s.threads[t] == R(r)
    requires ReaderCan(c, s.sh, t, r, ch) && ReaderMove(c, s.sh, t, r, ch) == (eff, r') && CalmEffect(s, t, eff, r.key)
    ensures Safe(c, s', r', r.key)
  {
  }

  /** The lookup is about to probe the protected tier for the last time, and the key is
      in neither tier, because a refill carries it. */
  ghost predicate InGap(s: State, r: Tid, k: Key) {
    && r in s.threads && s.threads[r].R? && s.threads[r].r.key == k && s.threads[r].r.pc == Probing(LastProbe)
    && k !in s.sh.prob && k !in s.sh.prot && Refilled(s, k)
  }

  /** In the gap the probe misses. */
  lemma GapMisses(c: Config, s: State, ch: Choice, eff: Effect, th: Thread, r: Tid, k: Key)
    requires InGap(s, r, k) && Can(c, s.sh, r, s.threads[r], ch) && Move(c, s.sh, r, s.threads[r], ch) == (eff, th)
    ensures th == R(s.threads[r].r.(pc := Missing(Capture))) && eff == Nop
  {
  }

  lemma SafeWhenReading(c: Config, s: State, ch: Choice, eff: Effect, th: Thread, s': State, r: Tid, k: Key)
    requires Inv(c, s) && c.probation && Unexpired(s, k) && SafeRead(c, s, r, k) && !InGap(s, r, k)
    requires Can(c, s.sh, r, s.threads[r], ch) && Move(c, s.sh, r, s.threads[r], ch) == (eff, th)
    requires Acted(s, r, eff, th, s') && Guard(c, s.sh, r, eff) && CalmEffect(s, r, eff, k)
    ensures SafeRead(c, s', r, k)
  {
    HotAfterAct(c, s, r, ch, eff, th, s', k);
    var x := s.threads[r].r;
    ReaderIdentity(c, s.sh, r, x, ch, eff, th.r);
    if x.pc.Probing? {
      ProbeFinds(c, s, x, x.pc.p, ch, eff, th.r);
      SafeAfterProbe(c, s, r, eff, th.r, s', k);
    } else {
      PromotionServes(c, s, r, x, ch, eff, th.r, s');
    }
  }

  // ------------------------------------------------------------ any step

  lemma SafeWhileWorldSteps(c: Config, s: State, l: Label, r: Tid, k: Key)
    requires Inv(c, s) && SafeRead(c, s, r, k) && Enabled(c, s, l) && !l.Act? && Calm(c, s, l, k)
    ensures SafeRead(c, After(c, s, l), r, k)
  {
    var s' := After(c, s, l);
    OtherSame(c, s, l, r);
    forall u, m | Promoter(s', u, k, m) ensures Promoter(s, u, k, m) {
    }
    forall u, pc | Refiller(s', u, k, pc) ensures Refiller(s, u, k, pc) {
    }
    forall u | Carries(s, u, k) ensures Carries(s', u, k) {
      OtherSame(c, s, l, u);
    }
    forall u | RefillCarries(s, u, k) ensures RefillCarries(s', u, k) {
      OtherSame(c, s, l, u);
    }
  }

  /** The lookup has not missed, and if it is over, it was a local hit. */
  ghost predicate NotMissed(s: State, r: Tid) {
    && r in s.threads && s.threads[r].R?
    && !s.threads[r].r.pc.Missing? && s.threads[r].r.pc != Probing(MissUnlock)
    && (s.threads[r].r.pc.Over? ==> s.threads[r].r.pc.end == ServedLocal)
  }

  lemma SafeHasNotMissed(c: Config, s: State, r: Tid, k: Key)
    requires SafeRead(c, s, r, k)
    ensures NotMissed(s, r)
  {
  }

  lemma ActsInGap(c: Config, s: State, l: Label, r: Tid, k: Key)
    requires Inv(c, s) && Enabled(c, s, l) && l.Act? && l.t == r && InGap(s, r, k)
    ensures !NotMissed(After(c, s, l), r)
  {
    var s' := After(c, s, l);
    var eff, th := Acts(c, s, l.t, l.ch, s');
    GapMisses(c, s, l.ch, eff, th, r, k);
  }

  /** A calm step makes a lookup that has not missed miss exactly if it is that lookup's
      own last probe in the gap; any other calm step leaves it as safe as before. */
  lemma MissesExactly(c: Config, s: State, l: Label, r: Tid, k: Key)
    requires Inv(c, s) && c.probation && Unexpired(s, k) && SafeRead(c, s, r, k) && Enabled(c, s, l) && Calm(c, s, l, k)
    ensures l.Act? && l.t == r && InGap(s, r, k) <==> !NotMissed(After(c, s, l), r)
    ensures !(l.Act? && l.t == r && InGap(s, r, k)) ==> SafeRead(c, After(c, s, l), r, k)
  {
    var s' := After(c, s, l);
    if l.Act? && l.t == r && InGap(s, r, k) {
      ActsInGap(c, s, l, r, k);
    } else {
      if l.Act? {
        var eff, th := Acts(c, s, l.t, l.ch, s');
        if l.t == r {
          SafeWhenReading(c, s, l.ch, eff, th, s', r, k);
        } else {
          SafeWhileOthersAct(c, s, l.t, l.ch, eff, th, s', r, k);
        }
      } else {
        SafeWhileWorldSteps(c, s, l, r, k);
      }
      SafeHasNotMissed(c, s', r, k);
    }
  }

  /** The calm stretch of a run from state a to state n. */
  ghost predicate CalmStretch(c: Config, run: seq<State>, a: nat, n: nat, k: Key)
    requires a <= n < |run|
  {
    forall i {:trigger CalmStepAt(c, run, i, k)} :: a <= i < n ==> CalmStepAt(c, run, i, k)
  }

  ghost predicate CalmStepAt(c: Config, run: seq<State>, i: nat, k: Key)
    requires i + 1 < |run|
  {
    Unexpired(run[i], k) && CalmNext(c, run[i], run[i + 1], k)
  }

  // ---------------------------------------------------------------- runs

  /** In step i of the run the lookup makes its last probe, in the gap. */
  ghost predicate ProbesInGap(run: seq<State>, i: nat, r: Tid, k: Key)
    requires i + 1 < |run|
  {
    InGap(run[i], r, k) && (r !in run[i + 1].threads || run[i + 1].threads[r] != run[i].threads[r])
  }

  /** Only the lookup's own step moves it. */
  lemma MovedItself(c: Config, s: State, l: Label, r: Tid, k: Key)
    requires Inv(c, s) && Enabled(c, s, l) && InGap(s, r, k)
    ensures l.Act? && l.t == r <==> r !in After(c, s, l).threads || After(c, s, l).threads[r] != s.threads[r]
  {
    if l.Act? && l.t == r {
      var eff, th := Acts(c, s, l.t, l.ch, After(c, s, l));
      GapMisses(c, s, l.ch, eff, th, r, k);
    } else {
      OtherSame(c, s, l, r);
    }
  }

  /** One calm step of a run. */
  lemma MissStep(c: Config, run: seq<State>, n: nat, r: Tid, k: Key)
    requires IsRun(c, run) && n + 1 < |run| && c.probation && CalmStepAt(c, run, n, k) && SafeRead(c, run[n], r, k)
    ensures ProbesInGap(run, n, r, k) <==> !NotMissed(run[n + 1], r)
    ensures !ProbesInGap(run, n, r, k) ==> SafeRead(c, run[n + 1], r, k)
  {
    RunInv(c, run, n);
    var l :| Enabled(c, run[n], l) && run[n + 1] == After(c, run[n], l) && Calm(c, run[n], l, k);
    MissesExactly(c, run[n], l, r, k);
    if InGap(run[n], r, k) {
      MovedItself(c, run[n], l, r, k);
    }
  }

  /** A lookup that has missed goes on to the origin, or gives up. */
  ghost predicate Missed(s: State, r: Tid) {
    && r in s.threads && s.threads[r].R?
    && (s.threads[r].r.pc.Missing? || (s.threads[r].r.pc.Over? && s.threads[r].r.pc.end != ServedLocal))
  }

  lemma MissedGoesOn(c: Config, sh: Shared, me: Tid, r: Reader, ch: Choice, eff: Effect, r': Reader)
    requires r.pc.Missing? && ReaderCan(c, sh, me, r, ch) && ReaderMove(c, sh, me, r, ch) == (eff, r')
    ensures r'.pc.Missing? || (r'.pc.Over? && r'.pc.end != ServedLocal)
  {
  }

  lemma MissedStays(c: Config, s: State, s': State, r: Tid)
    requires Inv(c, s) && Next(c, s, s') && Missed(s, r)
    ensures Missed(s', r)
  {
    var l :| Enabled(c, s, l) && s' == After(c, s, l);
    if l.Act? && l.t == r {
      var eff, th := Acts(c, s, l.t, l.ch, s');
      MissedGoesOn(c, s.sh, r, s.threads[r].r, l.ch, eff, th.r);
    } else {
      OtherSame(c, s, l, r);
    }
  }

  lemma GapIsMissed(c: Config, run: seq<State>, n: nat, r: Tid, k: Key)
    requires IsRun(c, run) && n + 1 < |run| && ProbesInGap(run, n, r, k)
    ensures Missed(run[n + 1], r)
  {
    RunInv(c, run, n);
    RunNext(c, run, n);
    var l :| Enabled(c, run[n], l) && run[n + 1] == After(c, run[n], l);
    MovedItself(c, run[n], l, r, k);
    var eff, th := Acts(c, run[n], l.t, l.ch, run[n + 1]);
    GapMisses(c, run[n], l.ch, eff, th, r, k);
  }

  /** Up to state n the lookup made its last probe in the gap. */
  ghost predicate HitGap(run: seq<State>, a: nat, n: nat, r: Tid, k: Key)
    requires a <= n < |run|
  {
    exists i {:trigger ProbesInGap(run, i, r, k)} :: a <= i < n && ProbesInGap(run, i, r, k)
  }

  /** What n steps have made of a safe lookup. */
  ghost predicate GapOrSafe(c: Config, run: seq<State>, a: nat, n: nat, r: Tid, k: Key)
    requires a <= n < |run|
  {
    if HitGap(run, a, n, r, k) then Missed(run[n], r) else SafeRead(c, run[n], r, k)
  }

  lemma AfterGap(c: Config, run: seq<State>, a: nat, n: nat, r: Tid, k: Key)
    requires IsRun(c, run) && a <= n && n + 1 < |run| && HitGap(run, a, n, r, k) && Missed(run[n], r)
    ensures HitGap(run, a, n + 1, r, k) && Missed(run[n + 1], r)
  {
    var i :| a <= i < n && ProbesInGap(run, i, r, k);
    assert a <= i < n + 1 && ProbesInGap(run, i, r, k);
    RunInv(c, run, n);
    RunNext(c, run, n);
    MissedStays(c, run[n], run[n + 1], r);
  }

  lemma BeforeGap(c: Config, run: seq<State>, a: nat, n: nat, r: Tid, k: Key)
    requires IsRun(c, run) && a <= n && n + 1 < |run| && c.probation && CalmStepAt(c, run, n, k)
    requires !HitGap(run, a, n, r, k) && SafeRead(c, run[n], r, k)
    ensures GapOrSafe(c, run, a, n + 1, r, k)
  {
    MissStep(c, run, n, r, k);
    if ProbesInGap(run, n, r, k) {
      GapIsMissed(c, run, n, r, k);
    }
  }

  lemma {:induction false} StretchGapOrSafe(c: Config, run: seq<State>, a: nat, n: nat, r: Tid, k: Key)
    requires IsRun(c, run) && a <= n < |run| && c.probation
    requires SafeRead(c, run[a], r, k) && CalmStretch(c, run, a, n, k)
    ensures GapOrSafe(c, run, a, n, r, k)
    decreases n
  {
    if a < n {
      StretchGapOrSafe(c, run, a, n - 1, r, k);
      assert CalmStepAt(c, run, n - 1, k);
      if HitGap(run, a, n - 1, r, k) {
        AfterGap(c, run, a, n - 1, r, k);
      } else {
        BeforeGap(c, run, a, n - 1, r, k);
      }
    }
  }

  /** A lookup of k begins: it is about to look into a tier. */
  ghost predicate Looking(s: State, r: Tid, k: Key) {
    && r in s.threads && s.threads[r].R? && s.threads[r].r.key == k
    && (s.threads[r].r.pc == Probing(Protected) || s.threads[r].r.pc == Probing(Probation))
  }

  /** The hand-off, exactly. A lookup of k begins while k is in a tier, or moving between
      them. As long as k does not expire and nothing evicts, invalidates, purges or
      demotes it, the lookup misses if and only if its last probe falls between a
      refill's removal of the candidate and that refill's store. */
  lemma MissIffInGap(c: Config, run: seq<State>, a: nat, n: nat, r: Tid, k: Key)
    requires IsRun(c, run) && a <= n < |run| && c.probation
    requires Looking(run[a], r, k) && Present(run[a], k) && MoversHot(run[a], k)
    requires CalmStretch(c, run, a, n, k)
    ensures !NotMissed(run[n], r) <==> HitGap(run, a, n, r, k)
  {
    StretchGapOrSafe(c, run, a, n, r, k);
    if !HitGap(run, a, n, r, k) {
      SafeHasNotMissed(c, run[n], r, k);
    }
  }

  /** So a read that races promotions only never misses: no gap without a refill. */
  lemma NoGap(c: Config, run: seq<State>, a: nat, n: nat, r: Tid, k: Key)
    requires IsRun(c, run) && a <= n < |run| && c.probation
    requires Looking(run[a], r, k) && Present(run[a], k) && MoversHot(run[a], k)
    requires CalmStretch(c, run, a, n, k)
    requires forall i :: a <= i < n ==> !Refilled(run[i], k)
    ensures NotMissed(run[n], r)
  {
    MissIffInGap(c, run, a, n, r, k);
  }
}
