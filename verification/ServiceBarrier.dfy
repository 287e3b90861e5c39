/** The epoch barrier: what a finished invalidation or purge leaves behind. */
module ServiceBarrier {
  import opened ServiceState
  import opened ServiceSteps
  import opened ServiceInvariant
  import opened ServiceRuns
  import opened ServiceTheorems

  /** The barrier on k is newer than every epoch of the earlier state `was`. */
  ghost predicate Sealed(c: Config, sh: Shared, k: Key, was: Shared) {
    Epoch(c, was, k) < Bar(c, sh, k)
  }

  /** The writer's current pass is done with k. */
  ghost predicate Reached(w: Writer, k: Key) {
    match w.pc
    case Invalidating(_) => exists j :: 0 <= j < w.next && j < |w.keys| && w.keys[j] == k
    case Gating(g) => g == Let && k in w.keys
    case Forgetting => k in w.keys
    case Returned => k in w.keys
    case _ => false
  }

  /** The barrier a final pass or a purge puts up on k, seen from the earlier state `was`. */
  ghost predicate Bars(c: Config, sh: Shared, th: Thread, k: Key, was: Shared) {
    match th
    case W(w) =>
      w.final ==>
        && (c.stripe(k) in w.bumped ==> Epoch(c, was, k) < w.bumped[c.stripe(k)])
        && (Reached(w, k) ==> Sealed(c, sh, k, was))
    case P(p) =>
      (p.pc == PBump && c.stripe(k) < p.next) || p.pc == PUnlock || p.pc == PEnd ==> Sealed(c, sh, k, was)
    case _ => true
  }

  /** Barriers stay up while others step. */
  lemma BarsStay(c: Config, sh: Shared, sh': Shared, th: Thread, k: Key, was: Shared)
    requires Bars(c, sh, th, k, was) && Bar(c, sh, k) <= Bar(c, sh', k)
    ensures Bars(c, sh', th, k, was)
  {
  }

  lemma SealRaises(c: Config, sh: Shared, me: Tid, k: Key, i: Stripe, clean: map<Key, nat>, bar: nat)
    ensures bar <= Bar(c, Apply(sh, me, Seal(k, i, clean, bar)), k)
  {
  }

  /** The pass takes the next stripe, or has reached its end. */
  lemma InvalidateBarsNext(c: Config, sh: Shared, w: Writer, eff: Effect, w': Writer, k: Key, was: Shared)
    requires w.pc == Invalidating(InvLock) && InvalidateCan(c, sh, w, InvLock) && Bars(c, sh, W(w), k, was)
    requires InvalidateMove(c, sh, w, InvLock) == (eff, w')
    ensures Bars(c, sh, W(w'), k, was)
  {
    if w.next >= |w.keys| && k in w.keys {
      var j :| 0 <= j < |w.keys| && w.keys[j] == k;
      assert Reached(w, k);
    }
  }

  lemma InvalidateBarsInside(c: Config, sh: Shared, w: Writer, v: InvPc, eff: Effect, w': Writer, k: Key, was: Shared)
    requires w.pc == Invalidating(v) && InvalidateCan(c, sh, w, v) && Bars(c, sh, W(w), k, was)
    requires InvalidateMove(c, sh, w, v) == (eff, w') && v in {InvBump, InvProt, InvProb}
    requires Epoch(c, was, k) <= Epoch(c, sh, k)
    ensures Bars(c, sh, W(w'), k, was)
  {
    assert Reached(w', k) ==> Reached(w, k);
  }

  lemma InvalidateBarsUnlock(c: Config, sh: Shared, me: Tid, w: Writer, eff: Effect, w': Writer, k: Key, was: Shared)
    requires w.pc == Invalidating(InvUnlock) && InvalidateCan(c, sh, w, InvUnlock) && WriterShape(c, w)
    requires InvalidateMove(c, sh, w, InvUnlock) == (eff, w') && Bars(c, Apply(sh, me, eff), W(w), k, was)
    ensures Bars(c, Apply(sh, me, eff), W(w'), k, was)
  {
    var x := w.keys[w.next];
    SealRaises(c, sh, me, x, c.stripe(x), WroteAt(w, x), At(w.bumped, c.stripe(x)));
    if Reached(w', k) && x != k {
      var j :| 0 <= j < w'.next && w.keys[j] == k;
      assert Reached(w, k);
    }
  }

  lemma InvalidateBars(c: Config, sh: Shared, me: Tid, w: Writer, v: InvPc, eff: Effect, w': Writer, k: Key,
                       was: Shared)
    requires w.pc == Invalidating(v) && InvalidateCan(c, sh, w, v) && WriterShape(c, w) && Bars(c, sh, W(w), k, was)
    requires InvalidateMove(c, sh, w, v) == (eff, w') && EffectOk(sh, me, eff)
    requires Epoch(c, was, k) <= Epoch(c, sh, k) && Bar(c, sh, k) <= Bar(c, Apply(sh, me, eff), k)
    ensures Bars(c, Apply(sh, me, eff), W(w'), k, was)
  {
    var sh' := Apply(sh, me, eff);
    if v == InvUnlock {
      BarsStay(c, sh, sh', W(w), k, was);
      InvalidateBarsUnlock(c, sh, me, w, eff, w', k, was);
    } else {
      if v == InvLock {
        InvalidateBarsNext(c, sh, w, eff, w', k, was);
      } else {
        InvalidateBarsInside(c, sh, w, v, eff, w', k, was);
      }
      BarsStay(c, sh, sh', W(w'), k, was);
    }
  }

  lemma ThroughBarsEnd(c: Config, sh: Shared, me: Tid, w: Writer, ch: Choice, eff: Effect, w': Writer, k: Key,
                       was: Shared)
    requires w.pc == Through(ThUnlock) && ThroughCan(c, sh, w, ThUnlock, ch) && WriterShape(c, w)
    requires ThroughMove(c, sh, w, ThUnlock, ch) == (eff, w') && Bars(c, sh, W(w), k, was)
    ensures Bars(c, Apply(sh, me, eff), W(w'), k, was)
  {
    var x := w.keys[0];
    SealRaises(c, sh, me, x, c.stripe(x), WroteAt(w, x), At(w.bumped, c.stripe(x)));
    assert k in w.keys ==> k == x;
  }

  lemma ThroughBars(c: Config, sh: Shared, me: Tid, w: Writer, h: ThroughPc, ch: Choice, eff: Effect, w': Writer,
                    k: Key, was: Shared)
    requires w.pc == Through(h) && ThroughCan(c, sh, w, h, ch) && WriterShape(c, w) && Bars(c, sh, W(w), k, was)
    requires ThroughMove(c, sh, w, h, ch) == (eff, w') && EffectOk(sh, me, eff)
    requires Epoch(c, was, k) <= Epoch(c, sh, k)
    ensures Bars(c, Apply(sh, me, eff), W(w'), k, was)
  {
    if h == ThUnlock {
      ThroughBarsEnd(c, sh, me, w, ch, eff, w', k, was);
    }
  }

  /** Gates, the command itself and forgetting put up no barrier and take none down; the
      command's end starts the final pass. */
  lemma OtherWriterBars(c: Config, sh: Shared, w: Writer, ch: Choice, eff: Effect, w': Writer, k: Key, was: Shared)
    requires w.pc.Gating? || w.pc.Calling? || w.pc.Forgetting?
    requires WriterCan(c, sh, w, ch) && WriterShape(c, w) && Bars(c, sh, W(w), k, was)
    requires WriterMove(c, sh, w, ch) == (eff, w')
    ensures Bars(c, sh, W(w'), k, was)
  {
  }

  lemma PurgerBars(c: Config, sh: Shared, me: Tid, p: Purger, eff: Effect, p': Purger, k: Key, was: Shared)
    requires PurgerCan(sh, p) && Bars(c, sh, P(p), k, was) && PurgerMove(sh, p) == (eff, p') && EffectOk(sh, me, eff)
    requires Epoch(c, was, k) <= Epoch(c, sh, k) && Bar(c, sh, k) <= Bar(c, Apply(sh, me, eff), k)
    ensures Bars(c, Apply(sh, me, eff), P(p'), k, was)
  {
    BarsStay(c, sh, Apply(sh, me, eff), P(p), k, was);
  }

  lemma WriterBars(c: Config, sh: Shared, me: Tid, w: Writer, ch: Choice, eff: Effect, w': Writer, k: Key, was: Shared)
    requires WriterCan(c, sh, w, ch) && WriterShape(c, w) && Bars(c, sh, W(w), k, was)
    requires WriterMove(c, sh, w, ch) == (eff, w') && EffectOk(sh, me, eff)
    requires Epoch(c, was, k) <= Epoch(c, sh, k) && Bar(c, sh, k) <= Bar(c, Apply(sh, me, eff), k)
    ensures Bars(c, Apply(sh, me, eff), W(w'), k, was)
  {
    if w.pc.Invalidating? {
      InvalidateBars(c, sh, me, w, w.pc.v, eff, w', k, was);
    } else if w.pc.Through? {
      ThroughBars(c, sh, me, w, w.pc.h, ch, eff, w', k, was);
    } else {
      OtherWriterBars(c, sh, w, ch, eff, w', k, was);
      BarsStay(c, sh, Apply(sh, me, eff), W(w'), k, was);
    }
  }

  lemma ActBars(c: Config, s: State, t: Tid, ch: Choice, s': State, k: Key, was: Shared)
    requires Inv(c, s) && Enabled(c, s, Act(t, ch)) && s' == After(c, s, Act(t, ch))
    requires Bars(c, s.sh, s.threads[t], k, was)
    requires Epoch(c, was, k) <= Epoch(c, s.sh, k) && Bar(c, s.sh, k) <= Bar(c, s'.sh, k)
    ensures Bars(c, s'.sh, s'.threads[t], k, was)
  {
    var eff, th := Acts(c, s, t, ch, s');
    assert ThreadInv(c, s.sh, t, s.threads[t]);
    match s.threads[t]
    case W(w) => WriterBars(c, s.sh, t, w, ch, eff, th.w, k, was);
    case P(p) => PurgerBars(c, s.sh, t, p, eff, th.p, k, was);
    case _ =>
  }

  lemma NewBars(c: Config, s: State, l: Label, t: Tid, k: Key, was: Shared)
    requires Enabled(c, s, l) && t in After(c, s, l).threads && t !in s.threads
    ensures Bars(c, After(c, s, l).sh, After(c, s, l).threads[t], k, was)
  {
  }

  lemma OtherSame(c: Config, s: State, l: Label, t: Tid)
    requires Enabled(c, s, l) && t in s.threads && (l.Act? ==> l.t != t)
    ensures t in After(c, s, l).threads && After(c, s, l).threads[t] == s.threads[t]
  {
  }

  lemma NextBars(c: Config, s: State, s': State, t: Tid, k: Key, was: Shared)
    requires Inv(c, s) && Next(c, s, s') && t in s'.threads
    requires t in s.threads ==> Bars(c, s.sh, s.threads[t], k, was)
    requires Epoch(c, was, k) <= Epoch(c, s.sh, k) && Bar(c, s.sh, k) <= Bar(c, s'.sh, k)
    ensures Bars(c, s'.sh, s'.threads[t], k, was)
  {
    var l :| Enabled(c, s, l) && s' == After(c, s, l);
    if t !in s.threads {
      NewBars(c, s, l, t, k, was);
    } else if l.Act? && l.t == t {
      ActBars(c, s, t, l.ch, s', k, was);
    } else {
      OtherSame(c, s, l, t);
      BarsStay(c, s.sh, s'.sh, s.threads[t], k, was);
    }
  }

  lemma StepBars(c: Config, run: seq<State>, n: nat, t: Tid, k: Key, was: Shared)
    requires IsRun(c, run) && n + 1 < |run| && t in run[n + 1].threads && Epoch(c, was, k) <= Epoch(c, run[n].sh, k)
    requires t in run[n].threads ==> Bars(c, run[n].sh, run[n].threads[t], k, was)
    ensures Bars(c, run[n + 1].sh, run[n + 1].threads[t], k, was)
  {
    StepGrows(c, run, n, k);
    RunInv(c, run, n);
    RunNext(c, run, n);
    NextBars(c, run[n], run[n + 1], t, k, was);
  }

  lemma {:induction false} RunBars(c: Config, run: seq<State>, i: nat, n: nat, t: Tid, k: Key)
    requires IsRun(c, run) && i <= n < |run| && t in run[n].threads
    requires t in run[i].threads ==> Bars(c, run[i].sh, run[i].threads[t], k, run[i].sh)
    ensures Bars(c, run[n].sh, run[n].threads[t], k, run[i].sh)
    decreases n
  {
    if i < n {
      if t in run[n - 1].threads {
        RunBars(c, run, i, n - 1, t, k);
      }
      RunGrows(c, run, i, n - 1, k);
      StepBars(c, run, n - 1, t, k, run[i].sh);
    }
  }

  // ------------------------------------- stripes behind the current pass

  /** A pass has advanced the epoch of every stripe whose keys it is done with. */
  ghost predicate Behind(c: Config, th: Thread) {
    th.W? && th.w.pc.Invalidating? ==>
      forall j :: 0 <= j < th.w.next && j < |th.w.keys| ==> c.stripe(th.w.keys[j]) in th.w.bumped
  }

  lemma InvalidateBehind(c: Config, sh: Shared, w: Writer, v: InvPc, eff: Effect, w': Writer)
    requires w.pc == Invalidating(v) && InvalidateCan(c, sh, w, v) && WriterShape(c, w) && Behind(c, W(w))
    requires InvalidateMove(c, sh, w, v) == (eff, w')
    ensures Behind(c, W(w'))
  {
  }

  lemma GateBegins(c: Config, sh: Shared, w: Writer, g: GatePc, ch: Choice)
    requires w.pc == Gating(g) && GateCan(c, sh, w, g, ch)
    ensures var w' := GateMove(c, sh, w, g, ch).1; w'.pc.Invalidating? ==> w'.next == 0
  {
  }

  lemma ThroughBegins(c: Config, sh: Shared, w: Writer, h: ThroughPc, ch: Choice)
    requires ThroughCan(c, sh, w, h, ch)
    ensures !ThroughMove(c, sh, w, h, ch).1.pc.Invalidating?
  {
  }

  /** Other steps start a pass at its first key, if they start one. */
  lemma OtherWriterBehind(c: Config, sh: Shared, w: Writer, ch: Choice, eff: Effect, w': Writer)
    requires !w.pc.Invalidating? && WriterCan(c, sh, w, ch) && WriterMove(c, sh, w, ch) == (eff, w')
    ensures w'.pc.Invalidating? ==> w'.next == 0
  {
    match w.pc
    case Gating(g) => GateBegins(c, sh, w, g, ch);
    case Calling =>
    case Through(h) => ThroughBegins(c, sh, w, h, ch);
    case Forgetting =>
  }

  lemma WriterBehind(c: Config, sh: Shared, w: Writer, ch: Choice, eff: Effect, w': Writer)
    requires WriterCan(c, sh, w, ch) && WriterShape(c, w) && Behind(c, W(w)) && WriterMove(c, sh, w, ch) == (eff, w')
    ensures Behind(c, W(w'))
  {
    if w.pc.Invalidating? {
      InvalidateBehind(c, sh, w, w.pc.v, eff, w');
    } else {
      OtherWriterBehind(c, sh, w, ch, eff, w');
    }
  }

  lemma ActBehind(c: Config, s: State, t: Tid, ch: Choice, s': State)
    requires Inv(c, s) && Enabled(c, s, Act(t, ch)) && s' == After(c, s, Act(t, ch)) && Behind(c, s.threads[t])
    ensures Behind(c, s'.threads[t])
  {
    var eff, th := Acts(c, s, t, ch, s');
    if s.threads[t].W? {
      assert ThreadInv(c, s.sh, t, s.threads[t]);
      WriterBehind(c, s.sh, s.threads[t].w, ch, eff, th.w);
    }
  }

  lemma NewBehind(c: Config, s: State, l: Label, t: Tid)
    requires Enabled(c, s, l) && t in After(c, s, l).threads && t !in s.threads
    ensures Behind(c, After(c, s, l).threads[t])
  {
  }

  lemma NextBehind(c: Config, s: State, s': State, t: Tid)
    requires Inv(c, s) && Next(c, s, s') && t in s'.threads && (t in s.threads ==> Behind(c, s.threads[t]))
    ensures Behind(c, s'.threads[t])
  {
    var l :| Enabled(c, s, l) && s' == After(c, s, l);
    if t !in s.threads {
      NewBehind(c, s, l, t);
    } else if l.Act? && l.t == t {
      ActBehind(c, s, t, l.ch, s');
    } else {
      OtherSame(c, s, l, t);
    }
  }

  lemma StepBehind(c: Config, run: seq<State>, n: nat, t: Tid)
    requires IsRun(c, run) && n + 1 < |run| && t in run[n + 1].threads
    requires t in run[n].threads ==> Behind(c, run[n].threads[t])
    ensures Behind(c, run[n + 1].threads[t])
  {
    RunInv(c, run, n);
    RunNext(c, run, n);
    NextBehind(c, run[n], run[n + 1], t);
  }

  lemma {:induction false} RunBehind(c: Config, run: seq<State>, n: nat, t: Tid)
    requires IsRun(c, run) && n < |run| && t in run[n].threads
    ensures Behind(c, run[n].threads[t])
  {
    if n > 0 {
      if t in run[n - 1].threads {
        RunBehind(c, run, n - 1, t);
      }
      StepBehind(c, run, n - 1, t);
    }
  }

  // ------------------------------------------------------------ the theorem

  /** The operation has still to advance the epoch of k's stripe for the last time: a write
      that has not returned from the origin, or whose final pass has not come to the stripe
      yet; a purge of the key likewise; a full purge that has not come to the stripe. */
  ghost predicate BarrierAhead(c: Config, th: Thread, k: Key) {
    match th
    case W(w) => !w.final || ((w.pc.Invalidating? || w.pc.Through?) && c.stripe(k) !in w.bumped)
    case P(p) => p.pc in {PLock, PProt, PProb} || (p.pc == PBump && p.next <= c.stripe(k))
    case _ => false
  }

  lemma AheadBars(c: Config, sh: Shared, th: Thread, k: Key, was: Shared)
    requires BarrierAhead(c, th, k) && Behind(c, th)
    ensures Bars(c, sh, th, k, was)
  {
  }

  /** The operation has finished with k: a write or key purge of k past its last
      invalidation, or a full purge. */
  ghost predicate Finished(th: Thread, k: Key) {
    match th
    case W(w) => k in w.keys && (w.pc == Forgetting || w.pc == Gating(Let) || w.pc == Returned)
    case P(p) => p.pc == PEnd
    case _ => false
  }

  /** A refill with this captured epoch is not, and will not be, at work on the
      tiers: it has not taken the stripe yet, or was turned away. */
  ghost predicate TurnedAway(s: State, k: Key, epoch: nat) {
    forall f :: f in s.threads && s.threads[f].F? ==>
      (s.threads[f].f.key == k && s.threads[f].f.epoch <= epoch ==>
        s.threads[f].f.pc in {FFetch, FLock, FCheck, FUnlock, FFinish, FEnd})
  }

  lemma BehindBar(c: Config, s: State, k: Key, epoch: nat)
    requires Inv(c, s) && epoch < Bar(c, s.sh, k)
    ensures k in s.sh.prot ==> epoch < s.sh.prot[k].epoch
    ensures k in s.sh.prob ==> epoch < s.sh.prob[k].epoch
    ensures TurnedAway(s, k, epoch) && epoch < Epoch(c, s.sh, k)
  {
    assert HistInv(c, s.sh, k) && TierInv(c, s.sh, k);
    forall f | f in s.threads && s.threads[f].F?
      ensures s.threads[f].f.key == k && s.threads[f].f.epoch <= epoch ==>
                s.threads[f].f.pc in {FFetch, FLock, FCheck, FUnlock, FFinish, FEnd}
    {
      assert ThreadInv(c, s.sh, f, s.threads[f]);
    }
  }

  /** Epoch barrier. When state i was reached, an invalidation or purge of k had not
      started, or its last barrier on k was still ahead: so for a write the captures made
      while the command was at the origin count too. Once it has finished there is, for
      ever after, no entry of k in either tier whose epoch was captured by state i, and no
      refill that captured its epoch by then is let through to the tiers any more. */
  lemma EpochBarrier(c: Config, run: seq<State>, i: nat, m: nat, n: nat, t: Tid, k: Key)
    requires IsRun(c, run) && i <= m <= n < |run|
    requires t in run[i].threads ==> BarrierAhead(c, run[i].threads[t], k)
    requires t in run[m].threads && Finished(run[m].threads[t], k)
    ensures k in run[n].sh.prot ==> Epoch(c, run[i].sh, k) < run[n].sh.prot[k].epoch
    ensures k in run[n].sh.prob ==> Epoch(c, run[i].sh, k) < run[n].sh.prob[k].epoch
    ensures TurnedAway(run[n], k, Epoch(c, run[i].sh, k))
  {
    if t in run[i].threads {
      RunBehind(c, run, i, t);
      AheadBars(c, run[i].sh, run[i].threads[t], k, run[i].sh);
    }
    RunBars(c, run, i, m, t, k);
    RunInv(c, run, m);
    FinishedIsSealed(c, run[m], t, k, run[i].sh);
    RunGrows(c, run, m, n, k);
    RunInv(c, run, n);
    BehindBar(c, run[n], k, Epoch(c, run[i].sh, k));
  }

  lemma FinishedIsSealed(c: Config, s: State, t: Tid, k: Key, was: Shared)
    requires Inv(c, s) && t in s.threads && Finished(s.threads[t], k) && Bars(c, s.sh, s.threads[t], k, was)
    ensures Sealed(c, s.sh, k, was)
  {
    assert ThreadInv(c, s.sh, t, s.threads[t]);
  }
}
