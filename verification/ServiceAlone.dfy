/** What the critical sections of the service do when nothing comes between their steps:
    the tiers, the epochs and the outcome they leave, whatever else the state holds. */
module ServiceAlone {
  import opened ServiceState
  import opened ServiceSteps
  import opened ServiceInvariant
  import opened ServiceEffects
  import opened ServiceRuns

  ghost predicate Takes(c: Config, run: seq<State>, j: nat, t: Tid, ch: Choice)
    requires j + 1 < |run|
  {
    Enabled(c, run[j], Act(t, ch)) && run[j + 1] == After(c, run[j], Act(t, ch))
  }

  /** From state i to state n only thread t steps, with these choices of the environment. */
  ghost predicate OnlySteps(c: Config, run: seq<State>, i: nat, n: nat, t: Tid, chs: nat -> Choice)
    requires i <= n < |run|
  {
    t in run[i].threads && forall j :: i <= j < n ==> Takes(c, run, j, t, chs(j))
  }

  // ------------------------------------------------------------ write-through

  /** What a store of a version leaves in a tier: if the cache accepts it, that version of k,
      for its lifetime from then on; otherwise nothing of k. */
  ghost predicate Stored(c: Config, accept: bool, k: Key, ver: nat, epoch: nat, candidate: bool, now: int,
                         tier: map<Key, Entry>, tier': map<Key, Entry>) {
    if accept then
      && k in tier' && tier' == tier[k := tier'[k]] && tier'[k].ver == ver && tier'[k].epoch == epoch
      && tier'[k].candidate == candidate && tier'[k].storedAt <= now
      && tier'[k].expiresAt == tier'[k].storedAt + StoreTTL(c, k, tier'[k].pttl, candidate)
    else tier' == tier - {k}
  }

  /** What writeThroughSet leaves protected: the version just written if the key is HOT and
      in cache mode, otherwise nothing of the key. */
  ghost predicate WrittenThrough(c: Config, accept: bool, was: Shared, v: nat, k: Key, prot: map<Key, Entry>) {
    var keep := accept && c.mode(k) == Cache && k in was.hot;
    && Stored(c, keep, k, v, At(was.epoch, c.stripe(k)) + 1, false, was.now, was.prot, prot)
    && (keep ==> prot[k].pttl == -1)
  }

  /** The stripe of k locked, or its epoch advanced, since the state `was`. */
  ghost function Held(c: Config, t: Tid, was: Shared, k: Key): Shared {
    was.(mu := was.mu[c.stripe(k) := t])
  }

  ghost function Bumped(c: Config, was: Shared, k: Key, hist: History): Shared {
    was.(epoch := was.epoch[c.stripe(k) := At(was.epoch, c.stripe(k)) + 1], hist := hist)
  }

  /** Where the section is, and what it has done since the state `was`. */
  ghost predicate ThroughSection(c: Config, t: Tid, accept: bool, was: Shared, v: nat, sh: Shared, w: Writer, k: Key) {
    && w.keys == [k] && k in w.wrote && w.wrote[k] == v
    && (w.pc == Through(ThLock) || c.stripe(k) !in was.mu)
    && match w.pc
       case Through(ThLock) => sh == was
       case Through(ThBump) => sh == Held(c, t, was, k)
       case Through(h) =>
         && (h == ThUnlock || (c.stripe(k) in w.bumped && w.bumped[c.stripe(k)] == At(was.epoch, c.stripe(k)) + 1))
         && sh == Held(c, t, Bumped(c, was, k, sh.hist), k).(
                    prob := if h == ThProb then was.prob else was.prob - {k},
                    prot := if h == ThUnlock then sh.prot else was.prot)
         && (h == ThStore ==> c.mode(k) == Cache && k in was.hot)
         && (h == ThDel ==> c.mode(k) != Cache || k !in was.hot)
         && (h == ThUnlock ==> WrittenThrough(c, accept, was, v, k, sh.prot))
       case Forgetting =>
         w.next == 0 ==>
           && sh == Bumped(c, was, k, sh.hist).(prob := was.prob - {k}, prot := sh.prot)
           && WrittenThrough(c, accept, was, v, k, sh.prot)
       case Gating(g) => g == Let
       case Returned => true
       case _ => false
  }

  lemma Relocked(mu: map<Stripe, Tid>, i: Stripe, t: Tid)
    requires i !in mu
    ensures mu[i := t] - {i} == mu
  {
  }

  ghost predicate ThroughTakes(c: Config, t: Tid, sh: Shared, w: Writer, ch: Choice, eff: Effect, w': Writer) {
    w.pc.Through? && ThroughCan(c, sh, w, w.pc.h, ch) && ThroughMove(c, sh, w, w.pc.h, ch) == (eff, w')
  }

  lemma ThroughOpens(c: Config, t: Tid, accept: bool, was: Shared, v: nat, sh: Shared, w: Writer, k: Key, ch: Choice,
                     eff: Effect, w': Writer)
    requires ThroughSection(c, t, accept, was, v, sh, w, k) && ThroughTakes(c, t, sh, w, ch, eff, w')
    requires w.pc.h in {ThLock, ThBump, ThProb, ThHot}
    ensures ThroughSection(c, t, accept, was, v, Apply(sh, t, eff), w', k)
  {
  }

  lemma ThroughStores(c: Config, t: Tid, accept: bool, was: Shared, v: nat, sh: Shared, w: Writer, k: Key, ch: Choice,
                      eff: Effect, w': Writer)
    requires ThroughSection(c, t, accept, was, v, sh, w, k) && ThroughTakes(c, t, sh, w, ch, eff, w')
    requires w.pc.h in {ThStore, ThDel} && ch.yes == accept
    ensures ThroughSection(c, t, accept, was, v, Apply(sh, t, eff), w', k)
  {
  }

  lemma ThroughCloses(c: Config, t: Tid, accept: bool, was: Shared, v: nat, sh: Shared, w: Writer, k: Key, ch: Choice,
                      eff: Effect, w': Writer)
    requires ThroughSection(c, t, accept, was, v, sh, w, k) && ThroughTakes(c, t, sh, w, ch, eff, w')
    requires w.pc.h == ThUnlock
    ensures ThroughSection(c, t, accept, was, v, Apply(sh, t, eff), w', k)
  {
    Relocked(was.mu, c.stripe(k), t);
  }

  lemma ThroughGoesOn(c: Config, t: Tid, accept: bool, was: Shared, v: nat, sh: Shared, w: Writer, k: Key, ch: Choice,
                      eff: Effect, w': Writer)
    requires ThroughSection(c, t, accept, was, v, sh, w, k) && ThroughTakes(c, t, sh, w, ch, eff, w')
    requires ch.yes == accept
    ensures ThroughSection(c, t, accept, was, v, Apply(sh, t, eff), w', k)
  {
    if w.pc.h in {ThLock, ThBump, ThProb, ThHot} {
      ThroughOpens(c, t, accept, was, v, sh, w, k, ch, eff, w');
    } else if w.pc.h in {ThStore, ThDel} {
      ThroughStores(c, t, accept, was, v, sh, w, k, ch, eff, w');
    } else {
      ThroughCloses(c, t, accept, was, v, sh, w, k, ch, eff, w');
    }
  }

  lemma WriterGoesOn(c: Config, t: Tid, accept: bool, was: Shared, v: nat, sh: Shared, w: Writer, k: Key, ch: Choice,
                     eff: Effect, w': Writer)
    requires ThroughSection(c, t, accept, was, v, sh, w, k) && ch.yes == accept
    requires WriterCan(c, sh, w, ch) && WriterMove(c, sh, w, ch) == (eff, w') && EffectOk(sh, t, eff)
    ensures ThroughSection(c, t, accept, was, v, Apply(sh, t, eff), w', k)
  {
    if w.pc.Through? {
      ThroughGoesOn(c, t, accept, was, v, sh, w, k, ch, eff, w');
    } else {
      ThroughIsOver(c, t, accept, was, v, sh, w, k, ch, w');
    }
  }

  lemma ThroughIsOver(c: Config, t: Tid, accept: bool, was: Shared, v: nat, sh: Shared, w: Writer, k: Key, ch: Choice,
                      w': Writer)
    requires ThroughSection(c, t, accept, was, v, sh, w, k) && !w.pc.Through?
    requires WriterCan(c, sh, w, ch) && WriterMove(c, sh, w, ch).1 == w'
    ensures w'.keys == [k] && w'.wrote == w.wrote && c.stripe(k) !in was.mu
    ensures w'.pc == Gating(Let) || w'.pc == Returned || (w'.pc == Forgetting && w'.next > 0)
  {
  }

  lemma StepThrough(c: Config, run: seq<State>, j: nat, t: Tid, ch: Choice, accept: bool, was: Shared, v: nat, k: Key)
    requires j + 1 < |run| && Takes(c, run, j, t, ch) && t in run[j].threads && run[j].threads[t].W? && ch.yes == accept
    requires ThroughSection(c, t, accept, was, v, run[j].sh, run[j].threads[t].w, k)
    ensures t in run[j + 1].threads && run[j + 1].threads[t].W?
    ensures ThroughSection(c, t, accept, was, v, run[j + 1].sh, run[j + 1].threads[t].w, k)
  {
    var w := run[j].threads[t].w;
    var (eff, th) := Move(c, run[j].sh, t, W(w), ch);
    WriterGoesOn(c, t, accept, was, v, run[j].sh, w, k, ch, eff, th.w);
  }

  /** writeThroughSet, undisturbed: the epoch advances by one, the candidate goes, and of the
      protected tier only this key changes, as `WrittenThrough` says. */
  lemma {:induction false} WriteThroughAlone(c: Config, run: seq<State>, i: nat, n: nat, t: Tid, chs: nat -> Choice,
                                             accept: bool, k: Key)
    requires IsRun(c, run) && i <= n < |run| && OnlySteps(c, run, i, n, t, chs)
    requires forall j :: i <= j < n ==> chs(j).yes == accept
    requires run[i].threads[t].W? && run[i].threads[t].w.pc == Through(ThLock) && run[i].threads[t].w.keys == [k]
    ensures t in run[n].threads && run[n].threads[t].W? && k in run[i].threads[t].w.wrote
    ensures ThroughSection(c, t, accept, run[i].sh, run[i].threads[t].w.wrote[k], run[n].sh, run[n].threads[t].w, k)
    decreases n
  {
    if n == i {
      RunInv(c, run, i);
      assert ThreadInv(c, run[i].sh, t, run[i].threads[t]);
    } else {
      WriteThroughAlone(c, run, i, n - 1, t, chs, accept, k);
      assert Takes(c, run, n - 1, t, chs(n - 1));
      StepThrough(c, run, n - 1, t, chs(n - 1), accept, run[i].sh, run[i].threads[t].w.wrote[k], k);
    }
  }

  // ------------------------------------------------------------------ refills

  /** What reconcileLocalIfCurrent leaves in the tiers of what a flight fetched. */
  ghost predicate Reconciled(c: Config, accept: bool, was: Shared, x: Outcome, k: Key, epoch: nat,
                             prot: map<Key, Entry>, prob: map<Key, Entry>)
    requires x.Fetched?
  {
    if At(was.epoch, c.stripe(k)) != epoch then prot == was.prot && prob == was.prob
    else if !x.exists_ then prot == was.prot - {k} && prob == was.prob - {k}
    else if k in was.hot then
      prob == was.prob - {k} && Stored(c, accept, k, x.ver, epoch, false, was.now, was.prot, prot)
    else if k in was.tracked then
      prot == was.prot - {k} && Stored(c, accept, k, x.ver, epoch, true, was.now, was.prob, prob)
    else prot == was.prot - {k} && prob == was.prob
  }

  /** The way the section takes: the epoch is current, and the key is gone, HOT or not. */
  ghost predicate OnTheWay(c: Config, was: Shared, x: Outcome, k: Key, epoch: nat, pc: FlightPc)
    requires x.Fetched?
  {
    && At(was.epoch, c.stripe(k)) == epoch
    && (pc in {FGoneProt, FGoneProb} <==> !x.exists_)
    && (pc in {FHotDel, FHotStore} ==> k in was.hot)
    && (pc in {FColdDel, FColdTracked, FColdStore} ==> k !in was.hot)
    && (pc == FColdStore ==> k in was.tracked)
  }

  ghost predicate RefillSection(c: Config, t: Tid, accept: bool, was: Shared, sh: Shared, f: Flier, k: Key, epoch: nat)
    requires t in was.flights && was.flights[t].outcome.Fetched?
  {
    var x := was.flights[t].outcome;
    && f.key == k && f.epoch == epoch && (f.pc == FLock || c.stripe(k) !in was.mu)
    && match f.pc
       case FFetch => false
       case FLock => sh == was
       case FCheck => sh == Held(c, t, was, k)
       case FUnlock =>
         && sh == Held(c, t, was, k).(prot := sh.prot, prob := sh.prob)
         && Reconciled(c, accept, was, x, k, epoch, sh.prot, sh.prob)
       case FFinish =>
         && sh == was.(prot := sh.prot, prob := sh.prob)
         && Reconciled(c, accept, was, x, k, epoch, sh.prot, sh.prob)
       case FEnd => true
       case pc =>
         && OnTheWay(c, was, x, k, epoch, pc)
         && sh == Held(c, t, was, k).(
                    prot := if pc in {FGoneProb, FColdTracked, FColdStore} then was.prot - {k} else was.prot,
                    prob := if pc == FHotStore then was.prob - {k} else was.prob)
  }

  ghost predicate FlierTakes(c: Config, t: Tid, sh: Shared, f: Flier, ch: Choice, eff: Effect, f': Flier) {
    FlierCan(c, sh, t, f, ch) && FlierMove(c, sh, t, f, ch) == (eff, f')
  }

  lemma RefillOpens(c: Config, t: Tid, accept: bool, was: Shared, sh: Shared, f: Flier, k: Key, epoch: nat, ch: Choice,
                    eff: Effect, f': Flier)
    requires t in was.flights && was.flights[t].outcome.Fetched? && FlierTakes(c, t, sh, f, ch, eff, f')
    requires RefillSection(c, t, accept, was, sh, f, k, epoch) && f.pc in {FLock, FCheck, FHot}
    ensures EffectOk(sh, t, eff) && RefillSection(c, t, accept, was, Apply(sh, t, eff), f', k, epoch)
  {
  }

  lemma RefillDeletes(c: Config, t: Tid, accept: bool, was: Shared, sh: Shared, f: Flier, k: Key, epoch: nat,
                      ch: Choice, eff: Effect, f': Flier)
    requires t in was.flights && was.flights[t].outcome.Fetched? && FlierTakes(c, t, sh, f, ch, eff, f')
    requires RefillSection(c, t, accept, was, sh, f, k, epoch)
    requires f.pc in {FGoneProt, FGoneProb, FHotDel, FColdDel, FColdTracked}
    ensures EffectOk(sh, t, eff) && RefillSection(c, t, accept, was, Apply(sh, t, eff), f', k, epoch)
  {
  }

  lemma RefillStores(c: Config, t: Tid, accept: bool, was: Shared, sh: Shared, f: Flier, k: Key, epoch: nat, ch: Choice,
                     eff: Effect, f': Flier)
    requires t in was.flights && was.flights[t].outcome.Fetched? && FlierTakes(c, t, sh, f, ch, eff, f')
    requires RefillSection(c, t, accept, was, sh, f, k, epoch) && f.pc in {FHotStore, FColdStore} && ch.yes == accept
    ensures EffectOk(sh, t, eff) && RefillSection(c, t, accept, was, Apply(sh, t, eff), f', k, epoch)
  {
  }

  lemma RefillCloses(c: Config, t: Tid, accept: bool, was: Shared, sh: Shared, f: Flier, k: Key, epoch: nat, ch: Choice,
                     eff: Effect, f': Flier)
    requires t in was.flights && was.flights[t].outcome.Fetched? && FlierTakes(c, t, sh, f, ch, eff, f')
    requires RefillSection(c, t, accept, was, sh, f, k, epoch) && f.pc in {FUnlock, FFinish}
    ensures EffectOk(sh, t, eff) && RefillSection(c, t, accept, was, Apply(sh, t, eff), f', k, epoch)
  {
    Relocked(was.mu, c.stripe(k), t);
  }

  lemma RefillGoesOn(c: Config, t: Tid, accept: bool, was: Shared, sh: Shared, f: Flier, k: Key, epoch: nat, ch: Choice,
                     eff: Effect, f': Flier)
    requires t in was.flights && was.flights[t].outcome.Fetched? && FlierTakes(c, t, sh, f, ch, eff, f')
    requires RefillSection(c, t, accept, was, sh, f, k, epoch) && ch.yes == accept
    ensures EffectOk(sh, t, eff) && RefillSection(c, t, accept, was, Apply(sh, t, eff), f', k, epoch)
  {
    if f.pc in {FLock, FCheck, FHot} {
      RefillOpens(c, t, accept, was, sh, f, k, epoch, ch, eff, f');
    } else if f.pc in {FHotStore, FColdStore} {
      RefillStores(c, t, accept, was, sh, f, k, epoch, ch, eff, f');
    } else if f.pc in {FUnlock, FFinish} {
      RefillCloses(c, t, accept, was, sh, f, k, epoch, ch, eff, f');
    } else {
      RefillDeletes(c, t, accept, was, sh, f, k, epoch, ch, eff, f');
    }
  }

  lemma StepRefill(c: Config, run: seq<State>, j: nat, t: Tid, ch: Choice, accept: bool, was: Shared, k: Key,
                   epoch: nat)
    requires j + 1 < |run| && Takes(c, run, j, t, ch) && t in run[j].threads && run[j].threads[t].F? && ch.yes == accept
    requires t in was.flights && was.flights[t].outcome.Fetched?
    requires RefillSection(c, t, accept, was, run[j].sh, run[j].threads[t].f, k, epoch)
    ensures t in run[j + 1].threads && run[j + 1].threads[t].F?
    ensures RefillSection(c, t, accept, was, run[j + 1].sh, run[j + 1].threads[t].f, k, epoch)
  {
    var f := run[j].threads[t].f;
    var (eff, th) := Move(c, run[j].sh, t, F(f), ch);
    RefillGoesOn(c, t, accept, was, run[j].sh, f, k, epoch, ch, eff, th.f);
  }

  /** reconcileLocalIfCurrent, undisturbed: the tiers become what `Reconciled` says, and
      nothing else changes. */
  lemma {:induction false} RefillAlone(c: Config, run: seq<State>, i: nat, n: nat, t: Tid, chs: nat -> Choice,
                                       accept: bool)
    requires IsRun(c, run) && i <= n < |run| && OnlySteps(c, run, i, n, t, chs)
    requires forall j :: i <= j < n ==> chs(j).yes == accept
    requires run[i].threads[t].F? && run[i].threads[t].f.pc == FLock
    ensures t in run[i].sh.flights && run[i].sh.flights[t].outcome.Fetched?
    ensures t in run[n].threads && run[n].threads[t].F?
    ensures var f := run[i].threads[t].f;
      RefillSection(c, t, accept, run[i].sh, run[n].sh, run[n].threads[t].f, f.key, f.epoch)
    decreases n
  {
    if n == i {
      RunInv(c, run, i);
      assert ThreadInv(c, run[i].sh, t, run[i].threads[t]);
    } else {
      RefillAlone(c, run, i, n - 1, t, chs, accept);
      assert Takes(c, run, n - 1, t, chs(n - 1));
      StepRefill(c, run, n - 1, t, chs(n - 1), accept, run[i].sh, run[i].threads[t].f.key, run[i].threads[t].f.epoch);
    }
  }

  // ---------------------------------------------------------------- demotions

  /** What applyTransitions does for the first key it owes: drop it from both tiers, unless
      it is HOT again by now; `rest` it still owes. */
  ghost predicate DemoteSection(c: Config, t: Tid, was: Shared, sh: Shared, r: Reader, k: Key, rest: seq<Key>) {
    var drop := k !in was.hot;
    && r.pc.Applying? && Pending(was, t) == [k] + rest
    && if r.pc.a == Begin && Pending(sh, t) == rest then
         && c.stripe(k) !in was.mu
         && sh == was.(pending := was.pending[t := rest], prot := if drop then was.prot - {k} else was.prot,
                       prob := if drop then was.prob - {k} else was.prob)
       else if r.pc.a == Begin then sh == was
       else
         && c.stripe(k) !in was.mu && (r.pc.a in {DropProt, DropProb} ==> drop)
         && sh == Held(c, t, was, k).(
                    prot := if drop && r.pc.a in {DropProb, Release} then was.prot - {k} else was.prot,
                    prob := if drop && r.pc.a == Release then was.prob - {k} else was.prob)
  }

  lemma DemoteGoesOn(c: Config, t: Tid, was: Shared, sh: Shared, r: Reader, k: Key, rest: seq<Key>, eff: Effect,
                     r': Reader)
    requires DemoteSection(c, t, was, sh, r, k, rest) && Pending(sh, t) == [k] + rest
    requires ApplyCan(c, sh, t, r.pc.a) && ApplyMove(c, sh, t, r, r.pc.a, r.pc.then_) == (eff, r')
    ensures EffectOk(sh, t, eff) && DemoteSection(c, t, was, Apply(sh, t, eff), r', k, rest)
    ensures Pending(Apply(sh, t, eff), t) in {[k] + rest, rest}
  {
    Relocked(was.mu, c.stripe(k), t);
    assert ([k] + rest)[1..] == rest;
  }

  lemma StepDemote(c: Config, run: seq<State>, j: nat, t: Tid, ch: Choice, was: Shared, k: Key, rest: seq<Key>)
    requires j + 1 < |run| && Takes(c, run, j, t, ch) && t in run[j].threads && run[j].threads[t].R?
    requires DemoteSection(c, t, was, run[j].sh, run[j].threads[t].r, k, rest) && Pending(run[j].sh, t) == [k] + rest
    ensures t in run[j + 1].threads && run[j + 1].threads[t].R?
    ensures DemoteSection(c, t, was, run[j + 1].sh, run[j + 1].threads[t].r, k, rest)
    ensures Pending(run[j + 1].sh, t) in {[k] + rest, rest}
  {
    var r := run[j].threads[t].r;
    var (eff, th) := Move(c, run[j].sh, t, R(r), ch);
    DemoteGoesOn(c, t, was, run[j].sh, r, k, rest, eff, th.r);
  }

  /** applyTransitions, undisturbed and for one key. */
  lemma {:induction false} DemoteAlone(c: Config, run: seq<State>, i: nat, n: nat, t: Tid, chs: nat -> Choice, k: Key,
                                       rest: seq<Key>)
    requires IsRun(c, run) && i <= n < |run| && OnlySteps(c, run, i, n, t, chs)
    requires run[i].threads[t].R? && run[i].threads[t].r.pc.Applying? && run[i].threads[t].r.pc.a == Begin
    requires forall j :: i <= j < n ==> Pending(run[j].sh, t) == [k] + rest
    requires Pending(run[i].sh, t) == [k] + rest
    ensures t in run[n].threads && run[n].threads[t].R?
    ensures DemoteSection(c, t, run[i].sh, run[n].sh, run[n].threads[t].r, k, rest)
    ensures Pending(run[n].sh, t) in {[k] + rest, rest}
    decreases n
  {
    if i < n {
      DemoteAlone(c, run, i, n - 1, t, chs, k, rest);
      assert Takes(c, run, n - 1, t, chs(n - 1));
      StepDemote(c, run, n - 1, t, chs(n - 1), run[i].sh, k, rest);
    }
  }

  // ----------------------------------------------------------------- HOT reads

  /** A read whose key the tracker calls HOT, with no demotion to apply, on its way to the
      entry e it finds in the protected tier. */
  ghost predicate HotReadSection(t: Tid, e: Entry, sh: Shared, r: Reader, k: Key) {
    && r.key == k && r.kind != Admin && Pending(sh, t) == [] && k in sh.prot && sh.prot[k] == e
    && r.begun <= sh.now < e.expiresAt
    && match r.pc
       case Observing => true
       case Applying(a, then_) => a == Begin && then_ == ThenLookup(true)
       case Probing(p) => p == Protected
       case Over(end) => end == ServedLocal && r.hit == e
       case _ => false
  }

  ghost predicate FindsHot(ch: Choice, k: Key) { k in ch.hot && ch.todo == [] }

  lemma HotReadGoesOn(c: Config, t: Tid, e: Entry, sh: Shared, r: Reader, k: Key, ch: Choice, eff: Effect, r': Reader)
    requires HotReadSection(t, e, sh, r, k) && c.mode(k) == Cache && FindsHot(ch, k)
    requires ReaderCan(c, sh, t, r, ch) && ReaderMove(c, sh, t, r, ch) == (eff, r')
    ensures EffectOk(sh, t, eff) && HotReadSection(t, e, Apply(sh, t, eff), r', k)
  {
  }

  lemma StepHotRead(c: Config, run: seq<State>, j: nat, t: Tid, ch: Choice, e: Entry, k: Key)
    requires j + 1 < |run| && Takes(c, run, j, t, ch) && t in run[j].threads && run[j].threads[t].R?
    requires c.mode(k) == Cache && FindsHot(ch, k) && HotReadSection(t, e, run[j].sh, run[j].threads[t].r, k)
    ensures t in run[j + 1].threads && run[j + 1].threads[t].R?
    ensures HotReadSection(t, e, run[j + 1].sh, run[j + 1].threads[t].r, k)
  {
    var r := run[j].threads[t].r;
    var (eff, th) := Move(c, run[j].sh, t, R(r), ch);
    HotReadGoesOn(c, t, e, run[j].sh, r, k, ch, eff, th.r);
  }

  /** Undisturbed, a read of a HOT key in cache mode with an unexpired protected copy ends, when
      it ends, with that copy, whether or not there is a probationary tier. */
  lemma {:induction false} HotReadAlone(c: Config, run: seq<State>, i: nat, n: nat, t: Tid, chs: nat -> Choice, k: Key)
    requires IsRun(c, run) && i <= n < |run| && OnlySteps(c, run, i, n, t, chs)
    requires forall j :: i <= j < n ==> FindsHot(chs(j), k)
    requires c.mode(k) == Cache && k in run[i].sh.prot && run[i].sh.now < run[i].sh.prot[k].expiresAt
    requires run[i].threads[t].R? && run[i].threads[t].r.pc == Observing && run[i].threads[t].r.key == k
    requires run[i].threads[t].r.kind != Admin && Pending(run[i].sh, t) == []
    ensures t in run[n].threads && run[n].threads[t].R?
    ensures HotReadSection(t, run[i].sh.prot[k], run[n].sh, run[n].threads[t].r, k)
    decreases n
  {
    if n == i {
      RunInv(c, run, i);
      assert ThreadInv(c, run[i].sh, t, run[i].threads[t]);
    } else {
      HotReadAlone(c, run, i, n - 1, t, chs, k);
      assert Takes(c, run, n - 1, t, chs(n - 1));
      StepHotRead(c, run, n - 1, t, chs(n - 1), run[i].sh.prot[k], k);
    }
  }

  // ------------------------------------------------------------------ answers

  /** When a read may fail: the direct read failed, the caller gave up on a flight that is
      not done, or the upstream failed and no stale answer is allowed or left. */
  ghost predicate MayFail(c: Config, sh: Shared, r: Reader, ch: Choice) {
    r.pc.Missing? &&
    match r.pc.x
    case Direct => !ch.yes
    case Await(f) => !(f in sh.flights && sh.flights[f].done)
    case Fallback =>
      || !c.allowStale || r.key !in sh.prot
      || sh.prot[r.key].expiresAt + (if c.staleGrace > 0 then c.staleGrace else 0) <= sh.now
    case _ => false
  }

  lemma MissFails(c: Config, sh: Shared, r: Reader, x: MissPc, ch: Choice)
    requires r.pc == Missing(x) && MissCan(sh, r, x, ch) && MissMove(c, sh, r, x, ch).1.pc == Over(Failed)
    ensures MayFail(c, sh, r, ch)
  {
  }

  /** A read fails only then. */
  lemma FailsOnlyForCause(c: Config, run: seq<State>, n: nat, t: Tid, ch: Choice)
    requires n + 1 < |run| && Takes(c, run, n, t, ch) && run[n].threads[t].R?
    requires t in run[n + 1].threads && run[n + 1].threads[t].R? && run[n + 1].threads[t].r.pc == Over(Failed)
    ensures MayFail(c, run[n].sh, run[n].threads[t].r, ch)
  {
    var r := run[n].threads[t].r;
    var (eff, th) := Move(c, run[n].sh, t, R(r), ch);
    match r.pc
    case Observing =>
    case Applying(a, then_) =>
    case Probing(p) =>
    case Promoting(m) =>
    case Missing(x) => MissFails(c, run[n].sh, r, x, ch);
  }

  /** While a flight of its key is registered, a GET starts no other: it waits for that one. */
  lemma FlightsAreShared(c: Config, run: seq<State>, n: nat, t: Tid, ch: Choice)
    requires n + 1 < |run| && Takes(c, run, n, t, ch) && run[n].threads[t].R?
    requires run[n].threads[t].r.kind == Get && run[n].threads[t].r.key in run[n].sh.table
    ensures run[n + 1].sh.flights == run[n].sh.flights
    ensures run[n].threads[t].r.pc.Missing? && run[n].threads[t].r.pc.x.Join? ==>
      t in run[n + 1].threads && run[n + 1].threads[t] ==
        R(run[n].threads[t].r.(pc := Missing(Await(run[n].sh.table[run[n].threads[t].r.key]))))
  {
    var r := run[n].threads[t].r;
    var (eff, th) := Move(c, run[n].sh, t, R(r), ch);
    ReaderLaunches(c, run[n].sh, t, r, ch);
    KeepsFlights(run[n].sh, t, eff);
  }

  lemma ReaderLaunches(c: Config, sh: Shared, t: Tid, r: Reader, ch: Choice)
    requires ReaderCan(c, sh, t, r, ch) && r.kind == Get && r.key in sh.table
    ensures !ChangesFlights(ReaderMove(c, sh, t, r, ch).0)
  {
  }
}
