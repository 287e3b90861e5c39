/** What the service promises, over every run. */
module ServiceTheorems {
  import opened ServiceState
  import opened ServiceSteps
  import opened ServiceInvariant
  import opened ServiceEffects
  import opened ServiceRuns

  // ---------------------------------------------- what only grows in a run

  lemma ActGrows(c: Config, s: State, t: Tid, ch: Choice, s': State, k: Key)
    requires Inv(c, s) && Enabled(c, s, Act(t, ch)) && s' == After(c, s, Act(t, ch))
    ensures Grows(c, s.sh, s'.sh, k)
  {
    var eff, th := Acts(c, s, t, ch, s');
    assert HistInv(c, s.sh, k);
    EffectGrows(c, s.sh, t, eff, k);
  }

  lemma WorldGrows(c: Config, s: State, l: Label, k: Key)
    requires Enabled(c, s, l) && !l.Act?
    ensures Grows(c, s.sh, After(c, s, l).sh, k)
  {
  }

  lemma NextGrows(c: Config, s: State, s': State, k: Key)
    requires Inv(c, s) && Next(c, s, s')
    ensures Grows(c, s.sh, s'.sh, k)
  {
    var l :| Enabled(c, s, l) && s' == After(c, s, l);
    if l.Act? {
      ActGrows(c, s, l.t, l.ch, s', k);
    } else {
      WorldGrows(c, s, l, k);
    }
  }

  lemma GrowsFurther(c: Config, a: Shared, b: Shared, d: Shared, k: Key)
    requires Grows(c, a, b, k) && Grows(c, b, d, k)
    ensures Grows(c, a, d, k)
  {
  }

  lemma StepGrows(c: Config, run: seq<State>, n: nat, k: Key)
    requires IsRun(c, run) && n + 1 < |run|
    ensures Grows(c, run[n].sh, run[n + 1].sh, k)
  {
    RunInv(c, run, n);
    RunNext(c, run, n);
    NextGrows(c, run[n], run[n + 1], k);
  }

  lemma {:induction false} RunGrows(c: Config, run: seq<State>, i: nat, n: nat, k: Key)
    requires IsRun(c, run) && i <= n < |run|
    ensures Grows(c, run[i].sh, run[n].sh, k)
  {
    if i < n {
      RunGrows(c, run, i, n - 1, k);
      StepGrows(c, run, n - 1, k);
      GrowsFurther(c, run[i].sh, run[n - 1].sh, run[n].sh, k);
    }
  }

  // ------------------------------------------------- read-after-write

  /** The version a finished read returned. */
  ghost predicate Yields(th: Thread, v: nat) {
    th.R? &&
    match th.r.pc
    case Over(ServedLocal) => v == th.r.hit.ver
    case Over(Served(out)) => v == out
    case _ => false
  }

  /** A thread never changes its kind, its key or the moment it began. */
  ghost predicate SameRead(th: Thread, th': Thread) {
    && (th.R? <==> th'.R?)
    && (th.R? ==> th'.r.key == th.r.key && th'.r.floor == th.r.floor && th'.r.begun == th.r.begun)
  }

  lemma NextSameRead(c: Config, s: State, s': State, r: Tid)
    requires Next(c, s, s') && r in s.threads
    ensures r in s'.threads && SameRead(s.threads[r], s'.threads[r])
  {
    var l :| Enabled(c, s, l) && s' == After(c, s, l);
    if l.Act? && l.t == r && s.threads[r].R? {
      var (eff, th) := Move(c, s.sh, r, s.threads[r], l.ch);
      ReaderIdentity(c, s.sh, r, s.threads[r].r, l.ch, eff, th.r);
    }
  }

  lemma NextNewRead(c: Config, s: State, s': State, r: Tid)
    requires Next(c, s, s') && r !in s.threads && r in s'.threads && s'.threads[r].R?
    ensures s'.threads[r].r.floor == At(s.sh.hist.served, s'.threads[r].r.key)
    ensures s'.threads[r].r.begun == s.sh.now
  {
  }

  /** A read keeps its floor; a new one starts with what has been served. */
  lemma StepFloor(c: Config, run: seq<State>, n: nat, r: Tid)
    requires IsRun(c, run) && n + 1 < |run| && r in run[n + 1].threads && run[n + 1].threads[r].R?
    ensures var x := run[n + 1].threads[r].r;
      if r in run[n].threads
      then run[n].threads[r].R? && run[n].threads[r].r.key == x.key && run[n].threads[r].r.floor == x.floor
      else x.floor == At(run[n].sh.hist.served, x.key)
  {
    RunNext(c, run, n);
    if r in run[n].threads {
      NextSameRead(c, run[n], run[n + 1], r);
    } else {
      NextNewRead(c, run[n], run[n + 1], r);
    }
  }

  lemma {:induction false} FloorCovers(c: Config, run: seq<State>, i: nat, n: nat, r: Tid)
    requires IsRun(c, run) && i <= n < |run|
    requires r !in run[i].threads && r in run[n].threads && run[n].threads[r].R?
    ensures At(run[i].sh.hist.served, run[n].threads[r].r.key) <= run[n].threads[r].r.floor
  {
    StepFloor(c, run, n - 1, r);
    if r in run[n - 1].threads {
      FloorCovers(c, run, i, n - 1, r);
    } else {
      RunGrows(c, run, i, n - 1, run[n].threads[r].r.key);
    }
  }

  /** Read-after-write coherence: once an ExecuteWrite on k has returned, no GET
      and no MGET position that starts later yields a version of k older than that
      write, however it is served: protected hit, promotion, shared flight, own
      fetch, or stale-on-error fallback. */
  lemma ReadAfterWrite(c: Config, run: seq<State>, i: nat, n: nat, w: Tid, r: Tid, k: Key, v: nat)
    requires IsRun(c, run) && i <= n < |run|
    requires w in run[i].threads && run[i].threads[w].W? && run[i].threads[w].w.pc == Returned
    requires k in run[i].threads[w].w.wrote
    requires r !in run[i].threads && r in run[n].threads && run[n].threads[r].R? && run[n].threads[r].r.key == k
    requires Yields(run[n].threads[r], v)
    ensures run[i].threads[w].w.wrote[k] <= v
  {
    RunInv(c, run, i);
    RunInv(c, run, n);
    assert ThreadInv(c, run[i].sh, w, run[i].threads[w]);
    assert Visible(run[i].sh, run[i].threads[w].w, k);
    FloorCovers(c, run, i, n, r);
    assert ThreadInv(c, run[n].sh, r, run[n].threads[r]);
  }

  // ------------------------------------------------------- the tiers

  /** No key is ever in both tiers. */
  lemma TiersAreExclusive(c: Config, run: seq<State>, n: nat)
    requires IsRun(c, run) && n < |run|
    ensures run[n].sh.prot.Keys !! run[n].sh.prob.Keys
  {
    RunInv(c, run, n);
    forall k | k in run[n].sh.prot ensures k !in run[n].sh.prob {
      assert TierInv(c, run[n].sh, k);
    }
  }

  /** A protected copy belongs to a HOT key, or some thread still owes the side
      effect of that key's demotion. */
  lemma ProtectedIsHotOrOwed(c: Config, run: seq<State>, n: nat, k: Key)
    requires IsRun(c, run) && n < |run| && k in run[n].sh.prot
    ensures k in run[n].sh.hot || exists t :: t in run[n].threads && k in Pending(run[n].sh, t)
  {
    RunInv(c, run, n);
    assert TierInv(c, run[n].sh, k);
    if k !in run[n].sh.hot {
      var t :| t in run[n].sh.pending && k in run[n].sh.pending[t];
      assert Pending(run[n].sh, t) != [];
      assert k in Pending(run[n].sh, t);
    }
  }

  lemma QuiescentProtectedIsHot(c: Config, run: seq<State>, n: nat)
    requires IsRun(c, run) && n < |run| && forall t :: Pending(run[n].sh, t) == []
    ensures run[n].sh.prot.Keys <= run[n].sh.hot
  {
    forall k | k in run[n].sh.prot ensures k in run[n].sh.hot {
      ProtectedIsHotOrOwed(c, run, n, k);
    }
  }

  // ------------------------------------------------------------ lifetimes

  ghost function Min(a: int, b: int): int { if a < b then a else b }

  /** The lifetime of a stored value is the smallest of the global cap, the
      policy cap, the remaining upstream TTL if it is positive, and for a
      probationary value the hotness window. It is positive, and only then is the value
      stored, exactly if both caps are and the value is not about to expire. */
  lemma StoreTTLIsSmallest(c: Config, k: Key, pttl: int, candidate: bool)
    ensures
      var cap := Min(c.globalTTL, c.policyTTL(k));
      var origin := if pttl > 0 then Min(cap, pttl) else cap;
      var all := if candidate && c.window > 0 then Min(origin, c.window) else origin;
      StoreTTL(c, k, pttl, candidate) == if c.policyTTL(k) <= 0 || pttl == 0 then 0 else all
    ensures StoreTTL(c, k, pttl, candidate) > 0 <==> c.globalTTL > 0 && c.policyTTL(k) > 0 && pttl != 0
  {
  }

  /** Lifetime is never extended: a read served from a local tier looked at the
      clock, after it began, before the entry's original store time plus its
      lifetime; promotion between the tiers does not restart it. */
  lemma LocalHitIsInLifetime(c: Config, run: seq<State>, n: nat, r: Tid)
    requires IsRun(c, run) && n < |run| && r in run[n].threads
    requires run[n].threads[r].R? && run[n].threads[r].r.pc == Over(ServedLocal)
    ensures var x := run[n].threads[r].r;
      x.begun <= x.at < x.hit.storedAt + StoreTTL(c, x.key, x.hit.pttl, x.hit.candidate)
  {
    RunInv(c, run, n);
    assert ThreadInv(c, run[n].sh, r, run[n].threads[r]);
  }
}
