/** Where answers come from: every version that a tier, a flight, a write or a read holds
    was the origin's at some moment of the run, and only keys in cache mode are held. */
module ServiceOrigins {
  import opened ServiceState
  import opened ServiceSteps
  import opened ServiceInvariant
  import opened ServiceEffects
  import opened ServiceRuns
  import opened ServiceTheorems
  import opened ServiceBarrier

  /** Between the origin's version then, `lo`, and now. */
  ghost predicate Between(sh: Shared, k: Key, lo: nat, v: nat) { lo <= v <= At(sh.origin, k) }

  ghost predicate EntryKnown(c: Config, sh: Shared, tier: map<Key, Entry>, k: Key, lo: nat) {
    k in tier ==> c.mode(k) == Cache && Between(sh, k, lo, tier[k].ver)
  }

  ghost predicate FlightKnown(c: Config, sh: Shared, x: Flight, k: Key, lo: nat) {
    x.key == k ==> c.mode(k) == Cache && (x.outcome.Fetched? ==> Between(sh, k, lo, x.outcome.ver))
  }

  ghost predicate SharedKnown(c: Config, sh: Shared, k: Key, lo: nat) {
    && lo <= At(sh.origin, k) && EntryKnown(c, sh, sh.prot, k, lo) && EntryKnown(c, sh, sh.prob, k, lo)
    && forall f :: f in sh.flights ==> FlightKnown(c, sh, sh.flights[f], k, lo)
  }

  /** The read goes on with the entry it has found. */
  predicate HoldsHit(pc: ReadPc) {
    || pc == Over(ServedLocal) || pc == Probing(HitUnlock) || pc.Promoting?
    || (pc.Applying? && pc.then_ == ThenServe)
  }

  /** The read uses the tiers or a flight. */
  predicate Caches(pc: ReadPc) {
    HoldsHit(pc) || pc.Probing? || (pc.Missing? && !pc.x.Direct?) || (pc.Applying? && pc.then_ == ThenMiss)
  }

  ghost predicate ReaderKnown(c: Config, sh: Shared, r: Reader, k: Key, lo: nat) {
    r.key == k ==>
      && (Caches(r.pc) ==> c.mode(k) == Cache)
      && (HoldsHit(r.pc) ==> Between(sh, k, lo, r.hit.ver))
      && (r.pc.Over? && r.pc.end.Served? ==> Between(sh, k, lo, r.pc.end.out))
  }

  ghost predicate WriterKnown(c: Config, sh: Shared, w: Writer, k: Key, lo: nat) {
    && (k in w.wrote ==> Between(sh, k, lo, w.wrote[k]))
    && (w.pc == Through(ThStore) && w.keys != [] && w.keys[0] == k ==> c.mode(k) == Cache)
  }

  ghost predicate ThreadKnown(c: Config, sh: Shared, th: Thread, k: Key, lo: nat) {
    match th
    case R(r) => ReaderKnown(c, sh, r, k, lo)
    case F(f) => f.key == k ==> c.mode(k) == Cache
    case W(w) => WriterKnown(c, sh, w, k, lo)
    case P(_) => true
  }

  ghost predicate Known(c: Config, s: State, k: Key, lo: nat) {
    SharedKnown(c, s.sh, k, lo) && forall t :: t in s.threads ==> ThreadKnown(c, s.sh, s.threads[t], k, lo)
  }

  // ------------------------------------------------------------------ effects

  /** The step stores only what is known. */
  ghost predicate Stores(c: Config, sh: Shared, eff: Effect, k: Key, lo: nat) {
    match eff
    case PutProt(x, e) => x == k ==> c.mode(k) == Cache && Between(sh, k, lo, e.ver)
    case PutProb(x, e) => x == k ==> c.mode(k) == Cache && Between(sh, k, lo, e.ver)
    case Launch(_, x, _) => x.key == k ==> c.mode(k) == Cache
    case _ => true
  }

  lemma FlightsStayKnown(c: Config, sh: Shared, me: Tid, eff: Effect, k: Key, lo: nat)
    requires SharedKnown(c, sh, k, lo) && Guard(c, sh, me, eff) && Stores(c, sh, eff, k, lo) && ChangesFlights(eff)
    ensures SharedKnown(c, Apply(sh, me, eff), k, lo)
  {
    var sh' := Apply(sh, me, eff);
    forall f | f in sh'.flights ensures FlightKnown(c, sh', sh'.flights[f], k, lo) {
      if f in sh.flights {
        assert FlightKnown(c, sh, sh.flights[f], k, lo);
      }
    }
  }

  lemma TiersStayKnown(c: Config, sh: Shared, me: Tid, eff: Effect, k: Key, lo: nat)
    requires SharedKnown(c, sh, k, lo) && EffectOk(sh, me, eff) && Stores(c, sh, eff, k, lo) && !ChangesFlights(eff)
    requires At(sh.origin, k) <= At(Apply(sh, me, eff).origin, k)
    ensures SharedKnown(c, Apply(sh, me, eff), k, lo)
  {
    var sh' := Apply(sh, me, eff);
    KeepsFlights(sh, me, eff);
    forall f | f in sh'.flights ensures FlightKnown(c, sh', sh'.flights[f], k, lo) {
      assert FlightKnown(c, sh, sh.flights[f], k, lo);
    }
  }

  lemma SharedStaysKnown(c: Config, sh: Shared, me: Tid, eff: Effect, k: Key, lo: nat)
    requires SharedKnown(c, sh, k, lo) && Guard(c, sh, me, eff) && Stores(c, sh, eff, k, lo)
    requires At(sh.origin, k) <= At(Apply(sh, me, eff).origin, k)
    ensures SharedKnown(c, Apply(sh, me, eff), k, lo)
  {
    if ChangesFlights(eff) {
      FlightsStayKnown(c, sh, me, eff, k, lo);
    } else {
      TiersStayKnown(c, sh, me, eff, k, lo);
    }
  }

  lemma ThreadStaysKnown(c: Config, sh: Shared, sh': Shared, th: Thread, k: Key, lo: nat)
    requires ThreadKnown(c, sh, th, k, lo) && At(sh.origin, k) <= At(sh'.origin, k)
    ensures ThreadKnown(c, sh', th, k, lo)
  {
  }

  // -------------------------------------------------------------------- moves

  ghost predicate ReadsKnown(c: Config, sh: Shared, eff: Effect, r': Reader, k: Key, lo: nat) {
    ReaderKnown(c, sh, r', k, lo) && Stores(c, sh, eff, k, lo)
  }

  lemma ObserveKnown(c: Config, sh: Shared, r: Reader, ch: Choice, k: Key, lo: nat)
    ensures var m := ObserveMove(c, r, ch); ReadsKnown(c, sh, m.0, m.1, k, lo)
  {
  }

  lemma ApplyKnown(c: Config, sh: Shared, me: Tid, r: Reader, a: ApplyPc, then_: Then, k: Key, lo: nat)
    requires ReaderKnown(c, sh, r, k, lo) && r.pc == Applying(a, then_) && ApplyCan(c, sh, me, a)
    ensures var m := ApplyMove(c, sh, me, r, a, then_); ReadsKnown(c, sh, m.0, m.1, k, lo)
  {
  }

  lemma ProbeKnown(c: Config, sh: Shared, r: Reader, p: ProbePc, ch: Choice, k: Key, lo: nat)
    requires SharedKnown(c, sh, k, lo) && ReaderKnown(c, sh, r, k, lo) && r.pc == Probing(p)
    ensures var m := ProbeMove(c, sh, r, p, ch); ReadsKnown(c, sh, m.0, m.1, k, lo)
  {
  }

  lemma PromoteKnown(c: Config, sh: Shared, r: Reader, x: PromotePc, ch: Choice, k: Key, lo: nat)
    requires ReaderKnown(c, sh, r, k, lo) && r.pc == Promoting(x)
    ensures var m := PromoteMove(c, r, x, ch); ReadsKnown(c, sh, m.0, m.1, k, lo)
  {
  }

  lemma MissKnown(c: Config, sh: Shared, r: Reader, x: MissPc, ch: Choice, k: Key, lo: nat)
    requires SharedKnown(c, sh, k, lo) && ReaderKnown(c, sh, r, k, lo) && r.pc == Missing(x)
    requires MissInv(c, sh, r, x)
    ensures var m := MissMove(c, sh, r, x, ch); ReadsKnown(c, sh, m.0, m.1, k, lo)
  {
    if x.Await? {
      assert FlightKnown(c, sh, sh.flights[x.flight], k, lo);
    }
  }

  lemma ReaderStaysKnown(c: Config, sh: Shared, me: Tid, r: Reader, ch: Choice, eff: Effect, r': Reader, k: Key,
                         lo: nat)
    requires SharedKnown(c, sh, k, lo) && ReaderKnown(c, sh, r, k, lo) && ReaderInv(c, sh, me, r)
    requires ReaderCan(c, sh, me, r, ch) && ReaderMove(c, sh, me, r, ch) == (eff, r')
    ensures ReadsKnown(c, sh, eff, r', k, lo)
  {
    match r.pc
    case Observing => ObserveKnown(c, sh, r, ch, k, lo);
    case Applying(a, then_) => ApplyKnown(c, sh, me, r, a, then_, k, lo);
    case Probing(p) => ProbeKnown(c, sh, r, p, ch, k, lo);
    case Promoting(m) => PromoteKnown(c, sh, r, m, ch, k, lo);
    case Missing(x) => MissKnown(c, sh, r, x, ch, k, lo);
  }

  lemma FlierStaysKnown(c: Config, sh: Shared, me: Tid, f: Flier, ch: Choice, eff: Effect, f': Flier, k: Key, lo: nat)
    requires SharedKnown(c, sh, k, lo) && FlierShape(sh, me, f) && (f.key == k ==> c.mode(k) == Cache)
    requires FlierCan(c, sh, me, f, ch) && FlierMove(c, sh, me, f, ch) == (eff, f')
    ensures f'.key == f.key && Stores(c, sh, eff, k, lo)
  {
    assert FlightKnown(c, sh, sh.flights[me], k, lo);
  }

  lemma ThroughKnown(c: Config, sh: Shared, w: Writer, h: ThroughPc, ch: Choice, k: Key, lo: nat)
    requires WriterKnown(c, sh, w, k, lo) && w.pc == Through(h) && ThroughCan(c, sh, w, h, ch)
    ensures var m := ThroughMove(c, sh, w, h, ch); WriterKnown(c, sh, m.1, k, lo) && Stores(c, sh, m.0, k, lo)
  {
  }

  lemma GateKnown(c: Config, sh: Shared, w: Writer, g: GatePc, ch: Choice, k: Key, lo: nat)
    requires WriterKnown(c, sh, w, k, lo) && w.pc == Gating(g) && GateCan(c, sh, w, g, ch)
    ensures var m := GateMove(c, sh, w, g, ch); WriterKnown(c, sh, m.1, k, lo) && Stores(c, sh, m.0, k, lo)
  {
  }

  lemma InvalidateKnown(c: Config, sh: Shared, w: Writer, v: InvPc, k: Key, lo: nat)
    requires WriterKnown(c, sh, w, k, lo) && InvalidateCan(c, sh, w, v)
    ensures var m := InvalidateMove(c, sh, w, v); WriterKnown(c, sh, m.1, k, lo) && Stores(c, sh, m.0, k, lo)
  {
  }

  /** The version a command gives its key is the origin's after the step. */
  lemma CallKnown(c: Config, sh: Shared, me: Tid, w: Writer, ch: Choice, eff: Effect, w': Writer, k: Key, lo: nat)
    requires SharedKnown(c, sh, k, lo) && WriterKnown(c, sh, w, k, lo) && w.pc == Calling
    requires CallMove(sh, w, ch) == (eff, w')
    ensures WriterKnown(c, Apply(sh, me, eff), w', k, lo) && Stores(c, sh, eff, k, lo)
  {
  }

  lemma PassKnown(c: Config, sh: Shared, w: Writer, ch: Choice, eff: Effect, w': Writer, k: Key, lo: nat)
    requires WriterKnown(c, sh, w, k, lo) && !w.pc.Calling? && WriterCan(c, sh, w, ch)
    requires WriterMove(c, sh, w, ch) == (eff, w')
    ensures WriterKnown(c, sh, w', k, lo) && Stores(c, sh, eff, k, lo)
  {
    match w.pc
    case Gating(g) => GateKnown(c, sh, w, g, ch, k, lo);
    case Invalidating(v) => InvalidateKnown(c, sh, w, v, k, lo);
    case Through(h) => ThroughKnown(c, sh, w, h, ch, k, lo);
    case Forgetting =>
  }

  lemma WriterStaysKnown(c: Config, sh: Shared, me: Tid, w: Writer, ch: Choice, eff: Effect, w': Writer, k: Key,
                         lo: nat)
    requires SharedKnown(c, sh, k, lo) && WriterKnown(c, sh, w, k, lo)
    requires WriterCan(c, sh, w, ch) && WriterMove(c, sh, w, ch) == (eff, w') && EffectOk(sh, me, eff)
    requires At(sh.origin, k) <= At(Apply(sh, me, eff).origin, k)
    ensures WriterKnown(c, Apply(sh, me, eff), w', k, lo) && Stores(c, sh, eff, k, lo)
  {
    if w.pc.Calling? {
      CallKnown(c, sh, me, w, ch, eff, w', k, lo);
    } else {
      PassKnown(c, sh, w, ch, eff, w', k, lo);
      ThreadStaysKnown(c, sh, Apply(sh, me, eff), W(w'), k, lo);
    }
  }

  /** What a thread does, from what is known, and what is known of it afterwards. */
  lemma MoveKnown(c: Config, sh: Shared, me: Tid, th: Thread, ch: Choice, eff: Effect, th': Thread, k: Key, lo: nat)
    requires SharedKnown(c, sh, k, lo) && ThreadKnown(c, sh, th, k, lo) && ThreadInv(c, sh, me, th)
    requires Can(c, sh, me, th, ch) && Move(c, sh, me, th, ch) == (eff, th')
    requires At(sh.origin, k) <= At(Apply(sh, me, eff).origin, k)
    ensures ThreadKnown(c, Apply(sh, me, eff), th', k, lo) && Stores(c, sh, eff, k, lo)
  {
    match th
    case R(r) =>
      ReaderStaysKnown(c, sh, me, r, ch, eff, th'.r, k, lo);
      ThreadStaysKnown(c, sh, Apply(sh, me, eff), th', k, lo);
    case F(f) => FlierStaysKnown(c, sh, me, f, ch, eff, th'.f, k, lo);
    case W(w) => WriterStaysKnown(c, sh, me, w, ch, eff, th'.w, k, lo);
    case P(_) =>
  }

  // --------------------------------------------------------------------- runs

  lemma OtherKnown(c: Config, s: State, t: Tid, eff: Effect, th: Thread, s': State, o: Tid, k: Key, lo: nat)
    requires Known(c, s, k, lo) && EffectOk(s.sh, t, eff) && Stores(c, s.sh, eff, k, lo) && o != t && o in s'.threads
    requires s'.threads == s.threads[t := th] + Spawn(eff) && At(s.sh.origin, k) <= At(s'.sh.origin, k)
    ensures ThreadKnown(c, s'.sh, s'.threads[o], k, lo)
  {
    if o !in Spawn(eff) {
      ThreadStaysKnown(c, s.sh, s'.sh, s.threads[o], k, lo);
    }
  }

  lemma ActKnown(c: Config, s: State, t: Tid, ch: Choice, s': State, k: Key, lo: nat)
    requires Inv(c, s) && Known(c, s, k, lo) && Enabled(c, s, Act(t, ch)) && s' == After(c, s, Act(t, ch))
    ensures Known(c, s', k, lo)
  {
    ActGrows(c, s, t, ch, s', k);
    var eff, th := Acts(c, s, t, ch, s');
    MoveKnown(c, s.sh, t, s.threads[t], ch, eff, th, k, lo);
    SharedStaysKnown(c, s.sh, t, eff, k, lo);
    forall o | o in s'.threads ensures ThreadKnown(c, s'.sh, s'.threads[o], k, lo) {
      if o != t {
        OtherKnown(c, s, t, eff, th, s', o, k, lo);
      }
    }
  }

  lemma WorldKnown(c: Config, s: State, l: Label, k: Key, lo: nat)
    requires Known(c, s, k, lo) && Enabled(c, s, l) && !l.Act?
    ensures Known(c, After(c, s, l), k, lo)
  {
    var s' := After(c, s, l);
    forall t | t in s'.threads ensures ThreadKnown(c, s'.sh, s'.threads[t], k, lo) {
      if t in s.threads {
        OtherSame(c, s, l, t);
        ThreadStaysKnown(c, s.sh, s'.sh, s.threads[t], k, lo);
      }
    }
    forall f | f in s'.sh.flights ensures FlightKnown(c, s'.sh, s'.sh.flights[f], k, lo) {
      assert FlightKnown(c, s.sh, s.sh.flights[f], k, lo);
    }
  }

  lemma NextKnown(c: Config, s: State, s': State, k: Key, lo: nat)
    requires Inv(c, s) && Known(c, s, k, lo) && Next(c, s, s')
    ensures Known(c, s', k, lo)
  {
    var l :| Enabled(c, s, l) && s' == After(c, s, l);
    if l.Act? {
      ActKnown(c, s, l.t, l.ch, s', k, lo);
    } else {
      WorldKnown(c, s, l, k, lo);
    }
  }

  lemma InitKnown(c: Config, s: State, k: Key)
    requires Init(s)
    ensures Known(c, s, k, At(s.sh.origin, k))
  {
  }

  lemma StepKnown(c: Config, run: seq<State>, n: nat, k: Key, lo: nat)
    requires IsRun(c, run) && n + 1 < |run| && Known(c, run[n], k, lo)
    ensures Known(c, run[n + 1], k, lo)
  {
    RunInv(c, run, n);
    RunNext(c, run, n);
    NextKnown(c, run[n], run[n + 1], k, lo);
  }

  lemma {:induction false} RunKnown(c: Config, run: seq<State>, n: nat, k: Key)
    requires IsRun(c, run) && n < |run|
    ensures Known(c, run[n], k, At(run[0].sh.origin, k))
  {
    if n == 0 {
      InitKnown(c, run[0], k);
    } else {
      RunKnown(c, run, n - 1, k);
      StepKnown(c, run, n - 1, k, At(run[0].sh.origin, k));
    }
  }

  // --------------------------------------------------- moments of the origin

  /** The origin held this version of k at some moment from state i to state n. */
  ghost predicate WasCurrent(run: seq<State>, i: nat, n: nat, k: Key, v: nat)
    requires n < |run|
  {
    exists j :: i <= j <= n && At(run[j].sh.origin, k) == v
  }

  lemma EffectOrigin(sh: Shared, me: Tid, eff: Effect, k: Key)
    requires EffectOk(sh, me, eff)
    ensures At(sh.origin, k) <= At(Apply(sh, me, eff).origin, k) <= At(sh.origin, k) + 1
  {
    if !ChangesBooks(eff) {
      KeepsBooks(sh, me, eff);
    }
  }

  /** Versions are given out one at a time. */
  lemma LabelOrigin(c: Config, s: State, l: Label, k: Key)
    requires Enabled(c, s, l)
    ensures At(s.sh.origin, k) <= At(After(c, s, l).sh.origin, k) <= At(s.sh.origin, k) + 1
  {
    if l.Act? {
      EffectOrigin(s.sh, l.t, Move(c, s.sh, l.t, s.threads[l.t], l.ch).0, k);
    }
  }

  lemma NextOrigin(c: Config, s: State, s': State, k: Key)
    requires Next(c, s, s')
    ensures At(s.sh.origin, k) <= At(s'.sh.origin, k) <= At(s.sh.origin, k) + 1
  {
    var l :| Enabled(c, s, l) && s' == After(c, s, l);
    LabelOrigin(c, s, l, k);
  }

  /** So every version between two states was the origin's in between. */
  lemma {:induction false} NoneSkipped(c: Config, run: seq<State>, i: nat, n: nat, k: Key, v: nat)
    requires IsRun(c, run) && i <= n < |run| && At(run[i].sh.origin, k) <= v <= At(run[n].sh.origin, k)
    ensures WasCurrent(run, i, n, k, v)
    decreases n
  {
    if v != At(run[n].sh.origin, k) {
      assert i < n;
      RunNext(c, run, n - 1);
      NextOrigin(c, run[n - 1], run[n], k);
      NoneSkipped(c, run, i, n - 1, k, v);
      var j :| i <= j <= n - 1 && At(run[j].sh.origin, k) == v;
      assert i <= j <= n;
    }
  }

  // ----------------------------------------------------------------- theorems

  lemma AnswerKnown(c: Config, run: seq<State>, n: nat, r: Tid, v: nat)
    requires IsRun(c, run) && n < |run| && r in run[n].threads && Yields(run[n].threads[r], v)
    ensures var k := run[n].threads[r].r.key; At(run[0].sh.origin, k) <= v <= At(run[n].sh.origin, k)
  {
    var k := run[n].threads[r].r.key;
    RunKnown(c, run, n, k);
    assert ThreadKnown(c, run[n].sh, run[n].threads[r], k, At(run[0].sh.origin, k));
  }

  /** However a read is served, what it yields was the origin's version of its key at some
      moment of the run. */
  lemma AnswersAreReal(c: Config, run: seq<State>, n: nat, r: Tid, v: nat)
    requires IsRun(c, run) && n < |run| && r in run[n].threads && Yields(run[n].threads[r], v)
    ensures WasCurrent(run, 0, n, run[n].threads[r].r.key, v)
  {
    AnswerKnown(c, run, n, r, v);
    NoneSkipped(c, run, 0, n, run[n].threads[r].r.key, v);
  }

  /** The tiers hold only keys in cache mode, and only versions the origin has held. */
  lemma TiersAreReal(c: Config, run: seq<State>, n: nat, k: Key)
    requires IsRun(c, run) && n < |run|
    ensures k in run[n].sh.prot ==> c.mode(k) == Cache && WasCurrent(run, 0, n, k, run[n].sh.prot[k].ver)
    ensures k in run[n].sh.prob ==> c.mode(k) == Cache && WasCurrent(run, 0, n, k, run[n].sh.prob[k].ver)
  {
    RunKnown(c, run, n, k);
    if k in run[n].sh.prot {
      NoneSkipped(c, run, 0, n, k, run[n].sh.prot[k].ver);
    }
    if k in run[n].sh.prob {
      NoneSkipped(c, run, 0, n, k, run[n].sh.prob[k].ver);
    }
  }

  // ------------------------------------------------------- reads of the origin

  /** The flight's fetch was done by then. */
  ghost predicate FetchedBy(was: Shared, f: Tid) { f in was.flights && was.flights[f].outcome.Fetched? }

  /** What a flight has fetched since then is no older than the origin was then. */
  ghost predicate FetchedSince(was: Shared, sh: Shared, f: Tid) {
    FetchedBy(sh, f) && !FetchedBy(was, f) ==> At(was.origin, sh.flights[f].key) <= sh.flights[f].outcome.ver
  }

  /** A step keeps the flights and what they have fetched; what it fetches is current. */
  ghost predicate Fetches(sh: Shared, sh': Shared, f: Tid) {
    && sh.flights.Keys <= sh'.flights.Keys
    && (FetchedBy(sh', f) ==>
          var x := sh'.flights[f];
          || x.outcome.ver == At(sh.origin, x.key)
          || (FetchedBy(sh, f) && x.key == sh.flights[f].key && x.outcome == sh.flights[f].outcome))
  }

  lemma EffectFetches(c: Config, sh: Shared, me: Tid, eff: Effect, f: Tid)
    requires Guard(c, sh, me, eff)
    ensures Fetches(sh, Apply(sh, me, eff), f)
  {
    if !ChangesFlights(eff) {
      KeepsFlights(sh, me, eff);
    }
  }

  lemma WorldFetches(c: Config, s: State, l: Label, f: Tid)
    requires Enabled(c, s, l) && !l.Act?
    ensures Fetches(s.sh, After(c, s, l).sh, f)
  {
  }

  lemma NextFetches(c: Config, s: State, s': State, f: Tid)
    requires Inv(c, s) && Next(c, s, s')
    ensures Fetches(s.sh, s'.sh, f)
  {
    var l :| Enabled(c, s, l) && s' == After(c, s, l);
    if l.Act? {
      var eff, th := Acts(c, s, l.t, l.ch, s');
      EffectFetches(c, s.sh, l.t, eff, f);
    } else {
      WorldFetches(c, s, l, f);
    }
  }

  lemma FetchesSince(was: Shared, sh: Shared, sh': Shared, f: Tid)
    requires FetchedSince(was, sh, f) && Fetches(sh, sh', f)
    requires f in sh'.flights ==> At(was.origin, sh'.flights[f].key) <= At(sh.origin, sh'.flights[f].key)
    ensures FetchedSince(was, sh', f)
  {
  }

  lemma StepFetches(c: Config, run: seq<State>, i: nat, n: nat, f: Tid)
    requires IsRun(c, run) && i <= n && n + 1 < |run| && FetchedSince(run[i].sh, run[n].sh, f)
    ensures FetchedSince(run[i].sh, run[n + 1].sh, f) && run[n].sh.flights.Keys <= run[n + 1].sh.flights.Keys
  {
    RunInv(c, run, n);
    RunNext(c, run, n);
    if f in run[n + 1].sh.flights {
      RunGrows(c, run, i, n, run[n + 1].sh.flights[f].key);
    }
    NextFetches(c, run[n], run[n + 1], f);
    FetchesSince(run[i].sh, run[n].sh, run[n + 1].sh, f);
  }

  lemma {:induction false} RunFetches(c: Config, run: seq<State>, i: nat, n: nat, f: Tid)
    requires IsRun(c, run) && i <= n < |run|
    ensures FetchedSince(run[i].sh, run[n].sh, f) && run[i].sh.flights.Keys <= run[n].sh.flights.Keys
    decreases n
  {
    if i < n {
      RunFetches(c, run, i, n - 1, f);
      StepFetches(c, run, i, n - 1, f);
    }
  }

  /** The read is about to answer from the origin: directly, or from a flight that had not
      fetched by the earlier state `was`. */
  ghost predicate Upstream(was: Shared, r: Reader) {
    r.pc.Missing? && (r.pc.x.Direct? || (r.pc.x.Await? && !FetchedBy(was, r.pc.x.flight)))
  }

  lemma UpstreamAnswer(c: Config, s: State, s': State, was: Shared, r: Tid, k: Key, v: nat)
    requires Inv(c, s) && Next(c, s, s') && r in s.threads && s.threads[r].R? && s.threads[r].r.key == k
    requires Upstream(was, s.threads[r].r) && r in s'.threads && Yields(s'.threads[r], v)
    requires At(was.origin, k) <= At(s.sh.origin, k)
    requires s.threads[r].r.pc.x.Await? ==> FetchedSince(was, s.sh, s.threads[r].r.pc.x.flight)
    ensures At(was.origin, k) <= v
  {
    var l :| Enabled(c, s, l) && s' == After(c, s, l);
    if !l.Act? || l.t != r {
      OtherSame(c, s, l, r);
      assert false;
    }
    assert ThreadInv(c, s.sh, r, s.threads[r]);
  }

  lemma UpstreamIsNew(c: Config, run: seq<State>, i: nat, n: nat, r: Tid, v: nat)
    requires IsRun(c, run) && i <= n && n + 1 < |run|
    requires r in run[n].threads && run[n].threads[r].R? && Upstream(run[i].sh, run[n].threads[r].r)
    requires r in run[n + 1].threads && Yields(run[n + 1].threads[r], v)
    ensures var k := run[n].threads[r].r.key; run[n + 1].threads[r].r.key == k && At(run[i].sh.origin, k) <= v
  {
    var x := run[n].threads[r].r;
    RunNext(c, run, n);
    RunInv(c, run, n);
    RunGrows(c, run, i, n, x.key);
    if x.pc.x.Await? {
      RunFetches(c, run, i, n, x.pc.x.flight);
    }
    UpstreamAnswer(c, run[n], run[n + 1], run[i].sh, r, x.key, v);
    NextSameRead(c, run[n], run[n + 1], r);
  }

  /** An answer from the origin was current during the read: a read that began after state i
      and answers directly, or from a flight that had not fetched by then, yields a version
      the origin held at or after state i. */
  lemma FetchedDuringRead(c: Config, run: seq<State>, i: nat, n: nat, r: Tid, v: nat)
    requires IsRun(c, run) && i <= n && n + 1 < |run| && r !in run[i].threads
    requires r in run[n].threads && run[n].threads[r].R? && Upstream(run[i].sh, run[n].threads[r].r)
    requires r in run[n + 1].threads && Yields(run[n + 1].threads[r], v)
    ensures WasCurrent(run, i, n + 1, run[n].threads[r].r.key, v)
  {
    UpstreamIsNew(c, run, i, n, r, v);
    AnswerKnown(c, run, n + 1, r, v);
    NoneSkipped(c, run, i, n + 1, run[n].threads[r].r.key, v);
  }

  // ------------------------------------------------------------ MGET positions

  /** A position of an MGET waits only for a flight of its own, launched since `was`. */
  ghost predicate WaitsForOwn(was: Shared, th: Thread) {
    th.R? && th.r.kind != Get && th.r.pc.Missing? && th.r.pc.x.Await? ==> th.r.pc.x.flight !in was.flights
  }

  lemma ReaderWaits(c: Config, sh: Shared, me: Tid, r: Reader, ch: Choice, was: Shared)
    requires ReaderCan(c, sh, me, r, ch) && WaitsForOwn(was, R(r)) && was.flights.Keys <= sh.flights.Keys
    ensures WaitsForOwn(was, R(ReaderMove(c, sh, me, r, ch).1))
  {
  }

  lemma NewWaits(c: Config, s: State, l: Label, was: Shared, r: Tid)
    requires Enabled(c, s, l) && r in After(c, s, l).threads && r !in s.threads
    ensures WaitsForOwn(was, After(c, s, l).threads[r])
  {
  }

  lemma ActWaits(c: Config, s: State, ch: Choice, was: Shared, r: Tid)
    requires Enabled(c, s, Act(r, ch)) && was.flights.Keys <= s.sh.flights.Keys && WaitsForOwn(was, s.threads[r])
    ensures WaitsForOwn(was, After(c, s, Act(r, ch)).threads[r])
  {
    if s.threads[r].R? {
      ReaderWaits(c, s.sh, r, s.threads[r].r, ch, was);
    }
  }

  lemma NextWaits(c: Config, s: State, s': State, was: Shared, r: Tid)
    requires Next(c, s, s') && r in s'.threads && was.flights.Keys <= s.sh.flights.Keys
    requires r in s.threads ==> WaitsForOwn(was, s.threads[r])
    ensures WaitsForOwn(was, s'.threads[r])
  {
    var l :| Enabled(c, s, l) && s' == After(c, s, l);
    if r !in s.threads {
      NewWaits(c, s, l, was, r);
    } else if l.Act? && l.t == r {
      ActWaits(c, s, l.ch, was, r);
    } else {
      OtherSame(c, s, l, r);
    }
  }

  /** So an MGET position that answers from the origin answers as of the read itself. */
  lemma {:induction false} MGetFetchesItself(c: Config, run: seq<State>, i: nat, n: nat, r: Tid)
    requires IsRun(c, run) && i <= n < |run| && r !in run[i].threads && r in run[n].threads
    ensures WaitsForOwn(run[i].sh, run[n].threads[r])
    decreases n
  {
    RunFetches(c, run, i, n - 1, r);
    RunNext(c, run, n - 1);
    if r in run[n - 1].threads {
      MGetFetchesItself(c, run, i, n - 1, r);
    }
    NextWaits(c, run[n - 1], run[n], run[i].sh, r);
  }

  // ------------------------------------------------------------- stale answers

  /** Once the upstream has failed, a read is answered only if stale answers are allowed, and
      then from a protected entry that expired less than the grace period before. */
  lemma StaleOnlyIfAllowed(c: Config, run: seq<State>, n: nat, r: Tid, v: nat)
    requires IsRun(c, run) && n + 1 < |run| && r in run[n].threads && run[n].threads[r].R?
    requires run[n].threads[r].r.pc == Missing(Fallback) && r in run[n + 1].threads && Yields(run[n + 1].threads[r], v)
    ensures var x, prot := run[n].threads[r].r, run[n].sh.prot;
      && c.allowStale && x.key in prot && prot[x.key].ver == v
      && x.begun < prot[x.key].expiresAt + if c.staleGrace > 0 then c.staleGrace else 0
  {
    RunNext(c, run, n);
    var l :| Enabled(c, run[n], l) && run[n + 1] == After(c, run[n], l);
    if !l.Act? || l.t != r {
      OtherSame(c, run[n], l, r);
      assert false;
    }
  }
}
