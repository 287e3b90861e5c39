/** The invariant holds in every state of every run. */
module ServiceRuns {
  import opened ServiceState
  import opened ServiceSteps
  import opened ServiceInvariant
  import opened ServiceEffects
  import opened ServiceStable
  import opened ServiceLocal

  /** Nobody knows a thread that has not started. */
  ghost predicate Unknown(sh: Shared, t: Tid) {
    && (forall i :: i in sh.mu ==> sh.mu[i] != t)
    && (forall i :: i in sh.gate ==> sh.gate[i] != t)
    && Pending(sh, t) == []
  }

  lemma StrangersAreUnknown(c: Config, s: State, t: Tid)
    requires Inv(c, s) && t !in s.threads
    ensures Unknown(s.sh, t)
  {
  }

  // -------------------------------------------------------- a thread acts

  /** The same read, one step later. */
  ghost predicate SameIdentity(r: Reader, r': Reader) {
    r'.floor == r.floor && r'.key == r.key && r'.begun == r.begun && r'.kind == r.kind
  }

  lemma ObserveIdentity(c: Config, r: Reader, ch: Choice)
    ensures SameIdentity(r, ObserveMove(c, r, ch).1)
  {
  }

  lemma ApplyIdentity(c: Config, sh: Shared, me: Tid, r: Reader, a: ApplyPc, then_: Then)
    requires ApplyCan(c, sh, me, a)
    ensures SameIdentity(r, ApplyMove(c, sh, me, r, a, then_).1)
  {
  }

  lemma ProbeIdentity(c: Config, sh: Shared, r: Reader, p: ProbePc, ch: Choice)
    ensures SameIdentity(r, ProbeMove(c, sh, r, p, ch).1)
  {
  }

  lemma PromoteIdentity(c: Config, r: Reader, m: PromotePc, ch: Choice)
    ensures SameIdentity(r, PromoteMove(c, r, m, ch).1)
  {
  }

  lemma MissIdentity(c: Config, sh: Shared, r: Reader, x: MissPc, ch: Choice)
    ensures SameIdentity(r, MissMove(c, sh, r, x, ch).1)
  {
  }

  lemma ReaderIdentity(c: Config, sh: Shared, me: Tid, r: Reader, ch: Choice, eff: Effect, r': Reader)
    requires ReaderCan(c, sh, me, r, ch) && ReaderMove(c, sh, me, r, ch) == (eff, r')
    ensures SameIdentity(r, r')
  {
    match r.pc
    case Observing => ObserveIdentity(c, r, ch);
    case Applying(a, then_) => ApplyIdentity(c, sh, me, r, a, then_);
    case Probing(p) => ProbeIdentity(c, sh, r, p, ch);
    case Promoting(m) => PromoteIdentity(c, r, m, ch);
    case Missing(x) => MissIdentity(c, sh, r, x, ch);
  }

  lemma ReaderActs(c: Config, sh: Shared, me: Tid, r: Reader, ch: Choice, eff: Effect, r': Reader)
    requires SharedInv(c, sh) && ThreadInv(c, sh, me, R(r)) && ReaderCan(c, sh, me, r, ch)
    requires ReaderMove(c, sh, me, r, ch) == (eff, r') && (eff.Launch? ==> eff.fid != me)
    ensures Guard(c, sh, me, eff) && ThreadInv(c, Apply(sh, me, eff), me, R(r'))
  {
    ReaderStep(c, sh, me, r, ch, eff, r');
    ReaderShapeAfter(c, sh, me, r, ch, eff, r');
    forall i: Stripe ensures Agree(c, sh, me, R(r), eff, R(r'), i) {
      ReaderAgree(c, sh, me, r, ch, eff, r', i);
    }
    LockAfter(c, sh, me, R(r), eff, R(r'));
    assert HistInv(c, sh, r.key);
    EffectGrows(c, sh, me, eff, r.key);
    ReaderIdentity(c, sh, me, r, ch, eff, r');
    EffectTime(sh, me, eff);
  }

  lemma FlierActs(c: Config, sh: Shared, me: Tid, f: Flier, ch: Choice, eff: Effect, f': Flier)
    requires SharedInv(c, sh) && ThreadInv(c, sh, me, F(f)) && FlierCan(c, sh, me, f, ch)
    requires FlierMove(c, sh, me, f, ch) == (eff, f')
    ensures Guard(c, sh, me, eff) && ThreadInv(c, Apply(sh, me, eff), me, F(f'))
  {
    assert HistInv(c, sh, f.key) && FlightInv(c, sh, me);
    assert HoldsMu(c, Pending(sh, me), F(f), c.stripe(f.key)) ==> OwnsMu(sh, me, c.stripe(f.key));
    FlierStep(c, sh, me, f, ch, eff, f');
    FlierShapeAfter(c, sh, me, f, ch, eff, f');
    forall i: Stripe ensures Agree(c, sh, me, F(f), eff, F(f'), i) {
      FlierAgree(c, sh, me, f, ch, eff, f', i);
    }
    LockAfter(c, sh, me, F(f), eff, F(f'));
  }

  lemma WriterActs(c: Config, sh: Shared, me: Tid, w: Writer, ch: Choice, eff: Effect, w': Writer)
    requires SharedInv(c, sh) && ThreadInv(c, sh, me, W(w)) && WriterCan(c, sh, w, ch)
    requires WriterMove(c, sh, w, ch) == (eff, w')
    ensures Guard(c, sh, me, eff) && ThreadInv(c, Apply(sh, me, eff), me, W(w'))
  {
    WriterStep(c, sh, me, w, ch, eff, w');
    WriterAgree(c, sh, me, w, ch, eff, w', 0);
    forall i: Stripe ensures Agree(c, sh, me, W(w), eff, W(w'), i) {
      WriterAgree(c, sh, me, w, ch, eff, w', i);
    }
    LockAfter(c, sh, me, W(w), eff, W(w'));
  }

  lemma PurgerActs(c: Config, sh: Shared, me: Tid, p: Purger, eff: Effect, p': Purger)
    requires SharedInv(c, sh) && ThreadInv(c, sh, me, P(p)) && PurgerCan(sh, p) && PurgerMove(sh, p) == (eff, p')
    ensures Guard(c, sh, me, eff) && ThreadInv(c, Apply(sh, me, eff), me, P(p'))
  {
    PurgerStep(c, sh, me, p, eff, p');
    PurgerAgree(c, sh, me, p, eff, p', 0);
    forall i: Stripe ensures Agree(c, sh, me, P(p), eff, P(p'), i) {
      PurgerAgree(c, sh, me, p, eff, p', i);
    }
    LockAfter(c, sh, me, P(p), eff, P(p'));
  }

  lemma ThreadActs(c: Config, sh: Shared, me: Tid, th: Thread, ch: Choice, eff: Effect, th': Thread)
    requires SharedInv(c, sh) && ThreadInv(c, sh, me, th) && Can(c, sh, me, th, ch)
    requires Move(c, sh, me, th, ch) == (eff, th') && (eff.Launch? ==> eff.fid != me)
    ensures Guard(c, sh, me, eff) && ThreadInv(c, Apply(sh, me, eff), me, th')
  {
    match th
    case R(r) => ReaderActs(c, sh, me, r, ch, eff, th'.r);
    case F(f) => FlierActs(c, sh, me, f, ch, eff, th'.f);
    case W(w) => WriterActs(c, sh, me, w, ch, eff, th'.w);
    case P(p) => PurgerActs(c, sh, me, p, eff, th'.p);
  }

  lemma NewFlight(c: Config, sh: Shared, me: Tid, eff: Effect)
    requires Guard(c, sh, me, eff) && eff.Launch? && Unknown(sh, eff.fid)
    ensures ThreadInv(c, Apply(sh, me, eff), eff.fid, F(Flier(FFetch, eff.flight.key, eff.flight.epoch)))
  {
  }

  ghost predicate Owners(s: State) {
    && (forall f :: f in s.sh.flights ==> f in s.threads && s.threads[f].F?)
    && (forall i :: i in s.sh.mu ==> s.sh.mu[i] in s.threads)
    && (forall i :: i in s.sh.gate ==> s.sh.gate[i] in s.threads)
    && (forall t :: Pending(s.sh, t) != [] ==> t in s.threads)
  }

  /** A step makes only the acting thread, or the flight it launches, known. */
  ghost predicate KnownAfter(sh: Shared, t: Tid, spawned: set<Tid>, sh': Shared) {
    LocksKnown(sh, t, sh') && forall f :: f in sh'.flights ==> f in sh.flights || f in spawned
  }

  lemma KnownFlights(sh: Shared, t: Tid, eff: Effect)
    requires EffectOk(sh, t, eff)
    ensures forall f :: f in Apply(sh, t, eff).flights ==> f in sh.flights || f in Spawn(eff).Keys
  {
    if !ChangesFlights(eff) {
      KeepsFlights(sh, t, eff);
    }
  }

  ghost predicate LocksKnown(sh: Shared, t: Tid, sh': Shared) {
    && (forall i :: i in sh'.mu ==> sh'.mu[i] == t || (i in sh.mu && sh'.mu[i] == sh.mu[i]))
    && (forall i :: i in sh'.gate ==> sh'.gate[i] == t || (i in sh.gate && sh'.gate[i] == sh.gate[i]))
    && (forall x :: x != t ==> Pending(sh', x) == Pending(sh, x))
  }

  lemma KnownLocks(sh: Shared, t: Tid, eff: Effect)
    requires EffectOk(sh, t, eff) && ChangesLocks(eff)
    ensures LocksKnown(sh, t, Apply(sh, t, eff))
  {
  }

  lemma SameLocksKnown(sh: Shared, t: Tid, sh': Shared)
    requires sh'.mu == sh.mu && sh'.gate == sh.gate && sh'.pending == sh.pending
    ensures LocksKnown(sh, t, sh')
  {
  }

  lemma EffectKnown(sh: Shared, t: Tid, eff: Effect)
    requires EffectOk(sh, t, eff)
    ensures KnownAfter(sh, t, Spawn(eff).Keys, Apply(sh, t, eff))
  {
    KnownFlights(sh, t, eff);
    if ChangesLocks(eff) {
      KnownLocks(sh, t, eff);
    } else {
      KeepsLocks(sh, t, eff);
      SameLocksKnown(sh, t, Apply(sh, t, eff));
    }
  }

  lemma OwnersAfter(s: State, t: Tid, spawn: map<Tid, Thread>, th: Thread, s': State)
    requires Owners(s) && t in s.threads && th.F? == s.threads[t].F?
    requires spawn.Keys !! s.threads.Keys && forall f :: f in spawn ==> spawn[f].F?
    requires KnownAfter(s.sh, t, spawn.Keys, s'.sh) && s'.threads == s.threads[t := th] + spawn
    ensures Owners(s')
  {
  }

  /** What a thread does, with its guarantee. */
  lemma Acts(c: Config, s: State, t: Tid, ch: Choice, s': State) returns (eff: Effect, th: Thread)
    requires Inv(c, s) && Enabled(c, s, Act(t, ch)) && s' == After(c, s, Act(t, ch))
    ensures Move(c, s.sh, t, s.threads[t], ch) == (eff, th)
    ensures Guard(c, s.sh, t, eff) && ThreadInv(c, s'.sh, t, th) && th.F? == s.threads[t].F?
    ensures s'.sh == Apply(s.sh, t, eff) && s'.threads == s.threads[t := th] + Spawn(eff)
    ensures Spawn(eff).Keys !! s.threads.Keys
  {
    eff, th := Move(c, s.sh, t, s.threads[t], ch).0, Move(c, s.sh, t, s.threads[t], ch).1;
    if eff.Launch? {
      assert eff.fid in Spawn(eff).Keys;
    }
    ThreadActs(c, s.sh, t, s.threads[t], ch, eff, th);
  }

  lemma OthersKeep(c: Config, s: State, t: Tid, eff: Effect, o: Tid)
    requires Inv(c, s) && Guard(c, s.sh, t, eff) && o in s.threads && o != t
    ensures ThreadInv(c, Apply(s.sh, t, eff), o, s.threads[o])
  {
    EffectRely(c, s.sh, t, eff, o);
    StableThread(c, s.sh, Apply(s.sh, t, eff), o, s.threads[o]);
  }

  /** The other threads after a step: those there were, and the flight it launched. */
  lemma OtherAfter(c: Config, s: State, t: Tid, eff: Effect, th: Thread, s': State, o: Tid)
    requires Inv(c, s) && Guard(c, s.sh, t, eff) && o != t && o in s'.threads && Spawn(eff).Keys !! s.threads.Keys
    requires s'.sh == Apply(s.sh, t, eff) && s'.threads == s.threads[t := th] + Spawn(eff)
    ensures ThreadInv(c, s'.sh, o, s'.threads[o])
  {
    if o in s.threads {
      OthersKeep(c, s, t, eff, o);
    } else {
      StrangersAreUnknown(c, s, o);
      NewFlight(c, s.sh, t, eff);
    }
  }

  lemma ActKeeps(c: Config, s: State, t: Tid, ch: Choice, s': State)
    requires Inv(c, s) && Enabled(c, s, Act(t, ch)) && s' == After(c, s, Act(t, ch))
    ensures Inv(c, s')
  {
    var eff, th := Acts(c, s, t, ch, s');
    EffectSharedInv(c, s.sh, t, eff);
    forall o | o in s'.threads ensures ThreadInv(c, s'.sh, o, s'.threads[o]) {
      if o != t {
        OtherAfter(c, s, t, eff, th, s', o);
      }
    }
    EffectKnown(s.sh, t, eff);
    OwnersAfter(s, t, Spawn(eff), th, s');
  }

  // ------------------------------------------------- operations that start

  lemma StartReadKeeps(c: Config, sh: Shared, t: Tid, key: Key, kind: ReadKind)
    requires SharedInv(c, sh) && Unknown(sh, t)
    ensures ThreadInv(c, sh, t, NewRead(sh, key, kind))
  {
  }

  lemma StartOtherKeeps(c: Config, sh: Shared, t: Tid, keys: seq<Key>, key: Key)
    requires SharedInv(c, sh) && Unknown(sh, t)
    ensures ThreadInv(c, sh, t, NewWrite(keys))
    ensures ThreadInv(c, sh, t, NewKeyPurge(key))
    ensures ThreadInv(c, sh, t, NewPurge())
  {
  }

  lemma StartKeeps(c: Config, s: State, l: Label)
    requires Inv(c, s) && Enabled(c, s, l)
    requires l.StartReads? || l.StartWrite? || l.StartKeyPurge? || l.StartPurge?
    ensures Inv(c, After(c, s, l))
  {
    var s' := After(c, s, l);
    forall o | o in s'.threads ensures ThreadInv(c, s'.sh, o, s'.threads[o]) {
      if o !in s.threads {
        StrangersAreUnknown(c, s, o);
        match l
        case StartReads(ops, kind) => StartReadKeeps(c, s.sh, o, ops[o], kind);
        case StartWrite(_, keys) => StartOtherKeeps(c, s.sh, o, keys, "");
        case StartKeyPurge(_, key) => StartOtherKeeps(c, s.sh, o, [], key);
        case StartPurge(_) => StartOtherKeeps(c, s.sh, o, [], "");
      }
    }
  }

  // ------------------------------------------------------ the environment

  lemma TickRely(c: Config, sh: Shared, to: int, o: Tid)
    requires sh.now <= to
    ensures Rely(c, sh, sh.(now := to), o)
  {
  }

  lemma DirectWriteRely(c: Config, sh: Shared, k: Key, o: Tid)
    ensures Rely(c, sh, sh.(origin := sh.origin[k := At(sh.origin, k) + 1]), o)
  {
  }

  lemma EvictProtRely(c: Config, sh: Shared, k: Key, o: Tid)
    ensures Rely(c, sh, sh.(prot := sh.prot - {k}), o)
  {
  }

  lemma EvictProbRely(c: Config, sh: Shared, k: Key, o: Tid)
    ensures Rely(c, sh, sh.(prob := sh.prob - {k}), o)
  {
  }

  lemma WorldSharedInv(c: Config, sh: Shared, k: Key, to: int, sh': Shared)
    requires SharedInv(c, sh) && sh.now <= to
    requires sh' in {sh.(now := to), sh.(origin := sh.origin[k := At(sh.origin, k) + 1]),
                     sh.(prot := sh.prot - {k}), sh.(prob := sh.prob - {k})}
    ensures SharedInv(c, sh')
  {
    forall x ensures HistInv(c, sh', x) && TierInv(c, sh', x) {
      assert HistInv(c, sh, x) && TierInv(c, sh, x);
    }
    forall f | f in sh'.flights ensures FlightInv(c, sh', f) {
      assert FlightInv(c, sh, f);
    }
    forall x | x in sh'.table ensures TableInv(sh', x) {
      assert TableInv(sh, x);
    }
  }

  lemma WorldRely(c: Config, s: State, l: Label, o: Tid)
    requires Enabled(c, s, l) && (l.Tick? || l.DirectWrite? || l.EvictProt? || l.EvictProb?)
    ensures Rely(c, s.sh, After(c, s, l).sh, o)
  {
    match l
    case Tick(to) => TickRely(c, s.sh, to, o);
    case DirectWrite(k) => DirectWriteRely(c, s.sh, k, o);
    case EvictProt(k) => EvictProtRely(c, s.sh, k, o);
    case EvictProb(k) => EvictProbRely(c, s.sh, k, o);
  }

  lemma WorldKeeps(c: Config, s: State, l: Label)
    requires Inv(c, s) && Enabled(c, s, l)
    requires l.Tick? || l.DirectWrite? || l.EvictProt? || l.EvictProb?
    ensures Inv(c, After(c, s, l))
  {
    var s' := After(c, s, l);
    var k := if l.Tick? then "" else l.key;
    var to := if l.Tick? then l.to else s.sh.now;
    WorldSharedInv(c, s.sh, k, to, s'.sh);
    forall o | o in s'.threads ensures ThreadInv(c, s'.sh, o, s'.threads[o]) {
      WorldRely(c, s, l, o);
      StableThread(c, s.sh, s'.sh, o, s.threads[o]);
    }
  }

  // ------------------------------------------------------------- all runs

  lemma NextKeeps(c: Config, s: State, s': State)
    requires Inv(c, s) && Next(c, s, s')
    ensures Inv(c, s')
  {
    var l :| Enabled(c, s, l) && s' == After(c, s, l);
    if l.Act? {
      ActKeeps(c, s, l.t, l.ch, s');
    } else if l.StartReads? || l.StartWrite? || l.StartKeyPurge? || l.StartPurge? {
      StartKeeps(c, s, l);
    } else {
      WorldKeeps(c, s, l);
    }
  }

  lemma InitInv(c: Config, s: State)
    requires Init(s)
    ensures Inv(c, s)
  {
  }

  lemma RunNext(c: Config, run: seq<State>, n: nat)
    requires IsRun(c, run) && n + 1 < |run|
    ensures Next(c, run[n], run[n + 1])
  {
    assert StepAt(c, run, n);
  }

  lemma StepInv(c: Config, run: seq<State>, n: nat)
    requires IsRun(c, run) && n + 1 < |run| && Inv(c, run[n])
    ensures Inv(c, run[n + 1])
  {
    RunNext(c, run, n);
    NextKeeps(c, run[n], run[n + 1]);
  }

  lemma {:induction false} RunInv(c: Config, run: seq<State>, n: nat)
    requires IsRun(c, run) && n < |run|
    ensures Inv(c, run[n])
  {
    if n == 0 {
      InitInv(c, run[0]);
    } else {
      RunInv(c, run, n - 1);
      StepInv(c, run, n - 1);
    }
  }
}
