/** The gap of ServiceHandoff is real: a refill of a HOT key takes the candidate out of
    probation before it stores the protected copy, as a promotion does, but without
    raising the flag readers wait for. In a run of reads, with no write, purge or eviction
    anywhere and with the tracker's own answers, a read misses both tiers. */
module ServiceRefillGap {
  import opened ServiceState
  import opened ServiceSteps
  import opened ServiceHandoff
  import opened ServiceTracked
  import Model = HotnessModel
  import Calls = HotnessCalls
  import Heating = HotnessHeating

  /** The run ends in s, after i tracker calls. */
  ghost predicate EndsIn(c: Config, q: Answers, i: nat, run: seq<State>, s: State) {
    exists made :: IsReadRun(c, q, run, made) && made[|run| - 1] == i && run[|run| - 1] == s
  }

  lemma OneMore(c: Config, q: Answers, i: nat, run: seq<State>, s: State, j: nat, s': State)
    requires EndsIn(c, q, i, run, s) && Fits(q) && ReadStep(c, q, s, i, s', j)
    ensures EndsIn(c, q, j, run + [s'], s')
  {
    var made :| IsReadRun(c, q, run, made) && made[|run| - 1] == i && run[|run| - 1] == s;
    Extend(c, q, run, made, s', j);
    assert (made + [j])[|run|] == j && (run + [s'])[|run|] == s';
  }

  /** A state some run of reads ends in, after i tracker calls. */
  ghost predicate Reachable(c: Config, q: Answers, i: nat, s: State) {
    Fits(q) && exists run :: EndsIn(c, q, i, run, s)
  }

  lemma ReachMore(c: Config, q: Answers, i: nat, s: State, j: nat, s': State)
    requires Reachable(c, q, i, s) && ReadStep(c, q, s, i, s', j)
    ensures Reachable(c, q, j, s')
  {
    var run :| EndsIn(c, q, i, run, s);
    OneMore(c, q, i, run, s, j, s');
  }

  /** A step that does not ask the tracker. */
  lemma PlainStep(c: Config, q: Answers, i: nat, s: State, l: Label, s': State)
    requires Fits(q) && Enabled(c, s, l) && s' == After(c, s, l) && (l.Act? || l.StartReads? || l.Tick?)
    requires l.Act? ==> !Move(c, s.sh, l.t, s.threads[l.t], l.ch).0.Track?
    ensures ReadStep(c, q, s, i, s', i)
  {
    assert Answered(c, q, s, l, i, i);
  }

  lemma ReachNext(c: Config, q: Answers, i: nat, s: State, l: Label, s': State)
    requires Reachable(c, q, i, s) && Enabled(c, s, l) && s' == After(c, s, l) && (l.Act? || l.StartReads? || l.Tick?)
    requires l.Act? ==> !Move(c, s.sh, l.t, s.threads[l.t], l.ch).0.Track?
    ensures Reachable(c, q, i, s')
  {
    PlainStep(c, q, i, s, l, s');
    ReachMore(c, q, i, s, i, s');
  }

  /** Thread t takes one step that starts no flight and does not ask the tracker. */
  lemma Steps(c: Config, q: Answers, i: nat, s: State, t: Tid, ch: Choice, eff: Effect, th: Thread, s': State)
    requires Reachable(c, q, i, s) && t in s.threads && Can(c, s.sh, t, s.threads[t], ch)
    requires Move(c, s.sh, t, s.threads[t], ch) == (eff, th) && !eff.Launch? && !eff.Track?
    requires EffectOk(s.sh, t, eff) && s' == State(Apply(s.sh, t, eff), s.threads[t := th])
    ensures Reachable(c, q, i, s')
  {
    assert s.threads[t := th] + map[] == s.threads[t := th];
    ReachNext(c, q, i, s, Act(t, ch), s');
  }

  /** Call i of the tracker run observes k at this time, and these are then the HOT keys. */
  ghost predicate Asked(q: Answers, i: nat, k: Key, now: int, hot: set<Key>) {
    && Fits(q) && i < |q.calls| && q.calls[i] == Calls.CallObserve(k, now)
    && Answer(q, i) == Track(hot, {k}, []) && hot <= {k}
  }

  /** Thread t asks the tracker, and gets the next answer. */
  lemma AsksTracker(c: Config, q: Answers, i: nat, s: State, t: Tid, ch: Choice, eff: Effect, th: Thread, s': State)
    requires Reachable(c, q, i, s) && t in s.threads && Can(c, s.sh, t, s.threads[t], ch)
    requires Move(c, s.sh, t, s.threads[t], ch) == (eff, th) && i < |q.calls| && eff == Answer(q, i)
    requires s.threads[t].R? && q.calls[i] == CallOf(s.threads[t].r, s.sh.now)
    requires EffectOk(s.sh, t, eff) && s' == State(Apply(s.sh, t, eff), s.threads[t := th])
    ensures Reachable(c, q, i + 1, s')
  {
    assert s.threads[t := th] + map[] == s.threads[t := th];
    var l := Act(t, ch);
    assert Enabled(c, s, l) && s' == After(c, s, l) && Answered(c, q, s, l, i, i + 1);
    ReachMore(c, q, i, s, i + 1, s');
  }

  ghost function Pick(at: int, hot: set<Key>, tracked: set<Key>): Choice {
    Choice(true, true, at, -1, "", 0, hot, tracked, [])
  }

  ghost predicate Caching(c: Config, k: Key) {
    c.probation && c.mode(k) == Cache && StoreTTL(c, k, -1, true) > 0
  }

  ghost predicate Reading(s: State, t: Tid, k: Key, kind: ReadKind, pc: ReadPc) {
    && t in s.threads && s.threads[t].R? && s.threads[t].r.key == k && s.threads[t].r.kind == kind
    && s.threads[t].r.pc == pc && s.threads[t].r.begun <= s.sh.now && Pending(s.sh, t) == []
  }

  /** A read observes the key: it makes the next call of the tracker run, now. */
  lemma Observes(c: Config, q: Answers, i: nat, s: State, t: Tid, k: Key, kind: ReadKind, hot: set<Key>)
    returns (s': State)
    requires Reachable(c, q, i, s) && Caching(c, k) && Reading(s, t, k, kind, Observing) && kind != Admin
    requires Asked(q, i, k, s.sh.now, hot) && s.sh.hot <= hot
    ensures Reachable(c, q, i + 1, s')
    ensures s'.sh == s.sh.(hot := hot, tracked := {k}, pending := s.sh.pending[t := []])
    ensures s'.threads == s.threads[t := R(s.threads[t].r.(pc := Applying(Begin, ThenLookup(k in hot))))]
  {
    var r := s.threads[t].r;
    var eff, th := Track(hot, {k}, []), R(r.(pc := Applying(Begin, ThenLookup(k in hot))));
    s' := State(s.sh.(hot := hot, tracked := {k}, pending := s.sh.pending[t := []]), s.threads[t := th]);
    assert Pending(s.sh, t) + [] == [];
    assert ObserveMove(c, r, Pick(0, hot, {k})) == (eff, th.r);
    AsksTracker(c, q, i, s, t, Pick(0, hot, {k}), eff, th, s');
  }

  /** No demotion is pending: the read goes on to the lookup. */
  lemma GoesToLookup(c: Config, q: Answers, i: nat, s: State, t: Tid, r: Reader, k: Key, hot: bool) returns (s': State)
    requires Reachable(c, q, i, s) && Caching(c, k) && t in s.threads && s.threads[t] == R(r) && r.key == k
    requires r.pc == Applying(Begin, ThenLookup(hot)) && Pending(s.sh, t) == []
    ensures Reachable(c, q, i, s') && s'.sh == s.sh
    ensures s'.threads == s.threads[t := R(r.(pc := if hot then Probing(Protected) else Probing(Probation)))]
  {
    var r2 := r.(pc := if hot then Probing(Protected) else Probing(Probation));
    s' := State(s.sh, s.threads[t := R(r2)]);
    Steps(c, q, i, s, t, Pick(0, {}, {}), Nop, R(r2), s');
  }

  /** The tracker answers an observation, and no demotion is pending. */
  lemma Observed(c: Config, q: Answers, i: nat, s: State, t: Tid, k: Key, kind: ReadKind, hot: set<Key>)
    returns (s': State)
    requires Reachable(c, q, i, s) && Caching(c, k) && Reading(s, t, k, kind, Observing) && kind != Admin
    requires Asked(q, i, k, s.sh.now, hot) && s.sh.hot <= hot
    ensures Reachable(c, q, i + 1, s')
    ensures s'.sh == s.sh.(hot := hot, tracked := {k}, pending := s.sh.pending[t := []])
    ensures s'.threads == s.threads[t := R(s.threads[t].r.(pc := if k in hot then Probing(Protected)
                                                           else Probing(Probation)))]
  {
    var s1 := Observes(c, q, i, s, t, k, kind, hot);
    s' := GoesToLookup(c, q, i + 1, s1, t, s1.threads[t].r, k, k in hot);
    assert s1.threads[t := s'.threads[t]] == s.threads[t := s'.threads[t]];
  }

  /** A probe that changes nothing but the reader. */
  lemma Probes(c: Config, q: Answers, i: nat, s: State, t: Tid, r: Reader, probe: ProbePc, pc: ReadPc)
    returns (s': State)
    requires Reachable(c, q, i, s) && t in s.threads && s.threads[t] == R(r) && r.pc == Probing(probe)
    requires r.begun <= s.sh.now
    requires probe !in {WaitLock, LockKey}
    requires ProbeMove(c, s.sh, r, probe, Pick(s.sh.now, {}, {})) == (Nop, r.(pc := pc))
    ensures Reachable(c, q, i, s') && s' == s.(threads := s.threads[t := R(r.(pc := pc))])
  {
    s' := s.(threads := s.threads[t := R(r.(pc := pc))]);
    Steps(c, q, i, s, t, Pick(s.sh.now, {}, {}), Nop, R(r.(pc := pc)), s');
  }

  /** From a miss in probation of a key that is not HOT to a flight of its own. */
  lemma Launches(c: Config, q: Answers, i: nat, s: State, t: Tid, k: Key, fid: Tid) returns (s': State)
    requires Reachable(c, q, i, s) && Caching(c, k) && Reading(s, t, k, MGetMember, Probing(Probation))
    requires k !in s.sh.prob && k !in s.sh.hot && fid !in s.sh.flights && fid !in s.threads
    ensures Reachable(c, q, i, s')
    ensures var e := At(s.sh.epoch, c.stripe(k));
      && s'.sh == s.sh.(flights := s.sh.flights[fid := Flight(k, e, Unfetched, false)])
      && s'.threads == s.threads[t := R(s.threads[t].r.(pc := Missing(Await(fid))))][fid := F(Flier(FFetch, k, e))]
  {
    var r := s.threads[t].r;
    var s1 := Probes(c, q, i, s, t, r, Probation, Probing(Recheck));
    var s2 := Probes(c, q, i, s1, t, r.(pc := Probing(Recheck)), Recheck, Missing(Capture));
    s' := Flies(c, q, i, s2, t, r.(pc := Missing(Capture)), k, fid);
    assert s2.threads[t := R(r.(pc := Missing(Await(fid))))] == s.threads[t := R(r.(pc := Missing(Await(fid))))];
  }

  lemma Flies(c: Config, q: Answers, i: nat, s: State, t: Tid, r: Reader, k: Key, fid: Tid) returns (s': State)
    requires Reachable(c, q, i, s) && t in s.threads && s.threads[t] == R(r) && r.key == k && r.kind == MGetMember
    requires r.pc == Missing(Capture)
    requires fid !in s.sh.flights && fid !in s.threads
    ensures Reachable(c, q, i, s')
    ensures var e := At(s.sh.epoch, c.stripe(k));
      && s'.sh == s.sh.(flights := s.sh.flights[fid := Flight(k, e, Unfetched, false)])
      && s'.threads == s.threads[t := R(r.(pc := Missing(Await(fid))))][fid := F(Flier(FFetch, k, e))]
  {
    var e := At(s.sh.epoch, c.stripe(k));
    var r1 := r.(pc := Missing(Join(e)));
    var s1 := State(s.sh, s.threads[t := R(r1)]);
    Steps(c, q, i, s, t, Pick(0, {}, {}), Nop, R(r1), s1);
    s' := LaunchStep(c, q, i, s1, t, r1, k, e, fid);
    assert s1.threads[t := R(r.(pc := Missing(Await(fid))))] == s.threads[t := R(r.(pc := Missing(Await(fid))))];
  }

  lemma LaunchStep(c: Config, q: Answers, i: nat, s: State, t: Tid, r: Reader, k: Key, e: nat, fid: Tid)
    returns (s': State)
    requires Reachable(c, q, i, s) && t in s.threads && s.threads[t] == R(r) && r.key == k && r.kind == MGetMember
    requires r.pc == Missing(Join(e))
    requires fid !in s.sh.flights && fid !in s.threads
    ensures Reachable(c, q, i, s') && s'.sh == s.sh.(flights := s.sh.flights[fid := Flight(k, e, Unfetched, false)])
    ensures s'.threads == s.threads[t := R(r.(pc := Missing(Await(fid))))][fid := F(Flier(FFetch, k, e))]
  {
    var ch := Pick(0, {}, {}).(fid := fid);
    var th, flier := R(r.(pc := Missing(Await(fid)))), F(Flier(FFetch, k, e));
    assert MissMove(c, s.sh, r, Join(e), ch) == (Launch(fid, Flight(k, e, Unfetched, false), false), th.r);
    assert s.threads[t := th] + map[fid := flier] == s.threads[t := th][fid := flier];
    s' := State(s.sh.(flights := s.sh.flights[fid := Flight(k, e, Unfetched, false)]),
                s.threads[t := th][fid := flier]);
    ReachNext(c, q, i, s, Act(t, ch), s');
  }

  ghost predicate Flying(s: State, fid: Tid, k: Key, e: nat, pc: FlightPc) {
    fid in s.threads && s.threads[fid] == F(Flier(pc, k, e)) && fid in s.sh.flights
  }

  /** The flight after its fetch. */
  ghost function Landed(s: State, fid: Tid, k: Key): Flight
    requires fid in s.sh.flights
  {
    s.sh.flights[fid].(outcome := Fetched(At(s.sh.origin, k), true))
  }

  /** A flight takes one step. */
  lemma FlierSteps(c: Config, q: Answers, i: nat, s: State, fid: Tid, f: Flier, ch: Choice, eff: Effect, f': Flier)
    returns (s': State)
    requires Reachable(c, q, i, s) && fid in s.threads && s.threads[fid] == F(f) && FlierCan(c, s.sh, fid, f, ch)
    requires FlierMove(c, s.sh, fid, f, ch) == (eff, f') && !eff.Launch? && !eff.Track? && EffectOk(s.sh, fid, eff)
    ensures Reachable(c, q, i, s') && s' == State(Apply(s.sh, fid, eff), s.threads[fid := F(f')])
  {
    s' := State(Apply(s.sh, fid, eff), s.threads[fid := F(f')]);
    Steps(c, q, i, s, fid, ch, eff, F(f'), s');
  }

  lemma LocksAndChecks(c: Config, q: Answers, i: nat, s: State, fid: Tid, k: Key, e: nat) returns (s': State)
    requires Reachable(c, q, i, s) && Flying(s, fid, k, e, FLock) && Free(s.sh, c.stripe(k))
    requires At(s.sh.epoch, c.stripe(k)) == e
    requires s.sh.flights[fid].outcome.Fetched? && s.sh.flights[fid].outcome.exists_
    ensures Reachable(c, q, i, s') && s'.sh == s.sh.(mu := s.sh.mu[c.stripe(k) := fid])
    ensures s'.threads == s.threads[fid := F(Flier(FHot, k, e))]
  {
    var ch := Pick(0, {}, {});
    var s1 := FlierSteps(c, q, i, s, fid, Flier(FLock, k, e), ch, LockMu(c.stripe(k)), Flier(FCheck, k, e));
    s' := FlierSteps(c, q, i, s1, fid, Flier(FCheck, k, e), ch, Nop, Flier(FHot, k, e));
  }

  lemma Fetches(c: Config, q: Answers, i: nat, s: State, fid: Tid, k: Key, e: nat) returns (s': State)
    requires Reachable(c, q, i, s) && Flying(s, fid, k, e, FFetch)
    ensures Reachable(c, q, i, s') && s'.sh == s.sh.(flights := s.sh.flights[fid := Landed(s, fid, k)])
    ensures s'.threads == s.threads[fid := F(Flier(FLock, k, e))]
  {
    s' := FlierSteps(c, q, i, s, fid, Flier(FFetch, k, e), Pick(0, {}, {}),
                     FetchDone(Fetched(At(s.sh.origin, k), true)), Flier(FLock, k, e));
  }

  lemma FindsCold(c: Config, q: Answers, i: nat, s: State, fid: Tid, k: Key, e: nat) returns (s': State)
    requires Reachable(c, q, i, s) && Flying(s, fid, k, e, FHot) && k !in s.sh.hot && k in s.sh.tracked
    requires k !in s.sh.prot
    ensures Reachable(c, q, i, s') && s'.sh == s.sh && s'.threads == s.threads[fid := F(Flier(FColdStore, k, e))]
  {
    var ch := Pick(s.sh.now, {}, {});
    var s1 := FlierSteps(c, q, i, s, fid, Flier(FHot, k, e), ch, Nop, Flier(FColdDel, k, e));
    assert s.sh.prot - {k} == s.sh.prot;
    var s2 := FlierSteps(c, q, i, s1, fid, Flier(FColdDel, k, e), ch, DelProt(k), Flier(FColdTracked, k, e));
    s' := FlierSteps(c, q, i, s2, fid, Flier(FColdTracked, k, e), ch, Nop, Flier(FColdStore, k, e));
  }

  /** The key is not HOT: the value goes to probation, and the stripe is released. */
  lemma StoresCandidate(c: Config, q: Answers, i: nat, s: State, fid: Tid, k: Key, e: nat) returns (s': State)
    requires Reachable(c, q, i, s) && Caching(c, k) && Flying(s, fid, k, e, FColdStore)
    requires s.sh.flights[fid].outcome.Fetched?
    ensures Reachable(c, q, i, s') && k in s'.sh.prob && s'.sh.now < s'.sh.prob[k].expiresAt
    ensures s'.sh == s.sh.(prob := s'.sh.prob, mu := s.sh.mu - {c.stripe(k)})
    ensures s'.threads == s.threads[fid := F(Flier(FFinish, k, e))]
  {
    var ch := Pick(s.sh.now, {}, {});
    var entry := Refill(c, s.sh, fid, Flier(FColdStore, k, e), ch, true);
    var s1 := FlierSteps(c, q, i, s, fid, Flier(FColdStore, k, e), ch, PutProb(k, entry), Flier(FUnlock, k, e));
    s' := FlierSteps(c, q, i, s1, fid, Flier(FUnlock, k, e), ch, UnlockMu(c.stripe(k)), Flier(FFinish, k, e));
  }

  // ------------------------------------------------------------- the gap

  /** A refill of a HOT key is about to take its candidate; a read of the key is about
      to look into probation; the candidate is fresh and no flag is up. */
  ghost predicate Racing(c: Config, s: State, fid: Tid, r: Tid, k: Key, e: nat) {
    && Flying(s, fid, k, e, FHotDel) && Reading(s, r, k, Get, Probing(Probation)) && fid != r
    && k in s.sh.hot && k in s.sh.prob && k !in s.sh.prot && s.sh.now < s.sh.prob[k].expiresAt && s.sh.flag == {}
  }

  /** A run of reads, calm for k from state a on. */
  ghost predicate CalmReads(c: Config, q: Answers, i: nat, run: seq<State>, a: nat, k: Key) {
    run != [] && EndsIn(c, q, i, run, run[|run| - 1]) && a < |run| && CalmStretch(c, run, a, |run| - 1, k)
  }

  lemma CalmMore(c: Config, run: seq<State>, a: nat, s': State, k: Key)
    requires a < |run| && CalmStretch(c, run, a, |run| - 1, k)
    requires Unexpired(run[|run| - 1], k) && CalmNext(c, run[|run| - 1], s', k)
    ensures CalmStretch(c, run + [s'], a, |run|, k)
  {
    var longer := run + [s'];
    forall i {:trigger CalmStepAt(c, longer, i, k)} | a <= i < |run| ensures CalmStepAt(c, longer, i, k) {
      assert i < |run| - 1 ==> CalmStepAt(c, run, i, k);
    }
  }

  /** One more calm step of a GET, an MGET or a fetch. */
  lemma GoOn(c: Config, q: Answers, i: nat, run: seq<State>, a: nat, s: State, t: Tid, ch: Choice, eff: Effect,
             th: Thread, s': State, k: Key)
    requires CalmReads(c, q, i, run, a, k) && s == run[|run| - 1] && Unexpired(s, k)
    requires t in s.threads && Can(c, s.sh, t, s.threads[t], ch) && Move(c, s.sh, t, s.threads[t], ch) == (eff, th)
    requires !eff.Launch? && !eff.Track? && EffectOk(s.sh, t, eff) && CalmEffect(s, t, eff, k)
    requires s' == State(Apply(s.sh, t, eff), s.threads[t := th])
    ensures CalmReads(c, q, i, run + [s'], a, k)
  {
    assert s.threads[t := th] + map[] == s.threads[t := th];
    var l := Act(t, ch);
    assert Enabled(c, s, l) && s' == After(c, s, l) && Calm(c, s, l, k);
    PlainStep(c, q, i, s, l, s');
    OneMore(c, q, i, run, s, i, s');
    CalmMore(c, run, a, s', k);
  }

  /** The reader is at pc, and nothing else has changed. */
  ghost function Moved(s: State, r: Tid, pc: ReadPc): State
    requires r in s.threads && s.threads[r].R?
  {
    s.(threads := s.threads[r := R(s.threads[r].r.(pc := pc))])
  }

  /** The refill has taken the candidate, and nothing else has changed. */
  ghost function Taken(s: State, fid: Tid, k: Key, e: nat): State {
    State(s.sh.(prob := s.sh.prob - {k}), s.threads[fid := F(Flier(FHotStore, k, e))])
  }

  lemma ProbeOn(c: Config, q: Answers, i: nat, run: seq<State>, a: nat, s: State, t: Tid, p: ProbePc, pc: ReadPc,
                k: Key)
    returns (s': State)
    requires CalmReads(c, q, i, run, a, k) && s == run[|run| - 1] && Unexpired(s, k)
    requires t in s.threads && s.threads[t].R? && s.threads[t].r.pc == Probing(p) && s.threads[t].r.begun <= s.sh.now
    requires p !in {WaitLock, LockKey}
    requires ProbeMove(c, s.sh, s.threads[t].r, p, Pick(s.sh.now, {}, {})) == (Nop, s.threads[t].r.(pc := pc))
    ensures CalmReads(c, q, i, run + [s'], a, k) && s' == Moved(s, t, pc)
  {
    s' := Moved(s, t, pc);
    GoOn(c, q, i, run, a, s, t, Pick(s.sh.now, {}, {}), Nop, s'.threads[t], s', k);
  }

  lemma TakeOn(c: Config, q: Answers, i: nat, run: seq<State>, a: nat, s: State, fid: Tid, k: Key, e: nat)
    returns (s': State)
    requires CalmReads(c, q, i, run, a, k) && s == run[|run| - 1] && Unexpired(s, k) && Flying(s, fid, k, e, FHotDel)
    ensures CalmReads(c, q, i, run + [s'], a, k) && s' == Taken(s, fid, k, e)
  {
    var f, ch := Flier(FHotDel, k, e), Pick(0, {}, {});
    assert FlierMove(c, s.sh, fid, f, ch) == (DelProb(k), f.(pc := FHotStore));
    s' := Taken(s, fid, k, e);
    GoOn(c, q, i, run, a, s, fid, ch, DelProb(k), F(f.(pc := FHotStore)), s', k);
  }

  /** The candidate is gone, the key HOT, no flag up, and the read at this pc. */
  ghost predicate Gone(c: Config, s: State, r: Tid, k: Key, pc: ReadPc) {
    && c.probation && k in s.sh.hot && k !in s.sh.prob && k !in s.sh.prot && s.sh.flag == {}
    && Reading(s, r, k, Get, pc)
  }

  lemma ProbesTwice(c: Config, q: Answers, i: nat, run: seq<State>, a: nat, s: State, r: Tid, k: Key)
    returns (s2: State, s3: State)
    requires CalmReads(c, q, i, run, a, k) && s == run[|run| - 1] && Gone(c, s, r, k, Probing(Probation))
    ensures CalmReads(c, q, i, run + [s2] + [s3], a, k)
    ensures s2 == Moved(s, r, Probing(Recheck)) && s3 == Moved(s2, r, Probing(LoadFlag))
  {
    s2 := ProbeOn(c, q, i, run, a, s, r, Probation, Probing(Recheck), k);
    s3 := ProbeOn(c, q, i, run + [s2], a, s2, r, Recheck, Probing(LoadFlag), k);
  }

  lemma ProbesAgain(c: Config, q: Answers, i: nat, run: seq<State>, a: nat, s: State, r: Tid, k: Key)
    returns (s4: State, s5: State)
    requires CalmReads(c, q, i, run, a, k) && s == run[|run| - 1] && Gone(c, s, r, k, Probing(LoadFlag))
    ensures CalmReads(c, q, i, run + [s4] + [s5], a, k)
    ensures s4 == Moved(s, r, Probing(LastProbe)) && s5 == Moved(s4, r, Missing(Capture))
  {
    s4 := ProbeOn(c, q, i, run, a, s, r, LoadFlag, Probing(LastProbe), k);
    s5 := ProbeOn(c, q, i, run + [s4], a, s4, r, LastProbe, Missing(Capture), k);
  }

  /** The race is lost: the refill takes the candidate, then the read probes four times
      and misses. Nobody else steps, and nothing else changes. */
  ghost predicate LosesRace(c: Config, six: seq<State>, fid: Tid, r: Tid, k: Key, e: nat) {
    && |six| == 6 && Racing(c, six[0], fid, r, k, e)
    && six[1] == Taken(six[0], fid, k, e)
    && six[2] == Moved(six[1], r, Probing(Recheck))
    && six[3] == Moved(six[2], r, Probing(LoadFlag))
    && six[4] == Moved(six[3], r, Probing(LastProbe))
    && six[5] == Moved(six[4], r, Missing(Capture))
  }

  lemma TakesFirst(c: Config, q: Answers, i: nat, run: seq<State>, s: State, fid: Tid, r: Tid, k: Key, e: nat)
    returns (s1: State)
    requires EndsIn(c, q, i, run, s) && Racing(c, s, fid, r, k, e) && c.probation
    ensures CalmReads(c, q, i, run + [s1], |run| - 1, k) && s1 == Taken(s, fid, k, e)
    ensures Gone(c, s1, r, k, Probing(Probation))
  {
    s1 := TakeOn(c, q, i, run, |run| - 1, s, fid, k, e);
  }

  /** Once the race is on, it can be lost. */
  lemma Loses(c: Config, q: Answers, i: nat, run: seq<State>, s: State, fid: Tid, r: Tid, k: Key, e: nat)
    returns (six: seq<State>)
    requires EndsIn(c, q, i, run, s) && Racing(c, s, fid, r, k, e) && c.probation
    ensures LosesRace(c, six, fid, r, k, e) && six[0] == s && CalmReads(c, q, i, run + six[1..], |run| - 1, k)
  {
    var s1 := TakesFirst(c, q, i, run, s, fid, r, k, e);
    var s2, s3 := ProbesTwice(c, q, i, run + [s1], |run| - 1, s1, r, k);
    var s4, s5 := ProbesAgain(c, q, i, run + [s1] + [s2] + [s3], |run| - 1, s3, r, k);
    six := [s, s1, s2, s3, s4, s5];
    assert run + six[1..] == run + [s1] + [s2] + [s3] + [s4] + [s5];
  }

  // --------------------------------------------------------- reaching it

  ghost function Start(): State {
    State(Shared(map[], map[], map[], map[], map[], map[], {}, map[], map[], {}, {}, map[], 0,
                 History(map[], map[], map[], map[], map[])), map[])
  }

  lemma StartIsReachable(c: Config, q: Answers)
    requires Fits(q) && q.fs[0] == Heating.New(0)
    ensures Reachable(c, q, 0, Start())
  {
    assert IsReadRun(c, q, [Start()], [0]);
    assert EndsIn(c, q, 0, [Start()], Start());
  }

  /** The time of call i. */
  ghost function TimeOf(q: Answers, i: nat): int { if i < |q.calls| then q.calls[i].now else 0 }

  /** The tracker run observes k, and nothing else, n + 1 times, the first two at once; k is
      HOT after the last call, and not before. */
  ghost predicate Schedule(q: Answers, k: Key, n: nat) {
    && n >= 2 && Fits(q) && q.fs[0] == Heating.New(0) && TimeOf(q, 0) == 0 && TimeOf(q, 1) == 0
    && (forall i: nat :: i <= n ==> OnSchedule(q, k, n, i))
  }

  ghost predicate OnSchedule(q: Answers, k: Key, n: nat, i: nat) {
    && Asked(q, i, k, TimeOf(q, i), if i == n then {k} else {})
    && (i > 0 ==> TimeOf(q, i - 1) <= TimeOf(q, i))
  }

  lemma HeatsAsked(h: Model.Config, q: Answers, k: Key, n: nat, i: nat)
    requires Heating.Heats(h, k, q.fs, q.calls, q.rs, n) && i <= n
    ensures OnSchedule(q, k, n, i)
  {
    assert q.fs[i + 1].items.Keys == {k} && q.rs[i] == q.rs[i];
    assert i > 0 ==> Heating.InOrder(q.calls, i);
  }

  lemma HeatsIsSchedule(h: Model.Config, q: Answers, k: Key, n: nat)
    requires Heating.Heats(h, k, q.fs, q.calls, q.rs, n)
    ensures Schedule(q, k, n)
  {
    forall i: nat | i <= n ensures OnSchedule(q, k, n, i) {
      HeatsAsked(h, q, k, n, i);
    }
  }

  /** What the stages leave alone. */
  ghost predicate Quiet(s: State, k: Key) {
    && s.sh.prot == map[] && s.sh.flag == {} && s.sh.epoch == map[] && s.sh.mu == map[]
    && s.sh.hot <= {k} && 3 !in s.threads && 3 !in s.sh.pending
  }

  /** Both positions of MGET k k have begun. */
  lemma Begins(c: Config, q: Answers, k: Key) returns (s: State)
    requires Fits(q) && q.fs[0] == Heating.New(0)
    ensures Reachable(c, q, 0, s) && Quiet(s, k) && s.sh == Start().sh && s.threads.Keys == {1, 2}
    ensures Reading(s, 1, k, MGetMember, Observing) && Reading(s, 2, k, MGetMember, Observing)
  {
    StartIsReachable(c, q);
    var l := StartReads(map[1 := k, 2 := k], MGetMember);
    s := After(c, Start(), l);
    ReachNext(c, q, 0, Start(), l, s);
  }

  /** One position observes the key, misses, and asks for its fetch. */
  lemma FirstMiss(c: Config, q: Answers, i: nat, s: State, t: Tid, k: Key, fid: Tid) returns (s': State)
    requires Reachable(c, q, i, s) && Caching(c, k) && Quiet(s, k) && Reading(s, t, k, MGetMember, Observing)
    requires Asked(q, i, k, s.sh.now, {})
    requires s.sh.prob == map[] && s.sh.hot == {} && fid !in s.sh.flights && fid !in s.threads && fid != 3 && t != 3
    ensures Reachable(c, q, i + 1, s') && Quiet(s', k) && Flying(s', fid, k, 0, FFetch)
    ensures s'.sh == s.sh.(tracked := {k}, pending := s.sh.pending[t := []],
                           flights := s.sh.flights[fid := Flight(k, 0, Unfetched, false)])
    ensures t in s'.threads && s'.threads == s.threads[t := s'.threads[t]][fid := F(Flier(FFetch, k, 0))]
  {
    var s1 := Observed(c, q, i, s, t, k, MGetMember, {});
    s' := Launches(c, q, i + 1, s1, t, k, fid);
    TwoUpdates(s.threads, t, s1.threads[t], s'.threads[t], fid, F(Flier(FFetch, k, 0)));
  }

  lemma TwoUpdates(m: map<Tid, Thread>, t: Tid, x: Thread, y: Thread, u: Tid, z: Thread)
    requires t != u
    ensures m[t := x][t := y][u := z] == m[t := y][u := z] && m[t := y][u := z][t] == y
  {
  }

  /** The fetch has answered; the refill has not looked at the tiers yet. */
  ghost predicate Landing(s: State, fid: Tid, k: Key) {
    && Flying(s, fid, k, 0, FLock)
    && s.sh.flights[fid].outcome.Fetched? && s.sh.flights[fid].outcome.exists_
  }

  /** Thread identifiers from n on, and 3, have not been used. */
  ghost predicate Unused(s: State, n: nat) {
    && (forall t :: t in s.threads ==> t < n)
    && (forall t :: t in s.sh.pending ==> t < n)
  }

  /** Both positions of the MGET have missed and have their values; i observations of the
      key have been made, and it is not HOT yet. */
  ghost predicate Waiting(s: State, k: Key, i: nat) {
    && Quiet(s, k) && Unused(s, 20 + i) && Landing(s, 11, k) && Landing(s, 12, k)
    && s.sh.prob == map[] && s.sh.hot == {} && s.sh.tracked == {k}
  }

  lemma BothMiss(c: Config, q: Answers, k: Key) returns (s: State)
    requires Caching(c, k) && Fits(q) && q.fs[0] == Heating.New(0) && Asked(q, 0, k, 0, {}) && Asked(q, 1, k, 0, {})
    ensures Reachable(c, q, 2, s) && Quiet(s, k) && s.sh.prob == map[] && s.sh.hot == {} && s.sh.tracked == {k}
    ensures s.sh.now == 0 && Unused(s, 22) && Flying(s, 11, k, 0, FFetch) && Flying(s, 12, k, 0, FFetch)
  {
    var s1 := Begins(c, q, k);
    var s2 := FirstMiss(c, q, 0, s1, 1, k, 11);
    s := FirstMiss(c, q, 1, s2, 2, k, 12);
  }

  /** The one upstream call of the MGET answers for both positions. */
  lemma BothFetch(c: Config, q: Answers, k: Key) returns (s: State)
    requires Caching(c, k) && Fits(q) && q.fs[0] == Heating.New(0) && Asked(q, 0, k, 0, {}) && Asked(q, 1, k, 0, {})
    ensures Reachable(c, q, 2, s) && Waiting(s, k, 2) && s.sh.now == 0
  {
    var s1 := BothMiss(c, q, k);
    var s2 := Fetches(c, q, 2, s1, 11, k, 0);
    s := Fetches(c, q, 2, s2, 12, k, 0);
  }

  lemma Ticks(c: Config, q: Answers, i: nat, s: State, to: int) returns (s': State)
    requires Reachable(c, q, i, s) && s.sh.now <= to
    ensures Reachable(c, q, i, s') && s' == s.(sh := s.sh.(now := to))
  {
    s' := s.(sh := s.sh.(now := to));
    ReachNext(c, q, i, s, Tick(to), s');
  }

  lemma OneStarts(s: State, t: Tid, k: Key)
    ensures s.threads + (map u | u in map[t := k] :: NewRead(s.sh, map[t := k][u], Get))
        == s.threads[t := NewRead(s.sh, k, Get)]
  {
  }

  lemma GetBegins(c: Config, q: Answers, i: nat, s: State, t: Tid, k: Key) returns (s': State)
    requires Reachable(c, q, i, s) && t !in s.threads && t !in s.sh.pending
    ensures Reachable(c, q, i, s') && s'.sh == s.sh && Reading(s', t, k, Get, Observing)
    ensures s'.threads == s.threads[t := s'.threads[t]]
  {
    var ops := map[t := k];
    var l := StartReads(ops, Get);
    assert |ops| == 1;
    s' := State(s.sh, s.threads[t := NewRead(s.sh, k, Get)]);
    OneStarts(s, t, k);
    ReachNext(c, q, i, s, l, s');
  }

  /** Another GET observes the key, and gets no further. */
  lemma OneObserves(c: Config, q: Answers, i: nat, s: State, k: Key, now: int) returns (s': State)
    requires Reachable(c, q, i, s) && Caching(c, k) && Waiting(s, k, i) && s.sh.now <= now && Asked(q, i, k, now, {})
    ensures Reachable(c, q, i + 1, s') && Waiting(s', k, i + 1) && s'.sh.now == now
  {
    var s1 := Ticks(c, q, i, s, now);
    var s2 := GetBegins(c, q, i, s1, 20 + i, k);
    s' := Observes(c, q, i, s2, 20 + i, k, Get, {});
    StillWaiting(s, s1, s2, s', k, i);
  }

  lemma StillWaiting(s: State, s1: State, s2: State, s': State, k: Key, i: nat)
    requires Waiting(s, k, i) && s1 == s.(sh := s.sh.(now := s1.sh.now))
    requires 20 + i in s2.threads && s2.threads == s1.threads[20 + i := s2.threads[20 + i]] && s2.sh == s1.sh
    requires s'.sh == s2.sh.(hot := {}, tracked := {k}, pending := s2.sh.pending[20 + i := []])
    requires 20 + i in s'.threads && s'.threads == s2.threads[20 + i := s'.threads[20 + i]]
    ensures Waiting(s', k, i + 1)
  {
  }

  /** All observations but the last have been made. */
  lemma {:induction false} AlmostHot(c: Config, q: Answers, k: Key, n: nat, i: nat) returns (s: State)
    requires Caching(c, k) && Schedule(q, k, n) && 2 <= i <= n
    ensures Reachable(c, q, i, s) && Waiting(s, k, i) && s.sh.now == TimeOf(q, i - 1)
    decreases i
  {
    if i == 2 {
      assert OnSchedule(q, k, n, 0) && OnSchedule(q, k, n, 1);
      s := BothFetch(c, q, k);
    } else {
      assert OnSchedule(q, k, n, i - 1);
      var s1 := AlmostHot(c, q, k, n, i - 1);
      s := OneObserves(c, q, i - 1, s1, k, TimeOf(q, i - 1));
    }
  }

  /** The first position stores a candidate. */
  lemma CandidateStored(c: Config, q: Answers, i: nat, s: State, k: Key) returns (s': State)
    requires Reachable(c, q, i, s) && Caching(c, k) && Waiting(s, k, i)
    ensures Reachable(c, q, i, s') && Quiet(s', k) && s'.sh.hot == {} && s'.sh.now == s.sh.now
    ensures k in s'.sh.prob && s'.sh.now < s'.sh.prob[k].expiresAt && Landing(s', 12, k)
  {
    var s1 := LocksAndChecks(c, q, i, s, 11, k, 0);
    var s2 := FindsCold(c, q, i, s1, 11, k, 0);
    s' := StoresCandidate(c, q, i, s2, 11, k, 0);
    assert s'.sh.mu == map[];
  }

  lemma ObservesHot(c: Config, q: Answers, i: nat, s: State, k: Key) returns (s': State)
    requires Reachable(c, q, i, s) && Caching(c, k) && Reading(s, 3, k, Get, Observing)
    requires Asked(q, i, k, s.sh.now, {k}) && s.sh.hot == {} && s.sh.prot == map[]
    ensures Reachable(c, q, i + 1, s') && Reading(s', 3, k, Get, Probing(Probation))
    ensures s'.sh == s.sh.(hot := {k}, tracked := {k}, pending := s.sh.pending[3 := []])
    ensures s'.threads == s.threads[3 := s'.threads[3]]
  {
    var s1 := Observed(c, q, i, s, 3, k, Get, {k});
    s' := Probes(c, q, i + 1, s1, 3, s1.threads[3].r, Protected, Probing(Probation));
  }

  /** A GET of the key begins, makes it HOT, and misses the protected tier. */
  lemma ThirdReads(c: Config, q: Answers, i: nat, s: State, k: Key) returns (s': State)
    requires Reachable(c, q, i, s) && Caching(c, k) && Quiet(s, k) && s.sh.hot == {} && Landing(s, 12, k)
    requires Asked(q, i, k, s.sh.now, {k})
    ensures Reachable(c, q, i + 1, s') && Reading(s', 3, k, Get, Probing(Probation)) && Landing(s', 12, k)
    ensures s'.sh == s.sh.(hot := {k}, tracked := {k}, pending := s.sh.pending[3 := []])
  {
    var s1 := GetBegins(c, q, i, s, 3, k);
    s' := ObservesHot(c, q, i, s1, k);
  }

  /** The second position finds the key HOT. */
  lemma RaceFollows(c: Config, q: Answers, i: nat, s: State, k: Key) returns (s': State)
    requires Reachable(c, q, i, s) && Reading(s, 3, k, Get, Probing(Probation)) && Landing(s, 12, k)
    requires s.sh.epoch == map[] && s.sh.mu == map[] && s.sh.prot == map[] && s.sh.flag == {} && k in s.sh.hot
    requires k in s.sh.prob && s.sh.now < s.sh.prob[k].expiresAt
    ensures Reachable(c, q, i, s') && Racing(c, s', 12, 3, k, 0)
  {
    var s1 := LocksAndChecks(c, q, i, s, 12, k, 0);
    s' := FlierSteps(c, q, i, s1, 12, Flier(FHot, k, 0), Pick(0, {}, {}), Nop, Flier(FHotDel, k, 0));
  }

  /** The candidate is stored, then the key becomes HOT, then the second position refills. */
  lemma StoredThenHot(c: Config, q: Answers, i: nat, s: State, k: Key) returns (s': State)
    requires Reachable(c, q, i, s) && Caching(c, k) && Waiting(s, k, i) && Asked(q, i, k, s.sh.now, {k})
    ensures Reachable(c, q, i + 1, s') && Racing(c, s', 12, 3, k, 0)
  {
    var s1 := CandidateStored(c, q, i, s, k);
    var s2 := ThirdReads(c, q, i, s1, k);
    s' := RaceFollows(c, q, i + 1, s2, k);
  }

  /** The race is on, somewhere in a run of reads. */
  lemma RaceBegins(c: Config, q: Answers, k: Key, n: nat) returns (s: State)
    requires Caching(c, k) && Schedule(q, k, n)
    ensures Reachable(c, q, n + 1, s) && Racing(c, s, 12, 3, k, 0)
  {
    var s0 := AlmostHot(c, q, k, n, n);
    assert OnSchedule(q, k, n, n);
    var s1 := Ticks(c, q, n, s0, TimeOf(q, n));
    s := StoredThenHot(c, q, n, s1, k);
  }

  /** The lost race, seen as a hand-off. */
  lemma LostInGap(c: Config, run: seq<State>, a: nat, six: seq<State>, fid: Tid, r: Tid, k: Key, e: nat)
    requires LosesRace(c, six, fid, r, k, e) && |run| == a + 6 && run[a..] == six
    ensures Looking(run[a], r, k) && Present(run[a], k) && MoversHot(run[a], k)
    ensures HitGap(run, a, a + 5, r, k) && !NotMissed(run[a + 5], r)
  {
    assert run[a] == six[0] && run[a + 4] == six[4] && run[a + 5] == six[5];
    assert RefillCarries(six[4], fid, k);
    assert ProbesInGap(run, a + 4, r, k);
  }

  lemma LosingRun(c: Config, q: Answers, k: Key, n: nat) returns (run: seq<State>, a: nat)
    requires Caching(c, k) && Schedule(q, k, n)
    ensures CalmReads(c, q, n + 1, run, a, k) && |run| == a + 6 && LosesRace(c, run[a..], 12, 3, k, 0)
  {
    var s := RaceBegins(c, q, k, n);
    var before :| EndsIn(c, q, n + 1, before, s);
    a := |before| - 1;
    var six := Loses(c, q, n + 1, before, s, 12, 3, k, 0);
    run := before + six[1..];
    assert run[a..] == six;
  }

  /** The gap is reachable: under every configuration that caches the key, and with every
      valid tracker. The tracker run q observes the key until it is HOT; the service run
      makes exactly these calls, at these times, and gets these answers. It consists of
      reads and the clock only. At its state a a GET looks for the key while its only copy
      is fresh in probation and the key HOT; it misses, because a refill takes the copy
      just before the last probe. No step from a on is anyone else's, or other than
      calm. */
  lemma RefillGap(c: Config, h: Model.Config, k: Key) returns (run: seq<State>, made: seq<nat>, q: Answers, a: nat)
    requires Caching(c, k) && Model.ValidConfig(h) && Calls.Trackable(k)
    ensures Calls.IsCallRun(h, q.fs, q.calls, q.rs) && IsReadRun(c, q, run, made) && made[|run| - 1] == |q.calls|
    ensures IsRun(c, run) && |run| == a + 6 && LosesRace(c, run[a..], 12, 3, k, 0)
    ensures Looking(run[a], 3, k) && Present(run[a], k) && MoversHot(run[a], k)
    ensures CalmStretch(c, run, a, a + 5, k) && HitGap(run, a, a + 5, 3, k) && !NotMissed(run[a + 5], 3)
  {
    var fs, calls, rs, n := Heating.HeatingRun(h, k);
    q := Answers(fs, calls, rs);
    HeatsIsSchedule(h, q, k, n);
    run, a := LosingRun(c, q, k, n);
    made :| IsReadRun(c, q, run, made) && made[|run| - 1] == n + 1;
    ReadRunIsRun(c, q, run, made);
    LostInGap(c, run, a, run[a..], 12, 3, k, 0);
  }
}
