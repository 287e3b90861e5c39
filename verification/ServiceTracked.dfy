/** Runs of reads in which the tracker's answers are those of the tracker itself, call by
    call (module HotnessCalls), instead of anything the service has to cope with. */
module ServiceTracked {
  import opened ServiceState
  import opened ServiceSteps
  import Log = HotnessLog
  import Calls = HotnessCalls
  import Heating = HotnessHeating

  /** A run of tracker calls: the fields before each and after the last, and the replies. */
  datatype Answers = Answers(fs: seq<Calls.Fields>, calls: seq<Calls.Call>, rs: seq<Calls.Reply>)

  ghost predicate Fits(p: Answers) { |p.rs| == |p.calls| && |p.fs| == |p.calls| + 1 }

  /** The HOT keys and the tracked keys after i calls. */
  ghost function HotAt(p: Answers, i: nat): set<Key>
    requires i < |p.fs|
  {
    Log.HotKeys(p.fs[i].items)
  }

  ghost function TrackedAt(p: Answers, i: nat): set<Key>
    requires i < |p.fs|
  {
    p.fs[i].items.Keys
  }

  /** The call a reader makes that is about to ask the tracker. */
  ghost function CallOf(r: Reader, now: int): Calls.Call {
    if !r.pc.Observing? then Calls.CallAdmit(r.key, now)
    else if r.kind == Admin then Calls.CallAdvance(now)
    else Calls.CallObserve(r.key, now)
  }

  /** The effect of call i of the tracker run. */
  ghost function Answer(p: Answers, i: nat): Effect
    requires Fits(p) && i < |p.calls|
  {
    Track(HotAt(p, i + 1), TrackedAt(p, i + 1), Calls.Demoted(Calls.Transitions(p.rs[i])))
  }

  /** A step that asks the tracker makes the next call of the tracker run, now, and gets
      that call's answer; other steps make none. i and j count the calls made. */
  ghost predicate Answered(c: Config, p: Answers, s: State, l: Label, i: nat, j: nat)
    requires Fits(p) && Enabled(c, s, l)
  {
    if l.Act? && Move(c, s.sh, l.t, s.threads[l.t], l.ch).0.Track? then
      && j == i + 1 && i < |p.calls| && s.threads[l.t].R?
      && p.calls[i] == CallOf(s.threads[l.t].r, s.sh.now)
      && Move(c, s.sh, l.t, s.threads[l.t], l.ch).0 == Answer(p, i)
    else j == i
  }

  /** One step of a GET, an MGET or a fetch, the start of a GET or MGET, or the clock. */
  ghost predicate ReadStep(c: Config, p: Answers, s: State, i: nat, s': State, j: nat)
    requires Fits(p)
  {
    exists l: Label ::
      (l.Act? || l.StartReads? || l.Tick?) && Enabled(c, s, l) && s' == After(c, s, l) && Answered(c, p, s, l, i, j)
  }

  /** A run of reads and the clock, on a new tracker; made[n] is the number of tracker
      calls made by state n. */
  ghost predicate IsReadRun(c: Config, p: Answers, run: seq<State>, made: seq<nat>) {
    && Fits(p) && run != [] && |made| == |run|
    && Init(run[0]) && made[0] == 0 && p.fs[0] == Heating.New(run[0].sh.now)
    && forall n :: 0 <= n < |run| - 1 ==> ReadStep(c, p, run[n], made[n], run[n + 1], made[n + 1])
  }

  lemma ReadRunIsRun(c: Config, p: Answers, run: seq<State>, made: seq<nat>)
    requires IsReadRun(c, p, run, made)
    ensures IsRun(c, run)
  {
    forall n | 0 <= n < |run| - 1 ensures StepAt(c, run, n) {
      assert ReadStep(c, p, run[n], made[n], run[n + 1], made[n + 1]);
    }
  }

  lemma Extend(c: Config, p: Answers, run: seq<State>, made: seq<nat>, s': State, j: nat)
    requires IsReadRun(c, p, run, made) && ReadStep(c, p, run[|run| - 1], made[|run| - 1], s', j)
    ensures IsReadRun(c, p, run + [s'], made + [j])
  {
    var longer, more := run + [s'], made + [j];
    forall n | 0 <= n < |longer| - 1 ensures ReadStep(c, p, longer[n], more[n], longer[n + 1], more[n + 1]) {
      if n < |run| - 1 {
        assert ReadStep(c, p, run[n], made[n], run[n + 1], made[n + 1]);
      }
    }
  }

  lemma KeepsTracker(sh: Shared, me: Tid, eff: Effect)
    requires EffectOk(sh, me, eff) && !eff.Track?
    ensures Apply(sh, me, eff).hot == sh.hot && Apply(sh, me, eff).tracked == sh.tracked
  {
  }

  lemma EffectAnswers(p: Answers, sh: Shared, me: Tid, eff: Effect, i: nat, j: nat)
    requires Fits(p) && i < |p.fs| && EffectOk(sh, me, eff) && sh.hot == HotAt(p, i) && sh.tracked == TrackedAt(p, i)
    requires if eff.Track? then j == i + 1 && i < |p.calls| && eff == Answer(p, i) else j == i
    ensures j < |p.fs|
    ensures Apply(sh, me, eff).hot == HotAt(p, j) && Apply(sh, me, eff).tracked == TrackedAt(p, j)
  {
    if !eff.Track? {
      KeepsTracker(sh, me, eff);
    }
  }

  lemma LabelAnswers(c: Config, p: Answers, s: State, l: Label, i: nat, j: nat)
    requires Fits(p) && Enabled(c, s, l) && Answered(c, p, s, l, i, j) && i < |p.fs|
    requires l.Act? || l.StartReads? || l.Tick?
    requires s.sh.hot == HotAt(p, i) && s.sh.tracked == TrackedAt(p, i)
    ensures j < |p.fs| && After(c, s, l).sh.hot == HotAt(p, j) && After(c, s, l).sh.tracked == TrackedAt(p, j)
  {
    if l.Act? {
      EffectAnswers(p, s.sh, l.t, Move(c, s.sh, l.t, s.threads[l.t], l.ch).0, i, j);
    }
  }

  lemma StepAnswers(c: Config, p: Answers, s: State, i: nat, s': State, j: nat)
    requires Fits(p) && ReadStep(c, p, s, i, s', j) && i < |p.fs|
    requires s.sh.hot == HotAt(p, i) && s.sh.tracked == TrackedAt(p, i)
    ensures j < |p.fs| && s'.sh.hot == HotAt(p, j) && s'.sh.tracked == TrackedAt(p, j)
  {
    var l: Label :| (l.Act? || l.StartReads? || l.Tick?) && Enabled(c, s, l) && s' == After(c, s, l)
      && Answered(c, p, s, l, i, j);
    LabelAnswers(c, p, s, l, i, j);
  }

  /** In such a run the service's HOT and tracked keys are always the tracker's. */
  lemma {:induction false} AnswersAreTrackers(c: Config, p: Answers, run: seq<State>, made: seq<nat>, n: nat)
    requires IsReadRun(c, p, run, made) && n < |run|
    ensures made[n] < |p.fs| && run[n].sh.hot == HotAt(p, made[n]) && run[n].sh.tracked == TrackedAt(p, made[n])
  {
    if n > 0 {
      AnswersAreTrackers(c, p, run, made, n - 1);
      assert ReadStep(c, p, run[n - 1], made[n - 1], run[n], made[n]);
      StepAnswers(c, p, run[n - 1], made[n - 1], run[n], made[n]);
    } else {
      assert HotAt(p, 0) == {};
    }
  }
}
