/** drain.go and the handler life cycle of server.go as a step system: any number
    of handlers, connections and drain starters, one atomic effect per step. */
module DrainProtocol {

  datatype Begin = Load | Add | Check | Rollback | RelockAfterRollback
  datatype Handle = Running | PrepareLoad | PrepareLock | PrepareCheck | PrepareDecrement | PrepareRelease
                  | CloseConn | CompleteLock | CompleteCheck | CompleteDecrement
  datatype Accept = AcceptLock | AcceptCheck | AcceptInsert
  datatype Lifecycle = ClosedLock | ClosedRemove | StopLock | StopSwap
  datatype Signal = SignalLoad | SignalClose | Unlock

  /** Where a thread is: admitting a handler, handling and finishing a command,
      accepting a connection, noting a closed connection or stopping admission,
      signalling and unlocking. */
  datatype Pc = AtBegin(b: Begin) | AtHandle(h: Handle) | AtAccept(a: Accept) | AtLifecycle(l: Lifecycle)
              | AtSignal(g: Signal) | Over | Panicked

  datatype Thread = Thread(pc: Pc, conn: nat)

  datatype Holder = Free | By(t: nat)

  /** `started` counts the closes of the started channel. The three sets say which
      threads hold a reservation, owe a signal, or have decided to close drained. */
  datatype Shared = Shared(
    draining: bool, started: nat, active: int, conns: set<nat>, drained: bool, mu: Holder,
    reserved: set<nat>, owing: set<nat>, closing: set<nat>)

  datatype State = State(sh: Shared, threads: seq<Thread>)

  // -------------------------------------------------------------------- steps

  predicate Can(sh: Shared, pc: Pc) {
    && !pc.Over? && !pc.Panicked?
    && (Locks(pc) ==> sh.mu == Free)
  }

  /** The next step takes the mutex. */
  predicate Locks(pc: Pc) {
    || pc in {AtBegin(RelockAfterRollback), AtHandle(PrepareLock), AtHandle(CompleteLock)}
    || pc in {AtAccept(AcceptLock), AtLifecycle(ClosedLock), AtLifecycle(StopLock)}
  }

  /** drain.go decrementActiveHandler. */
  function Decrement(sh: Shared, t: nat, next: Pc): (Shared, Pc) {
    if sh.active - 1 < 0 then (sh, Panicked) else (sh.(active := sh.active - 1, reserved := sh.reserved - {t}), next)
  }

  /** drain.go beginHandler. */
  function BeginMove(sh: Shared, t: nat, b: Begin): (Shared, Pc) {
    match b
    case Load => (sh, if sh.draining then Over else AtBegin(Add))
    case Add =>
      if sh.active + 1 <= 0 then (sh, Panicked)
      else (sh.(active := sh.active + 1, reserved := sh.reserved + {t}), AtBegin(Check))
    case Check => (sh, if sh.draining then AtBegin(Rollback) else AtHandle(Running))
    case Rollback =>
      var (sh', next) := Decrement(sh, t, AtBegin(RelockAfterRollback));
      (sh'.(owing := sh'.owing + {t}), next)
    case RelockAfterRollback => (sh.(mu := By(t)), AtSignal(SignalLoad))
  }

  /** drain.go prepareHandlerDone and completeDrainingHandler, server.go finishHandler. */
  function HandleMove(sh: Shared, t: nat, h: Handle): (Shared, Pc) {
    match h
    case Running => (sh, AtHandle(PrepareLoad))
    case PrepareLoad => (sh, AtHandle(if sh.draining then CloseConn else PrepareLock))
    case PrepareLock => (sh.(mu := By(t)), AtHandle(PrepareCheck))
    case PrepareCheck => (sh, AtHandle(if sh.draining then PrepareRelease else PrepareDecrement))
    case PrepareDecrement => Decrement(sh, t, AtSignal(Unlock))
    case PrepareRelease => (sh.(mu := Free), AtHandle(CloseConn))
    case CloseConn => (sh, AtHandle(CompleteLock))
    case CompleteLock => (sh.(mu := By(t)), AtHandle(CompleteCheck))
    case CompleteCheck => (sh, if sh.draining then AtHandle(CompleteDecrement) else Panicked)
    case CompleteDecrement =>
      var (sh', next) := Decrement(sh, t, AtSignal(SignalLoad));
      (sh'.(owing := sh'.owing + {t}), next)
  }

  /** drain.go accept; `refuse` stands for a failure to set the deadline. */
  function AcceptMove(maxConnections: int, sh: Shared, t: nat, a: Accept, conn: nat, refuse: bool): (Shared, Pc) {
    match a
    case AcceptLock => (sh.(mu := By(t)), AtAccept(AcceptCheck))
    case AcceptCheck =>
      (sh, if sh.draining || |sh.conns| >= maxConnections || refuse then AtSignal(Unlock) else AtAccept(AcceptInsert))
    case AcceptInsert => (sh.(conns := sh.conns + {conn}), AtSignal(Unlock))
  }

  /** drain.go connectionClosed, stopAdmission, and the start of beginDrain. */
  function LifecycleMove(sh: Shared, t: nat, l: Lifecycle, conn: nat): (Shared, Pc) {
    match l
    case ClosedLock => (sh.(mu := By(t)), AtLifecycle(ClosedRemove))
    case ClosedRemove => (sh.(conns := sh.conns - {conn}, owing := sh.owing + {t}), AtSignal(SignalLoad))
    case StopLock => (sh.(mu := By(t)), AtLifecycle(StopSwap))
    case StopSwap =>
      (sh.(draining := true, started := if sh.draining then sh.started else sh.started + 1, owing := sh.owing + {t}),
       AtSignal(SignalLoad))
  }

  /** drain.go signalDrainedLocked: the counter may change between load and close. */
  function SignalMove(sh: Shared, t: nat, g: Signal): (Shared, Pc) {
    match g
    case SignalLoad =>
      if sh.draining && sh.active == 0 && |sh.conns| == 0 then (sh.(closing := sh.closing + {t}), AtSignal(SignalClose))
      else (sh.(owing := sh.owing - {t}), AtSignal(Unlock))
    case SignalClose => (sh.(drained := true, closing := sh.closing - {t}, owing := sh.owing - {t}), AtSignal(Unlock))
    case Unlock => (sh.(mu := Free), Over)
  }

  function Move(maxConnections: int, sh: Shared, t: nat, th: Thread, refuse: bool): (Shared, Pc)
    requires Can(sh, th.pc)
  {
    match th.pc
    case AtBegin(b) => BeginMove(sh, t, b)
    case AtHandle(h) => HandleMove(sh, t, h)
    case AtAccept(a) => AcceptMove(maxConnections, sh, t, a, th.conn, refuse)
    case AtLifecycle(l) => LifecycleMove(sh, t, l, th.conn)
    case AtSignal(g) => SignalMove(sh, t, g)
  }

  /** A command is dispatched, a connection arrives or ends, a drain is started. */
  predicate Arrival(pc: Pc) {
    pc in {AtBegin(Load), AtAccept(AcceptLock), AtLifecycle(ClosedLock), AtLifecycle(StopLock)}
  }

  datatype Step = Act(t: nat, refuse: bool) | Arrive(thread: Thread)

  predicate Enabled(s: State, step: Step) {
    match step
    case Act(t, _) => t < |s.threads| && Can(s.sh, s.threads[t].pc)
    case Arrive(thread) => Arrival(thread.pc)
  }

  function After(maxConnections: int, s: State, step: Step): State
    requires Enabled(s, step)
  {
    match step
    case Act(t, refuse) =>
      var (sh, pc) := Move(maxConnections, s.sh, t, s.threads[t], refuse);
      State(sh, s.threads[t := s.threads[t].(pc := pc)])
    case Arrive(thread) => State(s.sh, s.threads + [thread])
  }

  function Init(): State { State(Shared(false, 0, 0, {}, false, Free, {}, {}, {}), []) }

  predicate StepAt(maxConnections: int, run: nat -> State, steps: nat -> Step, n: nat) {
    Enabled(run(n), steps(n)) && run(n + 1) == After(maxConnections, run(n), steps(n))
  }

  /** A run: states and the steps between them, from the initial state. */
  ghost predicate IsRun(maxConnections: int, run: nat -> State, steps: nat -> Step) {
    run(0) == Init() && forall n: nat :: StepAt(maxConnections, run, steps, n)
  }

  // ---------------------------------------------------------------- invariant

  /** The thread counts in `active`. */
  predicate Reserved(pc: Pc) { pc in {AtBegin(Check), AtBegin(Rollback)} || pc.AtHandle? }

  /** The thread is an admitted handler that has not completed. */
  predicate Admitted(pc: Pc) { pc.AtHandle? }

  /** The thread has rolled back a reservation, completed, seen a connection close or
      started the drain, and has not yet looked at the counts and signalled. */
  predicate Owes(pc: Pc) { pc in {AtBegin(RelockAfterRollback), AtSignal(SignalLoad), AtSignal(SignalClose)} }

  predicate HoldsMu(pc: Pc) {
    || pc in {AtHandle(PrepareCheck), AtHandle(PrepareDecrement), AtHandle(PrepareRelease), AtHandle(CompleteCheck),
              AtHandle(CompleteDecrement)}
    || pc in {AtAccept(AcceptCheck), AtAccept(AcceptInsert), AtLifecycle(ClosedRemove), AtLifecycle(StopSwap)}
    || pc.AtSignal?
  }

  /** Only a drain brings a thread here. */
  predicate Draining(pc: Pc) {
    pc in {AtBegin(Rollback), AtBegin(RelockAfterRollback), AtHandle(PrepareRelease), AtHandle(CloseConn),
           AtHandle(CompleteLock), AtHandle(CompleteCheck), AtHandle(CompleteDecrement), AtSignal(SignalClose)}
  }

  predicate ThreadInv(max: int, sh: Shared, t: nat, pc: Pc) {
    && !pc.Panicked?
    && (t in sh.reserved <==> Reserved(pc))
    && (sh.mu == By(t) <==> HoldsMu(pc))
    && (t in sh.owing <==> Owes(pc))
    && (t in sh.closing <==> pc == AtSignal(SignalClose))
    && (Draining(pc) ==> sh.draining)
    && (pc == AtHandle(PrepareDecrement) ==> !sh.draining)
    && (pc == AtAccept(AcceptInsert) ==> !sh.draining && |sh.conns| < max)
    && (Admitted(pc) ==> !sh.drained && sh.closing == {})
  }

  predicate SharedInv(max: int, sh: Shared) {
    && sh.active == |sh.reserved|
    && sh.started == (if sh.draining then 1 else 0)
    && (sh.conns == {} || |sh.conns| <= max)
    && (sh.drained || sh.closing != {} ==> sh.draining && sh.conns == {})
    && (sh.draining && sh.active == 0 && sh.conns == {} ==> sh.drained || sh.owing != {})
  }

  /** What a step of thread t may do to the others. */
  ghost predicate Guard(sh: Shared, sh': Shared, t: nat) {
    && (forall u :: u != t ==> (u in sh'.reserved <==> u in sh.reserved))
    && (forall u :: u != t ==> (u in sh'.owing <==> u in sh.owing))
    && (forall u :: u != t ==> (u in sh'.closing <==> u in sh.closing))
    && (sh'.mu == sh.mu || (sh.mu == Free && sh'.mu == By(t)) || (sh.mu == By(t) && sh'.mu == Free))
    && (sh.draining ==> sh'.draining) && (sh.drained ==> sh'.drained)
    && (sh'.draining != sh.draining || sh'.conns != sh.conns ==> sh.mu == By(t))
    && (sh'.drained ==> sh.drained || sh.closing != {})
    && (sh'.closing != {} ==> sh.closing != {} || sh.reserved == {})
  }

  lemma OthersKeep(max: int, sh: Shared, sh': Shared, t: nat, u: nat, pc: Pc)
    requires Guard(sh, sh', t) && u != t && ThreadInv(max, sh, u, pc)
    ensures ThreadInv(max, sh', u, pc)
  {
  }

  /** A step keeps the invariant of the state and of the thread itself. */
  ghost predicate Keeps(max: int, sh: Shared, sh': Shared, t: nat, pc: Pc) {
    Guard(sh, sh', t) && SharedInv(max, sh') && ThreadInv(max, sh', t, pc)
  }

  /** A reservation is taken: the counter is the number of reservations again. */
  lemma AddKeeps(max: int, sh: Shared, t: nat, sh': Shared, pc: Pc)
    requires SharedInv(max, sh) && ThreadInv(max, sh, t, AtBegin(Add)) && BeginMove(sh, t, Add) == (sh', pc)
    ensures Keeps(max, sh, sh', t, pc)
  {
    assert |sh.reserved + {t}| == |sh.reserved| + 1;
  }

  lemma Taken(reserved: set<nat>, t: nat)
    requires t in reserved
    ensures |reserved - {t}| == |reserved| - 1
  {
  }

  /** A reservation is given back; whoever does owes a signal. */
  lemma DecrementKeeps(max: int, sh: Shared, t: nat, pc: Pc, next: Pc, sh': Shared, pc': Pc)
    requires SharedInv(max, sh) && ThreadInv(max, sh, t, pc) && pc in {AtBegin(Rollback), AtHandle(CompleteDecrement)}
    requires next == (if pc.AtBegin? then AtBegin(RelockAfterRollback) else AtSignal(SignalLoad))
    requires var d := Decrement(sh, t, next); sh' == d.0.(owing := d.0.owing + {t}) && pc' == d.1
    ensures Keeps(max, sh, sh', t, pc')
  {
    Taken(sh.reserved, t);
  }

  lemma BeginKeeps(max: int, sh: Shared, t: nat, b: Begin, sh': Shared, pc: Pc)
    requires Can(sh, AtBegin(b)) && SharedInv(max, sh) && ThreadInv(max, sh, t, AtBegin(b))
    requires BeginMove(sh, t, b) == (sh', pc)
    ensures Keeps(max, sh, sh', t, pc)
  {
    if b == Add {
      AddKeeps(max, sh, t, sh', pc);
    } else if b == Rollback {
      DecrementKeeps(max, sh, t, AtBegin(b), AtBegin(RelockAfterRollback), sh', pc);
    }
  }

  lemma HandleKeeps(max: int, sh: Shared, t: nat, h: Handle, sh': Shared, pc: Pc)
    requires Can(sh, AtHandle(h)) && SharedInv(max, sh) && ThreadInv(max, sh, t, AtHandle(h))
    requires HandleMove(sh, t, h) == (sh', pc)
    ensures Keeps(max, sh, sh', t, pc)
  {
    if h == CompleteDecrement {
      DecrementKeeps(max, sh, t, AtHandle(h), AtSignal(SignalLoad), sh', pc);
    } else if h == PrepareDecrement {
      Taken(sh.reserved, t);
    }
  }

  lemma AcceptKeeps(max: int, sh: Shared, t: nat, a: Accept, conn: nat, refuse: bool, sh': Shared, pc: Pc)
    requires Can(sh, AtAccept(a)) && SharedInv(max, sh) && ThreadInv(max, sh, t, AtAccept(a))
    requires AcceptMove(max, sh, t, a, conn, refuse) == (sh', pc)
    ensures Keeps(max, sh, sh', t, pc)
  {
  }

  lemma FewerConns(conns: set<nat>, conn: nat)
    ensures |conns - {conn}| <= |conns|
  {
    assert conn in conns ==> conns == conns - {conn} + {conn};
    assert conn !in conns ==> conns == conns - {conn};
  }

  lemma LifecycleKeeps(max: int, sh: Shared, t: nat, l: Lifecycle, conn: nat, sh': Shared, pc: Pc)
    requires Can(sh, AtLifecycle(l)) && SharedInv(max, sh) && ThreadInv(max, sh, t, AtLifecycle(l))
    requires LifecycleMove(sh, t, l, conn) == (sh', pc)
    ensures Keeps(max, sh, sh', t, pc)
  {
    FewerConns(sh.conns, conn);
  }

  lemma SignalKeeps(max: int, sh: Shared, t: nat, g: Signal, sh': Shared, pc: Pc)
    requires Can(sh, AtSignal(g)) && SharedInv(max, sh) && ThreadInv(max, sh, t, AtSignal(g))
    requires SignalMove(sh, t, g) == (sh', pc)
    ensures Keeps(max, sh, sh', t, pc)
  {
  }

  lemma MoveKeeps(max: int, sh: Shared, t: nat, th: Thread, refuse: bool, sh': Shared, pc: Pc)
    requires Can(sh, th.pc) && SharedInv(max, sh) && ThreadInv(max, sh, t, th.pc)
    requires Move(max, sh, t, th, refuse) == (sh', pc)
    ensures Keeps(max, sh, sh', t, pc)
  {
    match th.pc
    case AtBegin(b) => BeginKeeps(max, sh, t, b, sh', pc);
    case AtHandle(h) => HandleKeeps(max, sh, t, h, sh', pc);
    case AtAccept(a) => AcceptKeeps(max, sh, t, a, th.conn, refuse, sh', pc);
    case AtLifecycle(l) => LifecycleKeeps(max, sh, t, l, th.conn, sh', pc);
    case AtSignal(g) => SignalKeeps(max, sh, t, g, sh', pc);
  }

  ghost predicate Inv(max: int, s: State) {
    && SharedInv(max, s.sh)
    && (forall t {:trigger s.threads[t]} :: 0 <= t < |s.threads| ==> ThreadInv(max, s.sh, t, s.threads[t].pc))
    && (forall t: nat :: t in s.sh.reserved || t in s.sh.owing || t in s.sh.closing || s.sh.mu == By(t) ==>
          t < |s.threads|)
  }

  lemma InitInv(max: int)
    ensures Inv(max, Init())
  {
  }

  lemma ActKeeps(max: int, s: State, t: nat, refuse: bool)
    requires Inv(max, s) && t < |s.threads| && Can(s.sh, s.threads[t].pc)
    ensures Inv(max, After(max, s, Act(t, refuse)))
  {
    var s' := After(max, s, Act(t, refuse));
    MoveKeeps(max, s.sh, t, s.threads[t], refuse, s'.sh, s'.threads[t].pc);
    forall u | 0 <= u < |s'.threads| ensures ThreadInv(max, s'.sh, u, s'.threads[u].pc) {
      if u != t {
        OthersKeep(max, s.sh, s'.sh, t, u, s.threads[u].pc);
      }
    }
  }

  lemma StepKeeps(max: int, s: State, step: Step)
    requires Inv(max, s) && Enabled(s, step)
    ensures Inv(max, After(max, s, step))
  {
    match step
    case Act(t, refuse) => ActKeeps(max, s, t, refuse);
    case Arrive(thread) =>
  }

  lemma {:induction false} RunInv(max: int, run: nat -> State, steps: nat -> Step, n: nat)
    requires IsRun(max, run, steps)
    ensures Inv(max, run(n))
    decreases n
  {
    if n == 0 {
      InitInv(max);
    } else {
      RunInv(max, run, steps, n - 1);
      assert StepAt(max, run, steps, n - 1);
      StepKeeps(max, run(n - 1), steps(n - 1));
    }
  }

  /** Nothing takes back a drain, or its completion. */
  lemma {:induction false} StaysDrained(max: int, run: nat -> State, steps: nat -> Step, n: nat, m: nat)
    requires IsRun(max, run, steps) && n <= m
    ensures run(n).sh.drained ==> run(m).sh.drained
    ensures run(n).sh.draining ==> run(m).sh.draining
    decreases m - n
  {
    if n < m {
      StaysDrained(max, run, steps, n, m - 1);
      RunInv(max, run, steps, m - 1);
      assert StepAt(max, run, steps, m - 1);
      var s, step := run(m - 1), steps(m - 1);
      if step.Act? {
        MoveKeeps(max, s.sh, step.t, s.threads[step.t], step.refuse, run(m).sh, run(m).threads[step.t].pc);
      }
    }
  }

  // ------------------------------------------------------------------ theorems

  /** Drain safety: once `drained` is closed, no admitted handler and no tracked
      connection exists, then or ever after. */
  lemma DrainedIsFinal(max: int, run: nat -> State, steps: nat -> Step, n: nat, m: nat, t: nat)
    requires IsRun(max, run, steps) && n <= m && run(n).sh.drained && t < |run(m).threads|
    ensures run(m).sh.conns == {} && !Admitted(run(m).threads[t].pc)
  {
    StaysDrained(max, run, steps, n, m);
    RunInv(max, run, steps, m);
    assert ThreadInv(max, run(m).sh, t, run(m).threads[t].pc);
  }

  lemma SetsAreThreads(max: int, s: State)
    requires Inv(max, s)
    ensures forall t :: t in s.sh.reserved ==> t < |s.threads| && Reserved(s.threads[t].pc)
    ensures forall t :: t in s.sh.owing ==> t < |s.threads| && Owes(s.threads[t].pc)
  {
  }

  /** No lost wake-up: a drain that has nothing left to wait for has been signalled. */
  lemma NoLostWakeUp(max: int, run: nat -> State, steps: nat -> Step, n: nat)
    requires IsRun(max, run, steps) && run(n).sh.draining && run(n).sh.conns == {}
    requires forall t :: 0 <= t < |run(n).threads| ==> !Reserved(run(n).threads[t].pc) && !Owes(run(n).threads[t].pc)
    ensures run(n).sh.drained
  {
    RunInv(max, run, steps, n);
    SetsAreThreads(max, run(n));
    assert run(n).sh.reserved == {} && run(n).sh.owing == {};
  }

  /** No reachable step panics; the started channel is closed once; the connection
      limit holds; every admitted handler and every reservation is counted. */
  lemma NoPanic(max: int, run: nat -> State, steps: nat -> Step, n: nat, t: nat)
    requires IsRun(max, run, steps) && t < |run(n).threads|
    ensures !run(n).threads[t].pc.Panicked?
    ensures run(n).sh.started <= 1 && (run(n).sh.conns == {} || |run(n).sh.conns| <= max)
    ensures run(n).sh.active == |run(n).sh.reserved| && (t in run(n).sh.reserved <==> Reserved(run(n).threads[t].pc))
  {
    RunInv(max, run, steps, n);
    assert ThreadInv(max, run(n).sh, t, run(n).threads[t].pc);
  }

  /** While a thread is unfinished, it can step itself, or it waits for the mutex and the
      thread that holds the mutex can step. */
  lemma DrainProgress(max: int, run: nat -> State, steps: nat -> Step, n: nat, t: nat)
    requires IsRun(max, run, steps) && t < |run(n).threads| && !run(n).threads[t].pc.Over?
    ensures var s := run(n);
      || Can(s.sh, s.threads[t].pc)
      || (Locks(s.threads[t].pc) && s.sh.mu.By? && s.sh.mu.t < |s.threads| && s.sh.mu.t != t
          && Can(s.sh, s.threads[s.sh.mu.t].pc))
  {
    RunInv(max, run, steps, n);
    var s := run(n);
    assert ThreadInv(max, s.sh, t, s.threads[t].pc);
    if s.sh.mu != Free {
      var u := s.sh.mu.t;
      assert s.sh.mu == By(u);
      assert ThreadInv(max, s.sh, u, s.threads[u].pc);
      assert Can(s.sh, s.threads[u].pc);
    }
  }
}
