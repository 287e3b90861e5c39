/** What each operation of the drain tracker has done by the time it returns, over every
    run: whole threads, from their arrival on. */
module DrainLives {
  import opened DrainProtocol

  /** Thread t arrives with step a, at the start of the operation. */
  ghost predicate Arrived(run: nat -> State, steps: nat -> Step, a: nat, t: nat, start: Pc) {
    steps(a).Arrive? && steps(a).thread.pc == start && t == |run(a).threads|
  }

  /** Since its arrival the thread has been here. */
  ghost predicate Was(run: nat -> State, a: nat, n: nat, t: nat, pc: Pc) {
    exists j: nat :: a < j <= n && IsAt(run(j), t, pc)
  }

  predicate IsAt(s: State, t: nat, pc: Pc) { t < |s.threads| && s.threads[t].pc == pc }

  predicate Returning(pc: Pc) { pc.AtSignal? || pc.Over? }

  // -------------------------------------------------------- what has happened

  /** The handler gave its reservation back while nothing drained. */
  ghost predicate Quietly(run: nat -> State, a: nat, n: nat, t: nat) {
    exists j: nat :: a < j <= n && IsAt(run(j), t, AtHandle(PrepareDecrement)) && !run(j).sh.draining
  }

  /** How a command ended: refused under a drain, or admitted and finished, after the
      connection was closed unless nothing drained. */
  ghost predicate Handled(run: nat -> State, a: nat, n: nat, t: nat) {
    if Was(run, a, n, t, AtHandle(Running)) then Was(run, a, n, t, AtHandle(CloseConn)) || Quietly(run, a, n, t)
    else run(n).sh.draining
  }

  ghost predicate HandlerLife(run: nat -> State, a: nat, n: nat, t: nat, pc: Pc) {
    && !pc.AtAccept? && !pc.AtLifecycle?
    && (run(a).sh.draining ==> pc == AtBegin(Load) || pc.Over?)
    && (pc.AtBegin? ==> !Was(run, a, n, t, AtHandle(Running)))
    && (pc.AtHandle? ==> Was(run, a, n, t, AtHandle(Running)))
    && (pc in {AtHandle(CompleteLock), AtHandle(CompleteCheck), AtHandle(CompleteDecrement)} ==>
          Was(run, a, n, t, AtHandle(CloseConn)))
    && (Returning(pc) ==> Handled(run, a, n, t))
  }

  ghost predicate StopLife(run: nat -> State, n: nat, pc: Pc) {
    pc in {AtLifecycle(StopLock), AtLifecycle(StopSwap)} || (Returning(pc) && run(n).sh.draining)
  }

  /** Since its arrival the thread's connection was untracked at some moment. */
  ghost predicate Forgotten(run: nat -> State, a: nat, n: nat, conn: nat) {
    exists j: nat :: a < j <= n && conn !in run(j).sh.conns
  }

  ghost predicate ClosedLife(run: nat -> State, a: nat, n: nat, conn: nat, pc: Pc) {
    pc in {AtLifecycle(ClosedLock), AtLifecycle(ClosedRemove)} || (Returning(pc) && Forgotten(run, a, n, conn))
  }

  /** Why a connection is not accepted. */
  predicate TurnsAway(max: int, s: State, step: Step, t: nat) {
    && IsAt(s, t, AtAccept(AcceptCheck)) && step.Act? && step.t == t
    && (s.sh.draining || |s.sh.conns| >= max || step.refuse)
  }

  ghost predicate TurnedAway(max: int, run: nat -> State, steps: nat -> Step, a: nat, n: nat, t: nat) {
    exists j: nat :: a < j < n && TurnsAway(max, run(j), steps(j), t)
  }

  ghost predicate Tracked(run: nat -> State, a: nat, n: nat, conn: nat) {
    exists j: nat :: a < j <= n && conn in run(j).sh.conns
  }

  ghost predicate AcceptLife(max: int, run: nat -> State, steps: nat -> Step, a: nat, n: nat, t: nat, conn: nat,
                             pc: Pc) {
    && (pc.AtAccept? || Returning(pc))
    && (pc.AtAccept? ==> !TurnedAway(max, run, steps, a, n, t))
    && (Returning(pc) ==> TurnedAway(max, run, steps, a, n, t) || Tracked(run, a, n, conn))
  }

  /** The life of a thread so far. */
  ghost predicate Life(max: int, run: nat -> State, steps: nat -> Step, a: nat, n: nat, t: nat, start: Thread) {
    && t < |run(n).threads| && run(n).threads[t].conn == start.conn
    && var pc := run(n).threads[t].pc;
       match start.pc
       case AtBegin(_) => HandlerLife(run, a, n, t, pc)
       case AtAccept(_) => AcceptLife(max, run, steps, a, n, t, start.conn, pc)
       case AtLifecycle(l) => if l == StopLock then StopLife(run, n, pc) else ClosedLife(run, a, n, start.conn, pc)
       case _ => true
  }

  // -------------------------------------------------------------------- steps

  /** The next step of a run, and what it cannot take back. */
  ghost predicate Next(max: int, run: nat -> State, steps: nat -> Step, n: nat) {
    && StepAt(max, run, steps, n) && Inv(max, run(n)) && Inv(max, run(n + 1))
    && (run(n).sh.draining ==> run(n + 1).sh.draining)
  }

  lemma RunNext(max: int, run: nat -> State, steps: nat -> Step, n: nat)
    requires IsRun(max, run, steps)
    ensures Next(max, run, steps, n)
  {
    RunInv(max, run, steps, n);
    RunInv(max, run, steps, n + 1);
    StaysDrained(max, run, steps, n, n + 1);
    assert StepAt(max, run, steps, n);
  }

  lemma WasNext(run: nat -> State, a: nat, n: nat, t: nat, pc: Pc)
    requires a <= n
    ensures Was(run, a, n + 1, t, pc) <==> Was(run, a, n, t, pc) || IsAt(run(n + 1), t, pc)
  {
    if Was(run, a, n, t, pc) {
      var j: nat :| a < j <= n && IsAt(run(j), t, pc);
      assert a < j <= n + 1;
    }
    if Was(run, a, n + 1, t, pc) && !IsAt(run(n + 1), t, pc) {
      var j: nat :| a < j <= n + 1 && IsAt(run(j), t, pc);
      assert j <= n;
    }
  }

  lemma QuietlyNext(run: nat -> State, a: nat, n: nat, t: nat)
    requires a <= n
    ensures Quietly(run, a, n, t) ==> Quietly(run, a, n + 1, t)
    ensures IsAt(run(n + 1), t, AtHandle(PrepareDecrement)) && !run(n + 1).sh.draining ==> Quietly(run, a, n + 1, t)
  {
    if Quietly(run, a, n, t) {
      var j: nat :| a < j <= n && IsAt(run(j), t, AtHandle(PrepareDecrement)) && !run(j).sh.draining;
      assert a < j <= n + 1;
    }
  }

  /** What a command has been through stays so. */
  lemma HandledNext(run: nat -> State, a: nat, n: nat, t: nat)
    requires a <= n && (run(n).sh.draining ==> run(n + 1).sh.draining) && !IsAt(run(n + 1), t, AtHandle(Running))
    requires Handled(run, a, n, t)
    ensures Handled(run, a, n + 1, t)
  {
    WasNext(run, a, n, t, AtHandle(Running));
    WasNext(run, a, n, t, AtHandle(CloseConn));
    QuietlyNext(run, a, n, t);
  }

  /** The thread itself steps, or another one does. */
  predicate Moves(max: int, s: State, s': State, t: nat) {
    && t < |s.threads| && t < |s'.threads| && s'.threads[t].conn == s.threads[t].conn
    && (s'.threads[t] == s.threads[t] || MovesItself(max, s, s', t))
  }

  predicate MovesItself(max: int, s: State, s': State, t: nat)
    requires t < |s.threads| && t < |s'.threads|
  {
    && Can(s.sh, s.threads[t].pc)
    && exists refuse :: Move(max, s.sh, t, s.threads[t], refuse) == (s'.sh, s'.threads[t].pc)
  }

  lemma NextMoves(max: int, run: nat -> State, steps: nat -> Step, n: nat, t: nat)
    requires Next(max, run, steps, n) && t < |run(n).threads|
    ensures Moves(max, run(n), run(n + 1), t)
  {
  }

  lemma AdmittedNext(max: int, run: nat -> State, steps: nat -> Step, a: nat, n: nat, t: nat)
    requires Next(max, run, steps, n) && a < n && t < |run(n).threads| && run(n).threads[t].pc.AtHandle?
    requires HandlerLife(run, a, n, t, run(n).threads[t].pc) && Moves(max, run(n), run(n + 1), t)
    ensures HandlerLife(run, a, n + 1, t, run(n + 1).threads[t].pc)
  {
    assert ThreadInv(max, run(n).sh, t, run(n).threads[t].pc);
    WasNext(run, a, n, t, AtHandle(Running));
    WasNext(run, a, n, t, AtHandle(CloseConn));
    QuietlyNext(run, a, n, t);
    if run(n).threads[t].pc == AtHandle(PrepareDecrement) {
      assert IsAt(run(n), t, AtHandle(PrepareDecrement));
      assert Quietly(run, a, n, t);
    } else if run(n).threads[t].pc == AtHandle(CloseConn) {
      assert IsAt(run(n), t, AtHandle(CloseConn));
    }
  }

  lemma BeginNext(max: int, run: nat -> State, steps: nat -> Step, a: nat, n: nat, t: nat)
    requires Next(max, run, steps, n) && a < n && t < |run(n).threads| && run(n).threads[t].pc.AtBegin?
    requires HandlerLife(run, a, n, t, run(n).threads[t].pc) && Moves(max, run(n), run(n + 1), t)
    requires run(a).sh.draining ==> run(n).sh.draining
    ensures HandlerLife(run, a, n + 1, t, run(n + 1).threads[t].pc)
  {
    assert ThreadInv(max, run(n).sh, t, run(n).threads[t].pc);
    WasNext(run, a, n, t, AtHandle(Running));
  }

  lemma HandlerNext(max: int, run: nat -> State, steps: nat -> Step, a: nat, n: nat, t: nat)
    requires Next(max, run, steps, n) && a < n && t < |run(n).threads| && !run(n).threads[t].pc.Panicked?
    requires HandlerLife(run, a, n, t, run(n).threads[t].pc) && Moves(max, run(n), run(n + 1), t)
    requires run(a).sh.draining ==> run(n).sh.draining
    ensures HandlerLife(run, a, n + 1, t, run(n + 1).threads[t].pc)
  {
    var pc := run(n).threads[t].pc;
    if pc.AtHandle? {
      AdmittedNext(max, run, steps, a, n, t);
    } else if pc.AtBegin? {
      BeginNext(max, run, steps, a, n, t);
    } else {
      HandledNext(run, a, n, t);
    }
  }

  lemma StopNext(max: int, run: nat -> State, steps: nat -> Step, n: nat, t: nat)
    requires Next(max, run, steps, n) && t < |run(n).threads|
    requires StopLife(run, n, run(n).threads[t].pc) && Moves(max, run(n), run(n + 1), t)
    ensures StopLife(run, n + 1, run(n + 1).threads[t].pc)
  {
  }

  lemma ClosedNext(max: int, run: nat -> State, steps: nat -> Step, a: nat, n: nat, t: nat)
    requires Next(max, run, steps, n) && a < n && t < |run(n).threads|
    requires ClosedLife(run, a, n, run(n).threads[t].conn, run(n).threads[t].pc)
    requires Moves(max, run(n), run(n + 1), t)
    ensures ClosedLife(run, a, n + 1, run(n).threads[t].conn, run(n + 1).threads[t].pc)
  {
    var conn := run(n).threads[t].conn;
    if Forgotten(run, a, n, conn) {
      var j: nat :| a < j <= n && conn !in run(j).sh.conns;
      assert a < j <= n + 1;
    }
    if conn !in run(n + 1).sh.conns {
      assert Forgotten(run, a, n + 1, conn);
    }
  }

  lemma AcceptNext(max: int, run: nat -> State, steps: nat -> Step, a: nat, n: nat, t: nat)
    requires Next(max, run, steps, n) && a < n && t < |run(n).threads|
    requires AcceptLife(max, run, steps, a, n, t, run(n).threads[t].conn, run(n).threads[t].pc)
    ensures t < |run(n + 1).threads|
    ensures AcceptLife(max, run, steps, a, n + 1, t, run(n).threads[t].conn, run(n + 1).threads[t].pc)
  {
    var conn := run(n).threads[t].conn;
    if Tracked(run, a, n, conn) {
      var j: nat :| a < j <= n && conn in run(j).sh.conns;
      assert a < j <= n + 1;
    }
    if conn in run(n + 1).sh.conns {
      assert Tracked(run, a, n + 1, conn);
    }
    TurnedAwayNext(max, run, steps, a, n, t);
  }

  lemma TurnedAwayNext(max: int, run: nat -> State, steps: nat -> Step, a: nat, n: nat, t: nat)
    requires a < n
    ensures TurnedAway(max, run, steps, a, n + 1, t) <==>
      TurnedAway(max, run, steps, a, n, t) || TurnsAway(max, run(n), steps(n), t)
  {
    if TurnedAway(max, run, steps, a, n, t) {
      var j: nat :| a < j < n && TurnsAway(max, run(j), steps(j), t);
      assert a < j < n + 1;
    }
    if TurnedAway(max, run, steps, a, n + 1, t) && !TurnsAway(max, run(n), steps(n), t) {
      var j: nat :| a < j < n + 1 && TurnsAway(max, run(j), steps(j), t);
      assert j < n;
    }
  }

  lemma Born(max: int, run: nat -> State, steps: nat -> Step, a: nat, t: nat)
    requires StepAt(max, run, steps, a) && steps(a).Arrive? && Arrived(run, steps, a, t, steps(a).thread.pc)
    ensures t < |run(a + 1).threads| && run(a + 1).threads[t] == steps(a).thread && Arrival(steps(a).thread.pc)
  {
  }

  lemma LifeBegins(max: int, run: nat -> State, steps: nat -> Step, a: nat, t: nat, start: Thread)
    requires t < |run(a + 1).threads| && run(a + 1).threads[t] == start && Arrival(start.pc)
    ensures Life(max, run, steps, a, a + 1, t, start)
  {
  }

  lemma LifeNext(max: int, run: nat -> State, steps: nat -> Step, a: nat, n: nat, t: nat, start: Thread)
    requires Next(max, run, steps, n) && a < n && Life(max, run, steps, a, n, t, start) && Arrival(start.pc)
    requires run(a).sh.draining ==> run(n).sh.draining
    ensures Life(max, run, steps, a, n + 1, t, start)
  {
    NextMoves(max, run, steps, n, t);
    assert ThreadInv(max, run(n).sh, t, run(n).threads[t].pc);
    match start.pc
    case AtBegin(_) => HandlerNext(max, run, steps, a, n, t);
    case AtAccept(_) => AcceptNext(max, run, steps, a, n, t);
    case AtLifecycle(l) =>
      if l == StopLock {
        StopNext(max, run, steps, n, t);
      } else {
        ClosedNext(max, run, steps, a, n, t);
      }
  }

  lemma StepLife(max: int, run: nat -> State, steps: nat -> Step, a: nat, n: nat, t: nat, start: Thread)
    requires IsRun(max, run, steps) && a < n && Life(max, run, steps, a, n, t, start) && Arrival(start.pc)
    ensures Life(max, run, steps, a, n + 1, t, start)
  {
    RunNext(max, run, steps, n);
    StaysDrained(max, run, steps, a, n);
    LifeNext(max, run, steps, a, n, t, start);
  }

  lemma {:induction false} RunLife(max: int, run: nat -> State, steps: nat -> Step, a: nat, n: nat, t: nat)
    requires IsRun(max, run, steps) && a < n && steps(a).Arrive? && Arrived(run, steps, a, t, steps(a).thread.pc)
    ensures Life(max, run, steps, a, n, t, steps(a).thread)
    decreases n
  {
    assert StepAt(max, run, steps, a);
    Born(max, run, steps, a, t);
    if n == a + 1 {
      LifeBegins(max, run, steps, a, t, steps(a).thread);
    } else {
      RunLife(max, run, steps, a, n - 1, t);
      StepLife(max, run, steps, a, n - 1, t, steps(a).thread);
    }
  }

  // ------------------------------------------------------------------ theorems

  /** Once stopAdmission has returned the drain is on, then and ever after, and was
      announced exactly once. */
  lemma StopStartsDrain(max: int, run: nat -> State, steps: nat -> Step, a: nat, n: nat, m: nat, t: nat)
    requires IsRun(max, run, steps) && Arrived(run, steps, a, t, AtLifecycle(StopLock))
    requires a < n <= m && IsAt(run(n), t, Over)
    ensures run(m).sh.draining && run(m).sh.started == 1
  {
    RunLife(max, run, steps, a, n, t);
    StaysDrained(max, run, steps, n, m);
    RunInv(max, run, steps, m);
  }

  lemma {:induction false} ArrivalOf(max: int, run: nat -> State, steps: nat -> Step, n: nat, t: nat) returns (a: nat)
    requires IsRun(max, run, steps) && t < |run(n).threads|
    ensures a < n && steps(a).Arrive? && t == |run(a).threads|
    decreases n
  {
    a := n - 1;
    assert StepAt(max, run, steps, a);
    if t < |run(a).threads| {
      a := ArrivalOf(max, run, steps, n - 1, t);
    }
  }

  /** Only stopAdmission's swap turns the drain on. */
  lemma SwapStarts(max: int, s: State, t: nat, refuse: bool)
    requires t < |s.threads| && Can(s.sh, s.threads[t].pc) && !s.sh.draining
    requires After(max, s, Act(t, refuse)).sh.draining
    ensures s.threads[t].pc == AtLifecycle(StopSwap)
  {
  }

  /** No drain begins by itself: somebody asked for it. */
  lemma {:induction false} DrainIsAskedFor(max: int, run: nat -> State, steps: nat -> Step, n: nat) returns (a: nat)
    requires IsRun(max, run, steps) && run(n).sh.draining
    ensures a < n && steps(a).Arrive? && steps(a).thread.pc == AtLifecycle(StopLock)
    decreases n
  {
    assert StepAt(max, run, steps, n - 1);
    if run(n - 1).sh.draining {
      a := DrainIsAskedFor(max, run, steps, n - 1);
    } else {
      var t := steps(n - 1).t;
      SwapStarts(max, run(n - 1), t, steps(n - 1).refuse);
      a := ArrivalOf(max, run, steps, n - 1, t);
      RunLife(max, run, steps, a, n - 1, t);
      assert StepAt(max, run, steps, a);
    }
  }

  /** A command that arrives once a drain is on is refused at once: it never takes a
      reservation and is never admitted. */
  lemma NoAdmissionInDrain(max: int, run: nat -> State, steps: nat -> Step, a: nat, n: nat, t: nat)
    requires IsRun(max, run, steps) && Arrived(run, steps, a, t, AtBegin(Load)) && run(a).sh.draining && a < n
    ensures IsAt(run(n), t, AtBegin(Load)) || IsAt(run(n), t, Over)
  {
    RunLife(max, run, steps, a, n, t);
  }

  /** A command that has ended was admitted, unless a drain is on; and one that was admitted
      closed its connection, unless it finished while nothing drained. */
  lemma RefusedOnlyInDrain(max: int, run: nat -> State, steps: nat -> Step, a: nat, n: nat, t: nat)
    requires IsRun(max, run, steps) && Arrived(run, steps, a, t, AtBegin(Load)) && a < n && IsAt(run(n), t, Over)
    ensures Was(run, a, n, t, AtHandle(Running)) || run(n).sh.draining
    ensures Was(run, a, n, t, AtHandle(Running)) ==> Was(run, a, n, t, AtHandle(CloseConn)) || Quietly(run, a, n, t)
  {
    RunLife(max, run, steps, a, n, t);
  }

  /** An accepted connection was tracked; one is not accepted only in a drain, at the
      limit, or when its deadline cannot be set. */
  lemma AcceptTracks(max: int, run: nat -> State, steps: nat -> Step, a: nat, n: nat, t: nat)
    requires IsRun(max, run, steps) && Arrived(run, steps, a, t, AtAccept(AcceptLock)) && a < n && IsAt(run(n), t, Over)
    ensures Tracked(run, a, n, steps(a).thread.conn) || TurnedAway(max, run, steps, a, n, t)
  {
    RunLife(max, run, steps, a, n, t);
  }

  /** Once connectionClosed has returned, the connection had stopped being tracked. */
  lemma CloseForgets(max: int, run: nat -> State, steps: nat -> Step, a: nat, n: nat, t: nat)
    requires IsRun(max, run, steps) && Arrived(run, steps, a, t, AtLifecycle(ClosedLock))
    requires a < n && IsAt(run(n), t, Over)
    ensures Forgotten(run, a, n, steps(a).thread.conn)
  {
    RunLife(max, run, steps, a, n, t);
  }
}
