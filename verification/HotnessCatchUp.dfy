/** Catching up several empty windows at once: the closed form, segment by
    threshold segment, and its equality with one window at a time. */
module HotnessCatchUp {
  import opened HotnessModel
  import opened HotnessDecay

  /** The next n scores all reach the promotion threshold. */
  function High(c: Config, e: Entry, n: nat): Entry {
    if n == 0 then e
    else
      var e1 := if e.state == Cooling then e.(state := Hot, coolingAt := 0) else e;
      var needed := if c.minWindows < e1.hotWindows then 0 else c.minWindows - e1.hotWindows;
      var e2 := if e1.state != Hot && n >= needed then e1.(state := Hot) else e1;
      if n >= c.minWindows || e2.hotWindows + n >= c.minWindows
      then e2.(hotWindows := if c.minWindows < 0 then 0 else c.minWindows)
      else e2.(hotWindows := e2.hotWindows + n)
  }

  /** The next n scores are between the thresholds. */
  function Mid(e: Entry, n: nat): Entry {
    if n == 0 then e else e.(hotWindows := 0, state := if e.state == Cold then Warm else e.state)
  }

  /** The next n scores are below the demotion threshold: a HOT entry starts to
      cool at the first of them ... */
  function LowStart(e: Entry, n: nat, start: int): Entry {
    if n == 0 then e
    else if e.state == Hot then e.(hotWindows := 0, state := Cooling, coolingAt := start)
    else e.(hotWindows := 0)
  }

  /** ... and by the last of them has cooled down, or not. */
  function LowEnd(c: Config, e: Entry, n: nat, end: int, finalScore: real): Entry {
    if n == 0 then e
    else if e.state == Cooling && end - e.coolingAt >= c.cooldown then e.(state := Cold, coolingAt := 0)
    else if e.state == Warm && finalScore == 0.0 then e.(state := Cold)
    else e
  }

  function At(c: Config, e: Entry, score: real, n: nat): Entry {
    if n == 0 then e else e.(score := Decayed(score, Beta(c), n), lastRate := 0.0)
  }

  lemma IdleScore(c: Config, e: Entry, boundary: int)
    ensures OneWindow(c, e, 0.0, boundary) == ApplyState(c, e.(score := Beta(c) * e.score, lastRate := 0.0), boundary)
    ensures OneWindow(c, e, 0.0, boundary).score == Beta(c) * e.score
    ensures Decayed(e.score, Beta(c), 1) == Beta(c) * e.score
  {
    assert c.alpha * 0.0 + Beta(c) * e.score == Beta(c) * e.score;
    assert Pow(Beta(c), 1) == Beta(c) * Pow(Beta(c), 0);
  }

  // --------------------------------------------------------------- high

  lemma HighOne(c: Config, e: Entry, boundary: int)
    requires ValidConfig(c) && e.state != Cold && Beta(c) * e.score >= c.promotion
    ensures var e1 := OneWindow(c, e, 0.0, boundary);
      && e1.state == (if e.state == Cooling || e.hotWindows + 1 >= c.minWindows then Hot else e.state)
      && e1 == e.(score := Beta(c) * e.score, lastRate := 0.0, hotWindows := e.hotWindows + 1,
                  state := e1.state, coolingAt := if e.state == Cooling then 0 else e.coolingAt)
  {
    IdleScore(c, e, boundary);
  }

  lemma HighMore(c: Config, e: Entry, e1: Entry, n: nat)
    requires ValidConfig(c) && n >= 1 && e.state != Cold
    requires e1 == e.(score := e1.score, lastRate := e1.lastRate, hotWindows := e.hotWindows + 1,
                      state := if e.state == Cooling || e.hotWindows + 1 >= c.minWindows then Hot else e.state,
                      coolingAt := if e.state == Cooling then 0 else e.coolingAt)
    ensures Same(c, High(c, e1, n), High(c, e, n + 1).(score := e1.score, lastRate := e1.lastRate))
    ensures Change(e.key, e.state, e1.state) + Change(e.key, e1.state, High(c, e1, n).state)
         == Change(e.key, e.state, High(c, e, n + 1).state)
  {
  }

  /** An empty window never increases a score. */
  lemma Shrinks(beta: real, x: real, next: real)
    requires 0.0 <= beta <= 1.0 && 0.0 <= x && next == beta * x
    ensures 0.0 <= next <= x
  {
    NonNegative(beta, x);
    MulMono(x, beta, 1.0);
  }

  /** A score below a threshold stays below it. */
  lemma Below(beta: real, x: real, next: real, threshold: real)
    requires 0.0 <= beta <= 1.0 && 0.0 <= x && next == beta * x && next < threshold
    ensures beta * next < threshold
  {
    Shrinks(beta, x, next);
    Shrinks(beta, next, beta * next);
  }

  /** The first of n empty windows, leading from one score to the next. */
  lemma FirstOf(beta: real, score: real, next: real, n: nat)
    requires 0.0 <= beta <= 1.0 && 0.0 <= score && n >= 1 && next == beta * score
    ensures Decayed(score, beta, n) == Decayed(next, beta, n - 1)
    ensures Decayed(score, beta, n) <= next
    ensures 0.0 <= next
  {
    Shrinks(beta, score, next);
    DecayedStep(score, beta, n - 1);
    DecayedDecreases(next, beta, 0, n - 1);
    assert Decayed(next, beta, 0) == next;
  }

  /** The entry after one of several high windows. */
  function HighNext(c: Config, e: Entry): Entry {
    e.(score := Beta(c) * e.score, lastRate := 0.0, hotWindows := e.hotWindows + 1,
       state := if e.state == Cooling || e.hotWindows + 1 >= c.minWindows then Hot else e.state,
       coolingAt := if e.state == Cooling then 0 else e.coolingAt)
  }

  lemma HighUnfold(c: Config, e: Entry, n: nat, boundary: int)
    requires ValidConfig(c) && e.state != Cold && n >= 1 && Beta(c) * e.score >= c.promotion
    ensures var rest := Idle(c, HighNext(c, e), n - 1, boundary + c.window);
      Idle(c, e, n, boundary) == Progress(rest.entry, Change(e.key, e.state, HighNext(c, e).state) + rest.log)
  {
    HighOne(c, e, boundary);
  }

  /** p is what the closed form says n high windows do. */
  ghost predicate HighAgrees(c: Config, e: Entry, n: nat, p: Progress) {
    Same(c, p.entry, At(c, High(c, e, n), e.score, n)) && p.log == Change(e.key, e.state, High(c, e, n).state)
  }

  lemma HighGlue(c: Config, e: Entry, e1: Entry, n: nat, p: Progress, rest: Progress)
    requires ValidConfig(c) && n >= 1 && e.state != Cold && e1 == HighNext(c, e)
    requires Decayed(e.score, Beta(c), n) == Decayed(e1.score, Beta(c), n - 1)
    requires p == Progress(rest.entry, Change(e.key, e.state, e1.state) + rest.log)
    requires HighAgrees(c, e1, n - 1, rest)
    ensures HighAgrees(c, e, n, p)
  {
    if n > 1 {
      HighMore(c, e, e1, n - 1);
    }
  }

  lemma HighStep(c: Config, e: Entry, e1: Entry, n: nat, boundary: int)
    requires ValidConfig(c) && n >= 1 && e.state != Cold && e1 == HighNext(c, e) && e1.score >= c.promotion
    requires Decayed(e.score, Beta(c), n) == Decayed(e1.score, Beta(c), n - 1)
    requires HighAgrees(c, e1, n - 1, Idle(c, e1, n - 1, boundary + c.window))
    ensures HighAgrees(c, e, n, Idle(c, e, n, boundary))
  {
    HighUnfold(c, e, n, boundary);
    HighGlue(c, e, e1, n, Idle(c, e, n, boundary), Idle(c, e1, n - 1, boundary + c.window));
  }

  lemma {:induction false} HighSegment(c: Config, e: Entry, n: nat, boundary: int)
    requires ValidConfig(c) && e.state != Cold && 0.0 <= e.score
    requires n >= 1 ==> Decayed(e.score, Beta(c), n) >= c.promotion
    ensures HighAgrees(c, e, n, Idle(c, e, n, boundary))
    decreases n
  {
    if n > 0 {
      var e1 := HighNext(c, e);
      FirstOf(Beta(c), e.score, e1.score, n);
      HighSegment(c, e1, n - 1, boundary + c.window);
      HighStep(c, e, e1, n, boundary);
    }
  }

  // ---------------------------------------------------------------- mid

  ghost predicate MidAgrees(c: Config, e: Entry, n: nat, boundary: int) {
    Idle(c, e, n, boundary) == Progress(At(c, Mid(e, n), e.score, n), Change(e.key, e.state, Mid(e, n).state))
  }

  function MidNext(c: Config, e: Entry): Entry { Mid(e, 1).(score := Beta(c) * e.score, lastRate := 0.0) }

  lemma MidStep(c: Config, e: Entry, e1: Entry, n: nat, boundary: int)
    requires ValidConfig(c) && n >= 1 && e1 == MidNext(c, e) && c.demotion <= e1.score < c.promotion
    requires Decayed(e.score, Beta(c), n) == Decayed(e1.score, Beta(c), n - 1)
    requires MidAgrees(c, e1, n - 1, boundary + c.window)
    ensures MidAgrees(c, e, n, boundary)
  {
    IdleScore(c, e, boundary);
    assert OneWindow(c, e, 0.0, boundary) == e1;
    MidJoin(c, e, e1, n);
  }

  lemma {:induction false} MidSegment(c: Config, e: Entry, n: nat, boundary: int)
    requires ValidConfig(c) && 0.0 <= e.score
    requires n >= 1 ==> Decayed(e.score, Beta(c), n) >= c.demotion && Beta(c) * e.score < c.promotion
    ensures MidAgrees(c, e, n, boundary)
    decreases n
  {
    if n > 0 {
      var e1 := MidNext(c, e);
      FirstOf(Beta(c), e.score, e1.score, n);
      Below(Beta(c), e.score, e1.score, c.promotion);
      MidSegment(c, e1, n - 1, boundary + c.window);
      MidStep(c, e, e1, n, boundary);
    }
  }

  lemma MidJoin(c: Config, e: Entry, e1: Entry, n: nat)
    requires n >= 1 && e1 == Mid(e, 1).(score := Beta(c) * e.score, lastRate := 0.0)
    requires Decayed(e.score, Beta(c), n) == Decayed(e1.score, Beta(c), n - 1)
    ensures At(c, Mid(e1, n - 1), e1.score, n - 1) == At(c, Mid(e, n), e.score, n)
    ensures Change(e.key, e.state, e1.state) + Change(e.key, e1.state, Mid(e1, n - 1).state)
        == Change(e.key, e.state, Mid(e, n).state)
  {
  }

  // ---------------------------------------------------------------- low

  ghost predicate LowAgrees(c: Config, e: Entry, n: nat, boundary: int, end: int) {
    var last := LowEnd(c, e, n, end, Decayed(e.score, Beta(c), n));
    Idle(c, e, n, boundary) == Progress(At(c, last, e.score, n), Change(e.key, e.state, last.state))
  }

  lemma LowStep(c: Config, e: Entry, e1: Entry, n: nat, boundary: int, end: int)
    requires ValidConfig(c) && 0.0 <= e.score && e.state != Hot && e.hotWindows == 0 && n >= 1
    requires Beta(c) * e.score < c.demotion && end == boundary + (n - 1) * c.window
    requires e1 == OneWindow(c, e, 0.0, boundary) && e1.key == e.key
    requires LowAgrees(c, e1, n - 1, boundary + c.window, end)
    ensures LowAgrees(c, e, n, boundary, end)
  {
    LowRestStep(c, e, e1, n, boundary, end);
  }

  lemma LowNext(c: Config, e: Entry, boundary: int)
    requires ValidConfig(c) && 0.0 <= e.score && e.state != Hot && e.hotWindows == 0 && Beta(c) * e.score < c.demotion
    ensures var e1 := OneWindow(c, e, 0.0, boundary);
      && 0.0 <= e1.score && e1.state != Hot && e1.hotWindows == 0 && e1.key == e.key && Beta(c) * e1.score < c.demotion
  {
    var e1 := OneWindow(c, e, 0.0, boundary);
    IdleScore(c, e, boundary);
    FirstOf(Beta(c), e.score, e1.score, 1);
    Below(Beta(c), e.score, e1.score, c.demotion);
  }

  /** Below the demotion threshold a cooling, warm or cold entry only waits. */
  lemma {:induction false} LowRest(c: Config, e: Entry, n: nat, boundary: int, end: int)
    requires ValidConfig(c) && 0.0 <= e.score && e.state != Hot && e.hotWindows == 0
    requires Beta(c) * e.score < c.demotion
    requires n >= 1 ==> end == boundary + (n - 1) * c.window
    ensures LowAgrees(c, e, n, boundary, end)
    decreases n
  {
    if n > 0 {
      var e1 := OneWindow(c, e, 0.0, boundary);
      LowNext(c, e, boundary);
      if n > 1 {
        MulStep(n - 1, c.window);
      }
      LowRest(c, e1, n - 1, boundary + c.window, end);
      LowStep(c, e, e1, n, boundary, end);
    }
  }

  lemma LowRestStep(c: Config, e: Entry, e1: Entry, n: nat, boundary: int, end: int)
    requires ValidConfig(c) && 0.0 <= e.score && e.state != Hot && e.hotWindows == 0 && n >= 1
    requires Beta(c) * e.score < c.demotion && end == boundary + (n - 1) * c.window
    requires e1 == OneWindow(c, e, 0.0, boundary)
    ensures var last := LowEnd(c, e, n, end, Decayed(e.score, Beta(c), n));
      var last1 := LowEnd(c, e1, n - 1, end, Decayed(e1.score, Beta(c), n - 1));
      && At(c, last, e.score, n) == At(c, last1, e1.score, n - 1)
      && Change(e.key, e.state, last.state) == Change(e.key, e.state, e1.state) + Change(e.key, e1.state, last1.state)
  {
    IdleScore(c, e, boundary);
    DecayedStep(e.score, Beta(c), n - 1);
    assert (n - 1) * c.window >= 0;
    ZeroScore(e.score, Beta(c), n);
  }

  /** A score decays to exactly zero only if it is zero after one window. */
  lemma {:induction false} ZeroScore(score: real, beta: real, n: nat)
    requires n >= 1
    ensures Decayed(score, beta, n) == 0.0 <==> beta * score == 0.0
    decreases n
  {
    DecayedStep(score, beta, n - 1);
    if n > 1 {
      ZeroScore(beta * score, beta, n - 1);
    }
  }

  /** What n windows below the demotion threshold do, in closed form. */
  function Low(c: Config, e: Entry, n: nat, start: int, end: int): Progress {
    var first := LowStart(e, n, start);
    var last := LowEnd(c, first, n, end, Decayed(e.score, Beta(c), n));
    Progress(At(c, last, e.score, n), Change(e.key, e.state, first.state) + Change(e.key, first.state, last.state))
  }

  /** A HOT entry's first low window. */
  lemma LowFirst(c: Config, e: Entry, n: nat, boundary: int)
    requires ValidConfig(c) && 0.0 <= e.score && n >= 1 && e.state == Hot && Beta(c) * e.score < c.demotion
    ensures var e1 := LowStart(e, n, boundary).(score := Beta(c) * e.score, lastRate := 0.0);
      var rest := Idle(c, e1, n - 1, boundary + c.window);
      Idle(c, e, n, boundary) == Progress(rest.entry, Change(e.key, Hot, Cooling) + rest.log)
  {
    IdleScore(c, e, boundary);
  }

  lemma LowHotStep(c: Config, e: Entry, e1: Entry, n: nat, boundary: int, end: int)
    requires ValidConfig(c) && 0.0 <= e.score && n >= 1 && e.state == Hot
    requires Beta(c) * e.score < c.demotion && end == boundary + (n - 1) * c.window
    requires e1 == LowStart(e, n, boundary).(score := Beta(c) * e.score, lastRate := 0.0)
    requires Decayed(e.score, Beta(c), n) == Decayed(e1.score, Beta(c), n - 1)
    requires LowAgrees(c, e1, n - 1, boundary + c.window, end)
    ensures Idle(c, e, n, boundary) == Low(c, e, n, boundary, end)
  {
    LowFirst(c, e, n, boundary);
    LowHotJoin(c, e, e1, n, boundary, end, Idle(c, e1, n - 1, boundary + c.window));
  }

  lemma LowFromHot(c: Config, e: Entry, n: nat, boundary: int, end: int)
    requires ValidConfig(c) && 0.0 <= e.score && n >= 1 && e.state == Hot
    requires Beta(c) * e.score < c.demotion && end == boundary + (n - 1) * c.window
    ensures Idle(c, e, n, boundary) == Low(c, e, n, boundary, end)
  {
    var e1 := LowStart(e, n, boundary).(score := Beta(c) * e.score, lastRate := 0.0);
    FirstOf(Beta(c), e.score, e1.score, n);
    Below(Beta(c), e.score, e1.score, c.demotion);
    if n > 1 {
      MulStep(n - 1, c.window);
    }
    LowRest(c, e1, n - 1, boundary + c.window, end);
    LowHotStep(c, e, e1, n, boundary, end);
  }

  lemma LowHotJoin(c: Config, e: Entry, e1: Entry, n: nat, boundary: int, end: int, rest: Progress)
    requires ValidConfig(c) && n >= 1 && e.state == Hot && end == boundary + (n - 1) * c.window
    requires e1 == LowStart(e, n, boundary).(score := Beta(c) * e.score, lastRate := 0.0)
    requires Decayed(e.score, Beta(c), n) == Decayed(e1.score, Beta(c), n - 1)
    requires var last := LowEnd(c, e1, n - 1, end, Decayed(e1.score, Beta(c), n - 1));
      rest == Progress(At(c, last, e1.score, n - 1), Change(e1.key, e1.state, last.state))
    ensures Progress(rest.entry, Change(e.key, Hot, Cooling) + rest.log) == Low(c, e, n, boundary, end)
  {
    LowCoolsLater(c, e, e1, n, boundary, end);
  }

  lemma LowFromElsewhere(c: Config, e: Entry, n: nat, boundary: int, end: int)
    requires ValidConfig(c) && 0.0 <= e.score && n >= 1 && e.state != Hot
    requires Beta(c) * e.score < c.demotion && end == boundary + (n - 1) * c.window
    ensures Idle(c, e, n, boundary) == Low(c, e, n, boundary, end)
  {
    LowRest(c, e.(hotWindows := 0), n, boundary, end);
    IdleForgetsStreak(c, e, n, boundary);
  }

  lemma LowSegment(c: Config, e: Entry, n: nat, boundary: int, end: int)
    requires ValidConfig(c) && 0.0 <= e.score
    requires n >= 1 ==> Beta(c) * e.score < c.demotion && end == boundary + (n - 1) * c.window
    ensures Idle(c, e, n, boundary) == Low(c, e, n, boundary, end)
  {
    if n > 0 {
      if e.state == Hot {
        LowFromHot(c, e, n, boundary, end);
      } else {
        LowFromElsewhere(c, e, n, boundary, end);
      }
    }
  }

  /** An entry that starts to cool in the first window has not cooled by it. */
  lemma LowCoolsLater(c: Config, e: Entry, e1: Entry, n: nat, boundary: int, end: int)
    requires ValidConfig(c) && n >= 1 && e.state == Hot && end == boundary + (n - 1) * c.window
    requires e1 == LowStart(e, n, boundary).(score := Beta(c) * e.score, lastRate := 0.0)
    requires Decayed(e.score, Beta(c), n) == Decayed(e1.score, Beta(c), n - 1)
    ensures At(c, LowEnd(c, e1, n - 1, end, Decayed(e1.score, Beta(c), n - 1)), e1.score, n - 1)
         == At(c, LowEnd(c, LowStart(e, n, boundary), n, end, Decayed(e.score, Beta(c), n)), e.score, n)
  {
  }

  /** A low window forgets the streak. */
  lemma IdleForgetsStreak(c: Config, e: Entry, n: nat, boundary: int)
    requires ValidConfig(c) && n >= 1 && Beta(c) * e.score < c.demotion
    ensures Idle(c, e, n, boundary) == Idle(c, e.(hotWindows := 0), n, boundary)
  {
    IdleScore(c, e, boundary);
    IdleScore(c, e.(hotWindows := 0), boundary);
  }

  // ------------------------------------------------------ all three segments

  /** advanceEntryLocked after its first window: `high` of the `n` remaining
      windows reach the promotion threshold, `mid` more the demotion threshold. */
  function CatchUp(c: Config, e: Entry, high: nat, mid: nat, low: nat, boundary: int): Progress {
    var n := high + mid + low;
    var h := High(c, e, high);
    var m := Mid(h, mid);
    var s := LowStart(m, low, boundary + (high + mid) * c.window);
    var l := LowEnd(c, s, low, boundary + (n - 1) * c.window, Decayed(e.score, Beta(c), n));
    Progress(At(c, l, e.score, n),
             Change(e.key, e.state, h.state) + Change(e.key, h.state, m.state)
             + Change(e.key, m.state, s.state) + Change(e.key, s.state, l.state))
  }

  /** The segments are where the scores say they are. */
  ghost predicate Segmented(c: Config, e: Entry, high: nat, mid: nat, low: nat) {
    && 0.0 <= e.score
    && (e.score >= c.demotion ==> e.state != Cold)
    && IsCount(e.score, Beta(c), c.promotion, high + mid + low, high)
    && IsCount(e.score, Beta(c), c.demotion, high + mid + low, high + mid)
  }

  /** Mid then low, in closed form. */
  function Tail(c: Config, e: Entry, mid: nat, low: nat, start: int, end: int): Progress {
    var m := At(c, Mid(e, mid), e.score, mid);
    var rest := Low(c, m, low, start, end);
    Progress(rest.entry, Change(e.key, e.state, m.state) + rest.log)
  }

  lemma TailSegment(c: Config, e: Entry, mid: nat, low: nat, boundary: int, start: int, end: int)
    requires ValidConfig(c) && 0.0 <= e.score
    requires mid >= 1 ==> Decayed(e.score, Beta(c), mid) >= c.demotion && Beta(c) * e.score < c.promotion
    requires low >= 1 ==> Decayed(e.score, Beta(c), mid + 1) < c.demotion
    requires start == boundary + mid * c.window && end == start + (low - 1) * c.window
    ensures Idle(c, e, mid + low, boundary) == Tail(c, e, mid, low, start, end)
  {
    MidSegment(c, e, mid, boundary);
    var m := At(c, Mid(e, mid), e.score, mid);
    DecayedAdd(e.score, Beta(c), mid, 1);
    DecayedNonNegative(e.score, Beta(c), mid);
    DecayedStep(m.score, Beta(c), 0);
    assert Decayed(e.score, Beta(c), 0) == e.score;
    LowSegment(c, m, low, start, end);
    IdleSplit(c, e, mid, low, boundary, start);
  }

  /** What the counts say about the scores at the ends of the segments. */
  lemma SegmentEnds(c: Config, e: Entry, high: nat, mid: nat, low: nat)
    requires ValidConfig(c) && Segmented(c, e, high, mid, low)
    ensures high >= 1 ==> Decayed(e.score, Beta(c), high) >= c.promotion
    ensures mid >= 1 ==> Decayed(e.score, Beta(c), high + mid) >= c.demotion
    ensures mid >= 1 ==> Decayed(e.score, Beta(c), high + 1) < c.promotion
    ensures low >= 1 ==> Decayed(e.score, Beta(c), high + mid + 1) < c.demotion
  {
  }

  lemma Shifted(score: real, beta: real, high: nat, n: nat, x: real)
    requires x == Decayed(score, beta, high)
    ensures Decayed(x, beta, n) == Decayed(score, beta, high + n)
  {
    DecayedAdd(score, beta, high, n);
  }

  lemma OneOn(score: real, beta: real, high: nat, x: real)
    requires x == Decayed(score, beta, high)
    ensures beta * x == Decayed(score, beta, high + 1)
  {
    DecayedAdd(score, beta, high, 1);
    DecayedStep(x, beta, 0);
    assert Decayed(beta * x, beta, 0) == beta * x;
  }

  lemma MidScores(c: Config, e: Entry, high: nat, mid: nat, low: nat, x: real)
    requires ValidConfig(c) && Segmented(c, e, high, mid, low) && x == Decayed(e.score, Beta(c), high) && mid >= 1
    ensures Decayed(x, Beta(c), mid) >= c.demotion && Decayed(e.score, Beta(c), high + 1) < c.promotion
  {
    SegmentEnds(c, e, high, mid, low);
    Shifted(e.score, Beta(c), high, mid, x);
  }

  lemma LowScores(c: Config, e: Entry, high: nat, mid: nat, low: nat, x: real)
    requires ValidConfig(c) && Segmented(c, e, high, mid, low) && x == Decayed(e.score, Beta(c), high) && low >= 1
    ensures Decayed(x, Beta(c), mid + 1) < c.demotion
  {
    SegmentEnds(c, e, high, mid, low);
    Shifted(e.score, Beta(c), high, mid + 1, x);
  }

  lemma ScoresOf(c: Config, e: Entry, high: nat, mid: nat, low: nat, x: real)
    requires ValidConfig(c) && Segmented(c, e, high, mid, low) && x == Decayed(e.score, Beta(c), high)
    ensures mid >= 1 ==> Decayed(x, Beta(c), mid) >= c.demotion && Beta(c) * x < c.promotion
    ensures low >= 1 ==> Decayed(x, Beta(c), mid + 1) < c.demotion
    ensures 0.0 <= x
  {
    DecayedNonNegative(e.score, Beta(c), high);
    OneOn(e.score, Beta(c), high, x);
    if mid >= 1 {
      MidScores(c, e, high, mid, low, x);
    }
    if low >= 1 {
      LowScores(c, e, high, mid, low, x);
    }
  }

  lemma HighEntry(c: Config, e: Entry, high: nat, mid: nat, low: nat, boundary: int)
    requires ValidConfig(c) && Segmented(c, e, high, mid, low)
    ensures var h := At(c, High(c, e, high), e.score, high);
      Same(c, Idle(c, e, high, boundary).entry, h) && h.score == Decayed(e.score, Beta(c), high)
    ensures Idle(c, e, high, boundary).log == Change(e.key, e.state, High(c, e, high).state)
  {
    assert Decayed(e.score, Beta(c), 0) == e.score;
    if high >= 1 {
      SegmentEnds(c, e, high, mid, low);
      DecayedDecreases(e.score, Beta(c), 0, high);
      HighSegment(c, e, high, boundary);
    }
  }

  lemma TailEntry(c: Config, e: Entry, high: nat, mid: nat, low: nat, h: Entry, boundary: int)
    requires ValidConfig(c) && Segmented(c, e, high, mid, low) && h.score == Decayed(e.score, Beta(c), high)
    ensures Idle(c, h, mid + low, boundary + high * c.window)
         == Tail(c, h, mid, low, boundary + (high + mid) * c.window, boundary + (high + mid + low - 1) * c.window)
  {
    ScoresOf(c, e, high, mid, low, h.score);
    Distribute(high, mid, low, c.window);
    TailSegment(c, h, mid, low, boundary + high * c.window,
                boundary + (high + mid) * c.window, boundary + (high + mid + low - 1) * c.window);
  }

  /** The score part of decaying in three goes. */
  lemma JoinScores(c: Config, score: real, high: nat, mid: nat, low: nat)
    ensures var x := Decayed(score, Beta(c), high);
      var y := Decayed(x, Beta(c), mid);
      && y == Decayed(score, Beta(c), high + mid)
      && Decayed(y, Beta(c), low) == Decayed(score, Beta(c), high + mid + low)
  {
    DecayedAdd(score, Beta(c), high, mid);
    DecayedAdd(score, Beta(c), high + mid, low);
  }

  lemma NoDecay(score: real, beta: real)
    ensures Decayed(score, beta, 0) == score
  {
  }

  /** High, then the tail: the whole closed form. */
  lemma CatchUpJoin(c: Config, e: Entry, high: nat, mid: nat, low: nat, start: int, end: int, h: Entry, m: Entry,
                    fin: real)
    requires high + mid + low >= 1 && h == At(c, High(c, e, high), e.score, high)
    requires m == At(c, Mid(h, mid), h.score, mid)
    requires h.score == Decayed(e.score, Beta(c), high) && m.score == Decayed(e.score, Beta(c), high + mid)
    requires fin == Decayed(e.score, Beta(c), high + mid + low) && fin == Decayed(m.score, Beta(c), low)
    ensures var hh := High(c, e, high);
      var mm := Mid(hh, mid);
      var s := LowStart(mm, low, start);
      var l := LowEnd(c, s, low, end, fin);
      var rest := Tail(c, h, mid, low, start, end);
      && At(c, l, e.score, high + mid + low) == rest.entry
      && Change(e.key, e.state, hh.state) + Change(e.key, hh.state, mm.state) + Change(e.key, mm.state, s.state)
          + Change(e.key, s.state, l.state)
         == Change(e.key, e.state, h.state) + rest.log
  {
    var hh := High(c, e, high);
    assert h == hh.(score := h.score, lastRate := h.lastRate);
    var mm := Mid(hh, mid);
    assert m == mm.(score := m.score, lastRate := m.lastRate);
    LowSame(c, mm, m, low, start, end, fin);
    var s := LowStart(mm, low, start);
    var l := LowEnd(c, s, low, end, fin);
    var x, y := Change(e.key, e.state, hh.state), Change(e.key, hh.state, mm.state);
    var z, w := Change(e.key, mm.state, s.state), Change(e.key, s.state, l.state);
    assert x + y + z + w == x + (y + (z + w));
  }

  /** The low segment looks only at the score it is given. */
  lemma LowSame(c: Config, a: Entry, b: Entry, low: nat, start: int, end: int, fin: real)
    requires b == a.(score := b.score, lastRate := b.lastRate)
    ensures var s, t := LowStart(a, low, start), LowStart(b, low, start);
      var l, k := LowEnd(c, s, low, end, fin), LowEnd(c, t, low, end, fin);
      t == s.(score := b.score, lastRate := b.lastRate) && k == l.(score := b.score, lastRate := b.lastRate)
  {
  }

  lemma ClosedIsTail(c: Config, e: Entry, high: nat, mid: nat, low: nat, boundary: int, h: Entry)
    requires high + mid + low >= 1 && h == At(c, High(c, e, high), e.score, high)
    requires h.score == Decayed(e.score, Beta(c), high)
    ensures var rest := Tail(c, h, mid, low, boundary + (high + mid) * c.window,
                             boundary + (high + mid + low - 1) * c.window);
      CatchUp(c, e, high, mid, low, boundary) == Progress(rest.entry, Change(e.key, e.state, h.state) + rest.log)
  {
    var start, end := boundary + (high + mid) * c.window, boundary + (high + mid + low - 1) * c.window;
    JoinScores(c, e.score, high, mid, low);
    NoDecay(h.score, Beta(c));
    CatchUpJoin(c, e, high, mid, low, start, end, h, At(c, Mid(h, mid), h.score, mid),
                Decayed(e.score, Beta(c), high + mid + low));
  }

  /** Windows can go on from an entry that is the same up to a capped streak. */
  lemma IdleThrough(c: Config, e: Entry, m: nat, n: nat, boundary: int, next: int, h: Entry)
    requires ValidConfig(c) && next == boundary + m * c.window && Same(c, Idle(c, e, m, boundary).entry, h)
    ensures var whole, rest := Idle(c, e, m + n, boundary), Idle(c, h, n, next);
      Same(c, whole.entry, rest.entry) && whole.log == Idle(c, e, m, boundary).log + rest.log
  {
    IdleSame(c, Idle(c, e, m, boundary).entry, h, n, next);
    IdleSplit(c, e, m, n, boundary, next);
  }

  lemma IdleIsTail(c: Config, e: Entry, high: nat, mid: nat, low: nat, boundary: int, h: Entry)
    requires ValidConfig(c) && Segmented(c, e, high, mid, low)
    requires h == At(c, High(c, e, high), e.score, high) && h.score == Decayed(e.score, Beta(c), high)
    ensures var rest := Tail(c, h, mid, low, boundary + (high + mid) * c.window,
                             boundary + (high + mid + low - 1) * c.window);
      && Same(c, Idle(c, e, high + mid + low, boundary).entry, rest.entry)
      && Idle(c, e, high + mid + low, boundary).log == Change(e.key, e.state, h.state) + rest.log
  {
    HighEntry(c, e, high, mid, low, boundary);
    TailEntry(c, e, high, mid, low, h, boundary);
    IdleThrough(c, e, high, mid + low, boundary, boundary + high * c.window, h);
  }

  /** Closed-form catch-up equals iteration, up to capping the streak. */
  lemma CatchUpIsIdle(c: Config, e: Entry, high: nat, mid: nat, low: nat, boundary: int)
    requires ValidConfig(c) && Segmented(c, e, high, mid, low) && high + mid + low >= 1
    ensures Same(c, Idle(c, e, high + mid + low, boundary).entry, CatchUp(c, e, high, mid, low, boundary).entry)
    ensures Idle(c, e, high + mid + low, boundary).log == CatchUp(c, e, high, mid, low, boundary).log
  {
    var h := At(c, High(c, e, high), e.score, high);
    NoDecay(e.score, Beta(c));
    IdleIsTail(c, e, high, mid, low, boundary, h);
    ClosedIsTail(c, e, high, mid, low, boundary, h);
  }

  lemma Distribute(a: int, b: int, d: int, w: int)
    ensures (a + b) * w == a * w + b * w
    ensures (a + b + d - 1) * w == (a + b) * w + (d - 1) * w
  {
  }
}
