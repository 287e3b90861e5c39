/** Hotness states, entries, and what one scoring window does to an entry. This
    is the reference: the tracker's closed-form catch-up is proved against it. */
module HotnessModel {

  datatype Heat = Cold | Warm | Hot | Cooling

  datatype Transition = Transition(key: string, from: Heat, to: Heat)

  /** Validated configuration. Instants and durations are integers; `seconds` is
      the window length the request rate is divided by. */
  datatype Config = Config(
    window: int, seconds: real, alpha: real, promotion: real, demotion: real,
    minWindows: int, cooldown: int, maxTracked: int)

  predicate ValidConfig(c: Config) {
    && 0 < c.window && 0.0 < c.seconds
    && 0.0 < c.alpha <= 1.0
    && 0.0 < c.demotion < c.promotion
    && 1 <= c.minWindows && 0 < c.cooldown && 1 <= c.maxTracked
  }

  const SECOND := 1_000_000_000

  /** The settings New takes as they are: it does not look at them, so the caller has to
      have validated them. */
  predicate Usable(c: Config) { 0.0 < c.demotion < c.promotion && 0 < c.cooldown }

  /** tracker.go New: what it puts in place of settings out of range. `seconds` is the
      length of the window, so it is positive when the window is. */
  function Normalized(c: Config): (r: Config)
    requires c.window > 0 ==> 0.0 < c.seconds
    ensures ValidConfig(r) <==> Usable(c)
    ensures ValidConfig(c) ==> r == c
  {
    c.(window := if c.window <= 0 then SECOND else c.window,
       seconds := if c.window <= 0 then 1.0 else c.seconds,
       alpha := if c.alpha <= 0.0 || c.alpha > 1.0 then 0.5 else c.alpha,
       minWindows := if c.minWindows <= 0 then 2 else c.minWindows,
       maxTracked := if c.maxTracked <= 0 then 1 else c.maxTracked)
  }

  /** `coolingAt` is 0, the zero time, unless the entry is cooling. */
  datatype Entry = Entry(
    key: string, state: Heat, score: real, count: nat, lastRate: real, hotWindows: nat, coolingAt: int)

  function NewEntry(key: string): Entry { Entry(key, Cold, 0.0, 0, 0.0, 0, 0) }

  function Beta(c: Config): real { 1.0 - c.alpha }

  function Rate(c: Config, count: nat): real
    requires ValidConfig(c)
  {
    count as real / c.seconds
  }

  /** tracker.go applyStateLocked, on the score the entry has now. */
  function ApplyState(c: Config, e: Entry, now: int): Entry {
    if e.score >= c.promotion then
      var n := e.hotWindows + 1;
      if e.state == Cooling then e.(hotWindows := n, state := Hot, coolingAt := 0)
      else if n >= c.minWindows then e.(hotWindows := n, state := Hot)
      else if e.state == Cold then e.(hotWindows := n, state := Warm)
      else e.(hotWindows := n)
    else if e.score >= c.demotion then
      e.(hotWindows := 0, state := if e.state == Cold then Warm else e.state)
    else if e.state == Hot then e.(hotWindows := 0, state := Cooling, coolingAt := now)
    else if e.state == Cooling && now - e.coolingAt >= c.cooldown then
      e.(hotWindows := 0, state := Cold, coolingAt := 0)
    else if e.state == Warm && e.score == 0.0 then e.(hotWindows := 0, state := Cold)
    else e.(hotWindows := 0)
  }

  function Change(key: string, before: Heat, after: Heat): seq<Transition> {
    if before == after then [] else [Transition(key, before, after)]
  }

  /** One completed window with the given request rate, ending at `boundary`. */
  function OneWindow(c: Config, e: Entry, rate: real, boundary: int): Entry {
    ApplyState(c, e.(score := c.alpha * rate + Beta(c) * e.score, lastRate := rate), boundary)
  }

  datatype Progress = Progress(entry: Entry, log: seq<Transition>)

  /** n empty windows, one at a time; the first ends at `boundary`. */
  function Idle(c: Config, e: Entry, n: nat, boundary: int): Progress
    decreases n
  {
    if n == 0 then Progress(e, [])
    else
      var e1 := OneWindow(c, e, 0.0, boundary);
      var rest := Idle(c, e1, n - 1, boundary + c.window);
      Progress(rest.entry, Change(e.key, e.state, e1.state) + rest.log)
  }

  /** n elapsed windows, one at a time: the counted requests belong to the oldest. */
  function Elapse(c: Config, e: Entry, n: nat, boundary: int): Progress
    requires ValidConfig(c)
  {
    if n == 0 then Progress(e, [])
    else
      var e1 := OneWindow(c, e, Rate(c, e.count), boundary);
      var rest := Idle(c, e1, n - 1, boundary + c.window);
      Progress(rest.entry.(count := 0), Change(e.key, e.state, e1.state) + rest.log)
  }

  // ------------------------------------------ equality up to capped streaks

  function Capped(c: Config, n: nat): int { if n < c.minWindows then n else c.minWindows }

  /** Equal, except that hot-window streaks may differ above the minimum. */
  predicate Same(c: Config, a: Entry, b: Entry) {
    a == b.(hotWindows := a.hotWindows) && Capped(c, a.hotWindows) == Capped(c, b.hotWindows)
  }

  /** Nothing that happens to an entry depends on the streak above the minimum. */
  lemma ApplyStateSame(c: Config, a: Entry, b: Entry, now: int)
    requires ValidConfig(c) && Same(c, a, b)
    ensures Same(c, ApplyState(c, a, now), ApplyState(c, b, now))
  {
  }

  lemma {:induction false} IdleSame(c: Config, a: Entry, b: Entry, n: nat, boundary: int)
    requires ValidConfig(c) && Same(c, a, b)
    ensures Same(c, Idle(c, a, n, boundary).entry, Idle(c, b, n, boundary).entry)
    ensures Idle(c, a, n, boundary).log == Idle(c, b, n, boundary).log
    decreases n
  {
    if n > 0 {
      var a1, b1 := OneWindow(c, a, 0.0, boundary), OneWindow(c, b, 0.0, boundary);
      ApplyStateSame(c, a.(score := Beta(c) * a.score, lastRate := 0.0),
                     b.(score := Beta(c) * b.score, lastRate := 0.0), boundary);
      assert c.alpha * 0.0 + Beta(c) * a.score == Beta(c) * a.score;
      IdleSame(c, a1, b1, n - 1, boundary + c.window);
    }
  }

  /** Windows can be applied in two goes; `mid` is where the second begins. */
  lemma {:induction false} IdleSplit(c: Config, e: Entry, m: nat, n: nat, boundary: int, mid: int)
    requires mid == boundary + m * c.window
    ensures Idle(c, e, m + n, boundary) ==
              var first := Idle(c, e, m, boundary);
              var rest := Idle(c, first.entry, n, mid);
              Progress(rest.entry, first.log + rest.log)
    decreases m
  {
    if m > 0 {
      var e1 := OneWindow(c, e, 0.0, boundary);
      MulStep(m, c.window);
      IdleSplit(c, e1, m - 1, n, boundary + c.window, mid);
      var head := Change(e.key, e.state, e1.state);
      var first := Idle(c, e1, m - 1, boundary + c.window);
      var rest := Idle(c, first.entry, n, mid);
      assert head + (first.log + rest.log) == (head + first.log) + rest.log;
    }
  }

  lemma MulStep(m: nat, w: int)
    requires m > 0
    ensures m * w == w + (m - 1) * w
  {
  }
}
