/** An entry and the history of events it has been through since it was admitted
    to the ring: requests, elapsed windows, explicit admissions. */
module HotnessHistory {
  import opened HotnessModel
  import opened HotnessEarly

  lemma OneWindowSame(c: Config, a: Entry, b: Entry, rate: real, boundary: int)
    requires ValidConfig(c) && Same(c, a, b)
    ensures Same(c, OneWindow(c, a, rate, boundary), OneWindow(c, b, rate, boundary))
  {
    var score := c.alpha * rate + Beta(c) * a.score;
    ApplyStateSame(c, a.(score := score, lastRate := rate), b.(score := score, lastRate := rate), boundary);
  }

  lemma ElapseSame(c: Config, a: Entry, b: Entry, n: nat, boundary: int)
    requires ValidConfig(c) && Same(c, a, b)
    ensures Same(c, Elapse(c, a, n, boundary).entry, Elapse(c, b, n, boundary).entry)
    ensures Elapse(c, a, n, boundary).log == Elapse(c, b, n, boundary).log
  {
    if n > 0 {
      var rate := Rate(c, a.count);
      OneWindowSame(c, a, b, rate, boundary);
      IdleSame(c, OneWindow(c, a, rate, boundary), OneWindow(c, b, rate, boundary), n - 1, boundary + c.window);
    }
  }

  /** No event tells apart two entries that differ only in a long enough streak. */
  lemma EventSame(c: Config, a: Entry, b: Entry, ev: Event)
    requires ValidConfig(c) && Same(c, a, b)
    ensures Same(c, Early(c, a, ev), Early(c, b, ev))
  {
    if ev.Elapsed? {
      ElapseSame(c, a, b, ev.n, ev.boundary);
    }
  }

  lemma EventTidy(c: Config, e: Entry, ev: Event)
    requires ValidConfig(c) && Tidy(e)
    ensures Tidy(Early(c, e, ev))
  {
    if ev.Elapsed? {
      ElapseTidy(c, e, ev.n, ev.boundary);
    }
  }

  /** The entry is what its history makes of a new entry. */
  ghost predicate Follows(c: Config, e: Entry, key: string, evs: seq<Event>)
    requires ValidConfig(c)
  {
    e.key == key && Tidy(e) && Same(c, e, EarlyAll(c, NewEntry(key), evs))
  }

  lemma FollowsStep(c: Config, e: Entry, e': Entry, key: string, evs: seq<Event>, ev: Event)
    requires ValidConfig(c) && Follows(c, e, key, evs)
    requires e'.key == key && Same(c, e', Early(c, e, ev))
    ensures Follows(c, e', key, evs + [ev])
  {
    EventTidy(c, e, ev);
    EventSame(c, e, EarlyAll(c, NewEntry(key), evs), ev);
    assert (evs + [ev])[..|evs|] == evs;
  }

  // ------------------------------------------------------- extra advances

  lemma AfterWindow(c: Config, e: Entry, n: nat, boundary: int)
    requires ValidConfig(c) && e.count == 0
    ensures Elapse(c, e, n, boundary) == Progress(Idle(c, e, n, boundary).entry.(count := 0),
                                                  Idle(c, e, n, boundary).log)
  {
    assert Rate(c, 0) == 0.0;
    if n == 0 {
      assert e == e.(count := 0);
    }
  }

  lemma {:induction false} IdleKeepsCount(c: Config, e: Entry, n: nat, boundary: int, count: nat)
    ensures Idle(c, e.(count := count), n, boundary)
         == Progress(Idle(c, e, n, boundary).entry.(count := count), Idle(c, e, n, boundary).log)
    decreases n
  {
    if n > 0 {
      var e1 := OneWindow(c, e, 0.0, boundary);
      assert OneWindow(c, e.(count := count), 0.0, boundary) == e1.(count := count);
      IdleKeepsCount(c, e1, n - 1, boundary + c.window, count);
    }
  }

  /** Advancing in two calls with no request in between gives the same entry and
      the same transitions as advancing once. */
  lemma ExtraAdvance(c: Config, e: Entry, m: nat, n: nat, boundary: int)
    requires ValidConfig(c)
    ensures var first := Elapse(c, e, m, boundary);
      var rest := Elapse(c, first.entry, n, boundary + m * c.window);
      Elapse(c, e, m + n, boundary) == Progress(rest.entry, first.log + rest.log)
  {
    if m > 0 {
      var e1 := OneWindow(c, e, Rate(c, e.count), boundary);
      var head := Change(e.key, e.state, e1.state);
      var next := boundary + c.window;
      var later := boundary + m * c.window;
      MulStep(m, c.window);
      IdleSplit(c, e1, m - 1, n, next, later);
      var first := Idle(c, e1, m - 1, next);
      IdleKeepsCount(c, first.entry, n, later, 0);
      AfterWindow(c, first.entry.(count := 0), n, later);
      var rest := Idle(c, first.entry, n, later);
      assert head + (first.log + rest.log) == (head + first.log) + rest.log;
    }
  }

  /** Splitting an advance changes nothing a later history can see. */
  lemma {:induction false} ExtraAdvanceInHistory(c: Config, key: string, evs: seq<Event>, m: nat, n: nat, boundary: int,
                                                 later: seq<Event>)
    requires ValidConfig(c)
    ensures EarlyAll(c, NewEntry(key), evs + [Elapsed(m, boundary), Elapsed(n, boundary + m * c.window)] + later)
         == EarlyAll(c, NewEntry(key), evs + [Elapsed(m + n, boundary)] + later)
    decreases |later|
  {
    var one, two := [Elapsed(m + n, boundary)], [Elapsed(m, boundary), Elapsed(n, boundary + m * c.window)];
    if later == [] {
      var e := EarlyAll(c, NewEntry(key), evs);
      ExtraAdvance(c, e, m, n, boundary);
      assert (evs + one + later)[..|evs|] == evs;
      assert (evs + two + later)[..|evs| + 1] == evs + [two[0]];
      assert (evs + [two[0]])[..|evs|] == evs;
    } else {
      var init := later[..|later| - 1];
      ExtraAdvanceInHistory(c, key, evs, m, n, boundary, init);
      assert (evs + one + later)[..|evs| + |later|] == evs + one + init;
      assert (evs + two + later)[..|evs| + 1 + |later|] == evs + two + init;
    }
  }
}
