/** How elapsed windows change a tracked entry, step by step as the tracker does it. */
module HotnessAdvance {
  import opened HotnessModel
  import opened HotnessDecay
  import opened HotnessCatchUp
  import opened HotnessEarly

  /** More windows reach the lower threshold than the higher one. */
  lemma CountsOrdered(c: Config, score: real, n: nat, high: int, above: int)
    requires ValidConfig(c) && n >= 1
    requires IsCount(score, Beta(c), c.promotion, n, high) && IsCount(score, Beta(c), c.demotion, n, above)
    ensures 0 <= high <= above <= n
  {
    if high >= 1 {
      assert Decayed(score, Beta(c), high) >= c.promotion;
    }
  }

  /** Closed form and reference, from the entry before the first window. */
  lemma CatchUpIsElapse(c: Config, e: Entry, e1: Entry, high: nat, mid: nat, low: nat, boundary: int)
    requires ValidConfig(c) && high + mid + low >= 1
    requires e1 == OneWindow(c, e, Rate(c, e.count), boundary)
    requires Segmented(c, e1, high, mid, low)
    ensures var closed := CatchUp(c, e1, high, mid, low, boundary + c.window);
      var n := high + mid + low + 1;
      && Same(c, closed.entry.(count := 0), Elapse(c, e, n, boundary).entry)
      && Elapse(c, e, n, boundary).log == Change(e.key, e.state, e1.state) + closed.log
  {
    CatchUpIsIdle(c, e1, high, mid, low, boundary + c.window);
  }

  /** Running the three segments on an entry gives the closed form. */
  lemma Compose(c: Config, e: Entry, h: Entry, m: Entry, l: Entry, high: nat, mid: nat, low: nat, first: int,
                score: real)
    requires high + mid + low >= 1 && score == Decayed(e.score, Beta(c), high + mid + low)
    requires h == High(c, e.(lastRate := 0.0), high) && m == Mid(h, mid)
    requires l == LowEnd(c, LowStart(m, low, first + (high + mid + 1) * c.window), low,
                         first + (high + mid + low) * c.window, score)
    ensures var closed := CatchUp(c, e, high, mid, low, first + c.window);
      var s := LowStart(m, low, first + (high + mid + 1) * c.window);
      && l.(score := score) == closed.entry
      && Change(e.key, e.state, h.state) + Change(e.key, h.state, m.state)
         + (Change(e.key, m.state, s.state) + Change(e.key, s.state, l.state)) == closed.log
  {
    Boundaries(c, high, mid, low, first);
    var s := LowStart(m, low, first + (high + mid + 1) * c.window);
    var x, y := Change(e.key, e.state, h.state), Change(e.key, h.state, m.state);
    var z, w := Change(e.key, m.state, s.state), Change(e.key, s.state, l.state);
    assert x + y + (z + w) == x + y + z + w;
  }

  /** tracker.go applyStateLocked. */
  method ApplyStateTo(c: Config, entry: Entry, now: int) returns (e: Entry, ts: seq<Transition>)
    ensures e == ApplyState(c, entry, now)
    ensures ts == Change(entry.key, entry.state, e.state)
  {
    e := entry;
    var before, score := e.state, e.score;
    if score >= c.promotion {
      e := e.(hotWindows := e.hotWindows + 1);
      if e.state == Cooling {
        e := e.(state := Hot, coolingAt := 0);
      } else if e.hotWindows >= c.minWindows {
        e := e.(state := Hot);
      } else if e.state == Cold {
        e := e.(state := Warm);
      }
    } else if score >= c.demotion {
      e := e.(hotWindows := 0);
      if e.state == Cold {
        e := e.(state := Warm);
      }
    } else {
      e := e.(hotWindows := 0);
      if e.state == Hot {
        e := e.(state := Cooling, coolingAt := now);
      } else if e.state == Cooling && now - e.coolingAt >= c.cooldown {
        e := e.(state := Cold, coolingAt := 0);
      } else if e.state == Warm && score == 0.0 {
        e := e.(state := Cold);
      }
    }
    ts := if before == e.state then [] else [Transition(e.key, before, e.state)];
  }

  method CatchUpHigh(c: Config, entry: Entry, high: nat) returns (e: Entry, ts: seq<Transition>)
    requires ValidConfig(c)
    ensures e == High(c, entry, high)
    ensures ts == Change(entry.key, entry.state, e.state)
  {
    e, ts := entry, [];
    if high > 0 {
      var before := e.state;
      if e.state == Cooling {
        e := e.(state := Hot, coolingAt := 0);
      }
      var needed := c.minWindows - e.hotWindows;
      if needed < 0 {
        needed := 0;
      }
      if e.state != Hot && high >= needed {
        e := e.(state := Hot);
      }
      if high >= c.minWindows || e.hotWindows + high >= c.minWindows {
        e := e.(hotWindows := c.minWindows);
      } else {
        e := e.(hotWindows := e.hotWindows + high);
      }
      if before != e.state {
        ts := [Transition(e.key, before, e.state)];
      }
    }
  }

  method CatchUpMid(entry: Entry, mid: nat) returns (e: Entry, ts: seq<Transition>)
    ensures e == Mid(entry, mid)
    ensures ts == Change(entry.key, entry.state, e.state)
  {
    e, ts := entry, [];
    if mid > 0 {
      var before := e.state;
      e := e.(hotWindows := 0);
      if e.state == Cold {
        e := e.(state := Warm);
      }
      if before != e.state {
        ts := [Transition(e.key, before, e.state)];
      }
    }
  }

  method CatchUpLow(c: Config, entry: Entry, low: nat, start: int, end: int, finalScore: real)
    returns (e: Entry, ts: seq<Transition>)
    ensures var s := LowStart(entry, low, start);
      && e == LowEnd(c, s, low, end, finalScore)
      && ts == Change(entry.key, entry.state, s.state) + Change(entry.key, s.state, e.state)
  {
    e, ts := entry, [];
    if low > 0 {
      e := e.(hotWindows := 0);
      if e.state == Hot {
        e := e.(state := Cooling, coolingAt := start);
        ts := ts + [Transition(e.key, Hot, Cooling)];
      }
      if e.state == Cooling && end - e.coolingAt >= c.cooldown {
        e := e.(state := Cold, coolingAt := 0);
        ts := ts + [Transition(e.key, Cooling, Cold)];
      } else if e.state == Warm && finalScore == 0.0 {
        e := e.(state := Cold);
        ts := ts + [Transition(e.key, Warm, Cold)];
      }
    }
  }

  /** All windows after the first, by threshold segments. */
  method CatchUpRest(c: Config, entry: Entry, remaining: nat, firstBoundary: int)
    returns (e: Entry, ts: seq<Transition>, high: nat, mid: nat, low: nat)
    requires ValidConfig(c) && remaining >= 1 && Tidy(entry)
    requires entry.score >= c.demotion ==> entry.state != Cold
    ensures high + mid + low == remaining && Segmented(c, entry, high, mid, low)
    ensures e == CatchUp(c, entry, high, mid, low, firstBoundary + c.window).entry
    ensures ts == CatchUp(c, entry, high, mid, low, firstBoundary + c.window).log
  {
    var beta, firstScore := Beta(c), entry.score;
    // The logarithm estimates: any integers will do.
    var guess: int, guess': int := *, *;
    var highWindows := DecayWindowsAtLeast(firstScore, beta, c.promotion, remaining, guess);
    var atLeastDemotion := DecayWindowsAtLeast(firstScore, beta, c.demotion, remaining, guess');
    CountsOrdered(c, firstScore, remaining, highWindows, atLeastDemotion);
    var midWindows := atLeastDemotion - highWindows;
    var lowWindows := remaining - atLeastDemotion;
    high, mid, low := highWindows, midWindows, lowWindows;

    var h, t1 := CatchUpHigh(c, entry.(lastRate := 0.0), highWindows);
    var m, t2 := CatchUpMid(h, midWindows);
    var finalScore := firstScore * Pow(beta, remaining);
    var lowStart := firstBoundary + (highWindows + midWindows + 1) * c.window;
    var finalBoundary := firstBoundary + remaining * c.window;
    var l, t3 := CatchUpLow(c, m, lowWindows, lowStart, finalBoundary, finalScore);
    Compose(c, entry, h, m, l, high, mid, low, firstBoundary, finalScore);
    e := l.(score := finalScore);
    ts := t1 + t2 + t3;
  }

  /** tracker.go advanceEntryLocked: the closed form gives the entry and the
      transitions of one window at a time. */
  method AdvanceEntry(c: Config, entry: Entry, rate: real, elapsed: int, firstBoundary: int)
    returns (e: Entry, ts: seq<Transition>)
    requires ValidConfig(c) && elapsed >= 1 && Tidy(entry) && rate == Rate(c, entry.count)
    ensures Same(c, e.(count := 0), Elapse(c, entry, elapsed, firstBoundary).entry)
    ensures ts == Elapse(c, entry, elapsed, firstBoundary).log
  {
    var firstScore := c.alpha * rate + Beta(c) * entry.score;
    FirstTidy(c, entry, rate, firstBoundary);
    var e1, t1 := ApplyStateTo(c, entry.(score := firstScore, lastRate := rate), firstBoundary);
    if elapsed == 1 {
      return e1, t1;
    }
    var e2, t2, high, mid, low := CatchUpRest(c, e1, elapsed - 1, firstBoundary);
    CatchUpIsElapse(c, entry, e1, high, mid, low, firstBoundary);
    return e2, t1 + t2;
  }

  lemma FirstTidy(c: Config, e: Entry, rate: real, boundary: int)
    requires ValidConfig(c) && Tidy(e) && rate == Rate(c, e.count)
    ensures var e1 := OneWindow(c, e, rate, boundary);
      Tidy(e1) && (e1.score >= c.demotion ==> e1.state != Cold)
  {
    DivMono(0.0, e.count as real, c.seconds);
    NonNegative(c.alpha, rate);
    NonNegative(Beta(c), e.score);
  }

  lemma Boundaries(c: Config, high: nat, mid: nat, low: nat, first: int)
    ensures first + (high + mid + 1) * c.window == (first + c.window) + (high + mid) * c.window
    ensures first + (high + mid + low) * c.window == (first + c.window) + (high + mid + low - 1) * c.window
  {
  }
}
