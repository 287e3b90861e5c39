/** When a key is HOT and when it is COOLING, said from the scores of its windows alone:
    the streaks and cooldowns a history holds, not the counters the tracker keeps. */
module HotnessStreak {
  import opened HotnessModel
  import opened HotnessEarly

  /** A window ends with a score, or the key is admitted explicitly. */
  datatype Tick = Window(score: real, at: int) | Admit

  /** What a history amounts to: the current score and rate, the requests of the open
      window, and its ticks. */
  datatype Tally = Tally(score: real, rate: real, count: nat, ticks: seq<Tick>)

  /** The moving average of request rates. */
  function Average(c: Config, rate: real, score: real): real { c.alpha * rate + (1.0 - c.alpha) * score }

  lemma AverageIs(c: Config, rate: real, score: real)
    ensures c.alpha * rate + Beta(c) * score == Average(c, rate, score)
  {
  }

  /** A window with this request rate ends. */
  function Ended(c: Config, t: Tally, rate: real, boundary: int): Tally {
    var score := Average(c, rate, t.score);
    t.(score := score, rate := rate, ticks := t.ticks + [Window(score, boundary)])
  }

  /** n windows end without a request; the first at `boundary`. */
  function Unused(c: Config, t: Tally, n: nat, boundary: int): Tally
    decreases n
  {
    if n == 0 then t else Unused(c, Ended(c, t, 0.0, boundary), n - 1, boundary + c.window)
  }

  /** The counted requests belong to the first window that ends. */
  function Tallied(c: Config, t: Tally, ev: Event): Tally
    requires ValidConfig(c)
  {
    match ev
    case Request => t.(count := t.count + 1)
    case Elapsed(n, boundary) =>
      if n == 0 then t
      else Unused(c, Ended(c, t.(count := 0), t.count as real / c.seconds, boundary), n - 1, boundary + c.window)
    case Admission => t.(ticks := t.ticks + [Admit])
  }

  function TallyAll(c: Config, evs: seq<Event>): Tally
    requires ValidConfig(c)
  {
    if evs == [] then Tally(0.0, 0.0, 0, []) else Tallied(c, TallyAll(c, evs[..|evs| - 1]), evs[|evs| - 1])
  }

  /** What the ticks make of a new entry. */
  function Told(c: Config, ticks: seq<Tick>): Entry {
    if ticks == [] then NewEntry("")
    else
      var e := Told(c, ticks[..|ticks| - 1]);
      match ticks[|ticks| - 1]
      case Window(score, at) => ApplyState(c, e.(score := score), at)
      case Admit => Admitted(e)
  }

  /** The state of a key once these ticks are behind it. */
  function StateAt(c: Config, ticks: seq<Tick>): Heat { Told(c, ticks).state }

  // ------------------------------------------------- histories and their ticks

  /** The entry agrees with the ticks, its score and rate with the tally. */
  ghost predicate Tells(c: Config, e: Entry, t: Tally) {
    e == Told(c, t.ticks).(key := e.key, score := t.score, lastRate := t.rate, count := e.count)
  }

  lemma ToldOne(c: Config, ticks: seq<Tick>, tick: Tick)
    ensures Told(c, ticks + [tick]) ==
      match tick
      case Window(score, at) => ApplyState(c, Told(c, ticks).(score := score), at)
      case Admit => Admitted(Told(c, ticks))
  {
    assert (ticks + [tick])[..|ticks|] == ticks;
  }

  lemma ApplyStateFrame(c: Config, e: Entry, key: string, rate: real, count: nat, now: int)
    ensures var e' := ApplyState(c, e.(key := key, lastRate := rate, count := count), now);
      e' == ApplyState(c, e, now).(key := key, lastRate := rate, count := count) && e'.score == e.score
  {
  }

  lemma ScoredTells(c: Config, e: Entry, t: Tally, rate: real, score: real, boundary: int)
    requires Tells(c, e, t)
    ensures Tells(c, ApplyState(c, e.(score := score, lastRate := rate), boundary),
                  t.(score := score, rate := rate, ticks := t.ticks + [Window(score, boundary)]))
  {
    ToldOne(c, t.ticks, Window(score, boundary));
    ApplyStateFrame(c, Told(c, t.ticks).(score := score), e.key, rate, e.count, boundary);
  }

  lemma WindowTells(c: Config, e: Entry, t: Tally, rate: real, boundary: int)
    requires Tells(c, e, t)
    ensures Tells(c, OneWindow(c, e, rate, boundary), Ended(c, t, rate, boundary))
  {
    AverageIs(c, rate, t.score);
    ScoredTells(c, e, t, rate, Average(c, rate, t.score), boundary);
  }

  lemma {:induction false} IdleTells(c: Config, e: Entry, t: Tally, n: nat, boundary: int)
    requires Tells(c, e, t)
    ensures Tells(c, Idle(c, e, n, boundary).entry, Unused(c, t, n, boundary))
    ensures Unused(c, t, n, boundary).count == t.count
    decreases n
  {
    if n > 0 {
      WindowTells(c, e, t, 0.0, boundary);
      IdleTells(c, OneWindow(c, e, 0.0, boundary), Ended(c, t, 0.0, boundary), n - 1, boundary + c.window);
    }
  }

  lemma ElapseTells(c: Config, e: Entry, t: Tally, n: nat, boundary: int)
    requires ValidConfig(c) && Tells(c, e, t) && e.count == t.count
    ensures var e', t' := Elapse(c, e, n, boundary).entry, Tallied(c, t, Elapsed(n, boundary));
      Tells(c, e', t') && e'.count == t'.count
  {
    if n > 0 {
      var rate := Rate(c, e.count);
      WindowTells(c, e, t.(count := 0), rate, boundary);
      IdleTells(c, OneWindow(c, e, rate, boundary), Ended(c, t.(count := 0), rate, boundary), n - 1,
                boundary + c.window);
    }
  }

  lemma EventTells(c: Config, e: Entry, t: Tally, ev: Event)
    requires ValidConfig(c) && Tells(c, e, t) && e.count == t.count
    ensures Tells(c, Plain(c, e, ev), Tallied(c, t, ev)) && Plain(c, e, ev).count == Tallied(c, t, ev).count
  {
    match ev
    case Request =>
    case Elapsed(n, boundary) => ElapseTells(c, e, t, n, boundary);
    case Admission => ToldOne(c, t.ticks, Admit);
  }

  lemma {:induction false} PlainTells(c: Config, key: string, evs: seq<Event>)
    requires ValidConfig(c)
    ensures Tells(c, PlainAll(c, NewEntry(key), evs), TallyAll(c, evs))
    ensures PlainAll(c, NewEntry(key), evs).count == TallyAll(c, evs).count
    decreases |evs|
  {
    if evs != [] {
      var init := evs[..|evs| - 1];
      PlainTells(c, key, init);
      EventTells(c, PlainAll(c, NewEntry(key), init), TallyAll(c, init), evs[|evs| - 1]);
    }
  }

  // ----------------------------------------------------------------- streaks

  predicate High(c: Config, tick: Tick) { tick.Window? && tick.score >= c.promotion }

  predicate Low(c: Config, tick: Tick) { tick.Window? && tick.score < c.demotion }

  /** The last k ticks are windows that ended at or above the promotion threshold. */
  predicate Streak(c: Config, ticks: seq<Tick>, k: int) {
    0 <= k <= |ticks| && forall j :: |ticks| - k <= j < |ticks| ==> High(c, ticks[j])
  }

  /** The counter is the longest streak, or at least as long in a HOT key. */
  ghost predicate Counts(c: Config, ticks: seq<Tick>) {
    var e := Told(c, ticks);
    && (forall k :: Streak(c, ticks, k) ==> k <= e.hotWindows)
    && (e.state != Hot ==> Streak(c, ticks, e.hotWindows))
    && (e.state == Cold || e.state == Warm ==> e.hotWindows < c.minWindows)
  }

  lemma StreakGrows(c: Config, ticks: seq<Tick>, tick: Tick, k: int)
    ensures Streak(c, ticks + [tick], k) <==> k == 0 || (High(c, tick) && Streak(c, ticks, k - 1))
  {
    var all := ticks + [tick];
    if k != 0 && High(c, tick) && Streak(c, ticks, k - 1) {
      assert forall j :: |all| - k <= j < |ticks| ==> all[j] == ticks[j];
    }
    if k != 0 && Streak(c, all, k) {
      assert High(c, all[|ticks|]);
      forall j | |ticks| - (k - 1) <= j < |ticks| ensures High(c, ticks[j]) {
        assert High(c, all[j]);
      }
    }
  }

  lemma CountsOne(c: Config, ticks: seq<Tick>, tick: Tick)
    requires ValidConfig(c) && Counts(c, ticks)
    ensures Counts(c, ticks + [tick])
  {
    var e := Told(c, ticks + [tick]);
    ToldOne(c, ticks, tick);
    forall k | Streak(c, ticks + [tick], k) ensures k <= e.hotWindows {
      StreakGrows(c, ticks, tick, k);
    }
    StreakGrows(c, ticks, tick, e.hotWindows);
  }

  lemma {:induction false} AlwaysCounts(c: Config, ticks: seq<Tick>)
    requires ValidConfig(c)
    ensures Counts(c, ticks)
    decreases |ticks|
  {
    if ticks != [] {
      var n := |ticks| - 1;
      AlwaysCounts(c, ticks[..n]);
      CountsOne(c, ticks[..n], ticks[n]);
      assert ticks[..n] + [ticks[n]] == ticks;
    }
  }

  /** One tick more. */
  lemma LastTick(c: Config, ticks: seq<Tick>)
    requires ticks != []
    ensures var n := |ticks| - 1; ticks[..n] + [ticks[n]] == ticks
  {
  }

  /** Without an admission, and not out of COOLING, a key becomes HOT exactly with the
      window that completes the required streak. */
  lemma PromotedByStreak(c: Config, ticks: seq<Tick>)
    requires ValidConfig(c) && ticks != [] && ticks[|ticks| - 1].Window?
    requires var before := StateAt(c, ticks[..|ticks| - 1]); before != Hot && before != Cooling
    ensures StateAt(c, ticks) == Hot <==> Streak(c, ticks, c.minWindows)
  {
    AlwaysCounts(c, ticks);
    var n := |ticks| - 1;
    AlwaysCounts(c, ticks[..n]);
    LastTick(c, ticks);
    StreakGrows(c, ticks[..n], ticks[n], c.minWindows);
    StreakShrinks(c, ticks[..n], Told(c, ticks[..n]).hotWindows, c.minWindows - 1);
  }

  lemma StreakShrinks(c: Config, ticks: seq<Tick>, k: int, less: int)
    requires Streak(c, ticks, k) && 0 <= less
    ensures less <= k ==> Streak(c, ticks, less)
  {
  }

  /** Whatever came before, that streak makes a key HOT. */
  lemma StreakIsHot(c: Config, ticks: seq<Tick>)
    requires ValidConfig(c) && Streak(c, ticks, c.minWindows)
    ensures StateAt(c, ticks) == Hot
  {
    AlwaysCounts(c, ticks);
    assert High(c, ticks[|ticks| - 1]);
  }

  // ---------------------------------------------------------------- HOT keys

  /** With tick i-1 the key becomes HOT, or is HOT again: by admission, by the streak, or
      by a single high window while it cools. */
  ghost predicate Heats(c: Config, ticks: seq<Tick>, i: nat)
    requires i <= |ticks|
  {
    && i > 0
    && (ticks[i - 1].Admit? || Streak(c, ticks[..i], c.minWindows)
        || (High(c, ticks[i - 1]) && StateAt(c, ticks[..i - 1]) == Cooling))
  }

  /** No window from tick i on ended below the demotion threshold. */
  predicate NoneLow(c: Config, ticks: seq<Tick>, i: nat) {
    forall j :: i <= j < |ticks| ==> !Low(c, ticks[j])
  }

  ghost predicate HotSince(c: Config, ticks: seq<Tick>, i: nat) {
    i <= |ticks| && Heats(c, ticks, i) && NoneLow(c, ticks, i)
  }

  lemma HeatsIsHot(c: Config, ticks: seq<Tick>)
    requires ValidConfig(c) && Heats(c, ticks, |ticks|)
    ensures StateAt(c, ticks) == Hot
  {
    assert ticks[..|ticks|] == ticks;
    if Streak(c, ticks, c.minWindows) {
      StreakIsHot(c, ticks);
    }
  }

  lemma HotSinceOne(c: Config, ticks: seq<Tick>, i: nat)
    requires ticks != [] && i < |ticks|
    ensures HotSince(c, ticks, i) <==> HotSince(c, ticks[..|ticks| - 1], i) && !Low(c, ticks[|ticks| - 1])
  {
    var init := ticks[..|ticks| - 1];
    assert init[..i] == ticks[..i];
    if i > 0 {
      assert init[..i - 1] == ticks[..i - 1];
    }
  }

  /** A key is HOT exactly when it was heated and no window since has ended low. */
  lemma {:induction false} HotMeans(c: Config, ticks: seq<Tick>)
    requires ValidConfig(c)
    ensures StateAt(c, ticks) == Hot <==> exists i :: HotSince(c, ticks, i)
    decreases |ticks|
  {
    if ticks != [] {
      var n := |ticks| - 1;
      HotMeans(c, ticks[..n]);
      if i :| HotSince(c, ticks, i) {
        if i == |ticks| {
          HeatsIsHot(c, ticks);
        } else {
          HotSinceOne(c, ticks, i);
        }
      }
      if StateAt(c, ticks) == Hot {
        HotOne(c, ticks, ticks[..n]);
      }
    }
  }

  lemma HotOne(c: Config, ticks: seq<Tick>, init: seq<Tick>)
    requires ValidConfig(c) && ticks != [] && StateAt(c, ticks) == Hot && init == ticks[..|ticks| - 1]
    requires StateAt(c, init) == Hot <==> exists i :: HotSince(c, init, i)
    ensures exists i :: HotSince(c, ticks, i)
  {
    var n := |ticks| - 1;
    assert ticks[..|ticks|] == ticks;
    if StateAt(c, init) == Hot && ticks[n].Window? {
      var i :| HotSince(c, init, i);
      HotSinceOne(c, ticks, i);
      assert HotSince(c, ticks, i);
    } else {
      if ticks[n].Window? && StateAt(c, init) != Cooling {
        PromotedByStreak(c, ticks);
      }
      assert HotSince(c, ticks, |ticks|);
    }
  }

  // ------------------------------------------------------------ COOLING keys

  predicate StillCools(c: Config, began: Tick, tick: Tick)
    requires began.Window?
  {
    tick.Window? && tick.score < c.promotion && (tick.score < c.demotion ==> tick.at - began.at < c.cooldown)
  }

  /** The key began to cool with window i, and nothing since has ended that: no admission, no
      high window, and no low one that ended a cooldown or more after window i. */
  ghost predicate CoolsSince(c: Config, ticks: seq<Tick>, i: nat) {
    && i < |ticks| && StateAt(c, ticks[..i]) == Hot && Low(c, ticks[i])
    && forall j :: i < j < |ticks| ==> StillCools(c, ticks[i], ticks[j])
  }

  lemma CoolsSinceOne(c: Config, ticks: seq<Tick>, i: nat)
    requires i + 1 < |ticks| && ticks[i].Window?
    ensures CoolsSince(c, ticks, i) <==>
      CoolsSince(c, ticks[..|ticks| - 1], i) && StillCools(c, ticks[i], ticks[|ticks| - 1])
  {
    var init := ticks[..|ticks| - 1];
    assert init[..i] == ticks[..i];
  }

  lemma {:induction false} CoolsIsCooling(c: Config, ticks: seq<Tick>, i: nat)
    requires ValidConfig(c) && CoolsSince(c, ticks, i)
    ensures StateAt(c, ticks) == Cooling && Told(c, ticks).coolingAt == ticks[i].at
    decreases |ticks|
  {
    if i + 1 < |ticks| {
      CoolsSinceOne(c, ticks, i);
      CoolsIsCooling(c, ticks[..|ticks| - 1], i);
    }
  }

  lemma {:induction false} CoolingBegan(c: Config, ticks: seq<Tick>) returns (i: nat)
    requires ValidConfig(c) && StateAt(c, ticks) == Cooling
    ensures CoolsSince(c, ticks, i)
    decreases |ticks|
  {
    var n := |ticks| - 1;
    if StateAt(c, ticks[..n]) == Hot {
      i := n;
    } else {
      i := CoolingBegan(c, ticks[..n]);
      CoolsIsCooling(c, ticks[..n], i);
      CoolsSinceOne(c, ticks, i);
    }
  }

  /** A key is COOLING exactly when it cools since some window. */
  lemma CoolingMeans(c: Config, ticks: seq<Tick>)
    requires ValidConfig(c)
    ensures StateAt(c, ticks) == Cooling <==> exists i :: CoolsSince(c, ticks, i)
  {
    if StateAt(c, ticks) == Cooling {
      var i := CoolingBegan(c, ticks);
    } else if i :| CoolsSince(c, ticks, i) {
      CoolsIsCooling(c, ticks, i);
    }
  }

  /** COOLING ends in COLD at the first low window that ends a cooldown or more after it
      began, and not before; it ends in HOT with a high window or an admission. */
  lemma CoolingEnds(c: Config, ticks: seq<Tick>, i: nat)
    requires ValidConfig(c) && ticks != [] && CoolsSince(c, ticks[..|ticks| - 1], i)
    ensures var last := ticks[|ticks| - 1];
      && (StateAt(c, ticks) == Cold <==> Low(c, last) && last.at - ticks[i].at >= c.cooldown)
      && (StateAt(c, ticks) == Hot <==> last.Admit? || High(c, last))
      && StateAt(c, ticks) != Warm
  {
    CoolsIsCooling(c, ticks[..|ticks| - 1], i);
  }

  /** A key that is COLD or WARM and stays so: any window at or above the demotion threshold
      warms it, only an empty score chills it. */
  lemma ColdOrWarm(c: Config, ticks: seq<Tick>)
    requires ValidConfig(c) && ticks != [] && ticks[|ticks| - 1].Window? && !Streak(c, ticks, c.minWindows)
    requires StateAt(c, ticks[..|ticks| - 1]) in {Cold, Warm}
    ensures StateAt(c, ticks) ==
      var last := ticks[|ticks| - 1];
      if !Low(c, last) then Warm else if last.score == 0.0 then Cold else StateAt(c, ticks[..|ticks| - 1])
  {
    PromotedByStreak(c, ticks);
  }

  // --------------------------------------------------------------- the tracker

  /** The score the open window will reach even if no further request arrives. */
  function Floor(c: Config, t: Tally): real
    requires ValidConfig(c)
  {
    Average(c, t.count as real / c.seconds, t.score)
  }

  /** The open window is bound to complete the streak, and not as the first of it. */
  predicate Bound(c: Config, t: Tally)
    requires ValidConfig(c)
  {
    Floor(c, t) >= c.promotion && Streak(c, t.ticks, if c.minWindows == 1 then 1 else c.minWindows - 1)
  }

  lemma FloorMeans(c: Config, e: Entry, t: Tally)
    requires ValidConfig(c) && e.score == t.score && e.count == t.count
    ensures ScoreFloor(c, e) == Floor(c, t)
  {
    AverageIs(c, t.count as real / c.seconds, t.score);
  }

  lemma CounterMeans(c: Config, ticks: seq<Tick>)
    requires ValidConfig(c)
    ensures var e := Told(c, ticks);
      e.state == Warm && e.hotWindows > 0 && e.hotWindows + 1 >= c.minWindows <==>
      e.state != Hot && e.state != Cooling && Streak(c, ticks, if c.minWindows == 1 then 1 else c.minWindows - 1)
  {
    AlwaysCounts(c, ticks);
    ColdHasNoStreak(c, ticks);
    var e := Told(c, ticks);
    if e.state != Hot {
      StreakShrinks(c, ticks, e.hotWindows, if c.minWindows == 1 then 1 else c.minWindows - 1);
    }
  }

  lemma {:induction false} ColdHasNoStreak(c: Config, ticks: seq<Tick>)
    requires ValidConfig(c)
    ensures Told(c, ticks).state == Cold ==> Told(c, ticks).hotWindows == 0
    decreases |ticks|
  {
    if ticks != [] {
      ColdHasNoStreak(c, ticks[..|ticks| - 1]);
    }
  }

  lemma InevitableMeans(c: Config, e: Entry, t: Tally)
    requires ValidConfig(c) && Tells(c, e, t) && e.count == t.count
    ensures Inevitable(c, e) <==> Bound(c, t) && e.state != Hot && e.state != Cooling
  {
    FloorMeans(c, e, t);
    CounterMeans(c, t.ticks);
  }

  /** The early tracker is HOT exactly when the reference is, or is bound to be and a
      request has come since the last boundary. */
  predicate Exact(c: Config, a: Entry, b: Entry)
    requires ValidConfig(c)
  {
    Agree(c, a, b) && (a.state == Hot <==> b.state == Hot || (b.count > 0 && Inevitable(c, b)))
  }

  lemma EventExact(c: Config, a: Entry, b: Entry, ev: Event)
    requires ValidConfig(c) && Exact(c, a, b) && Tidy(b)
    ensures Exact(c, Early(c, a, ev), Plain(c, b, ev))
  {
    EventAgree(c, a, b, ev);
    if ev.Request? {
      FloorGrows(c, b, 1);
    }
  }

  lemma {:induction false} EarlyExact(c: Config, key: string, evs: seq<Event>)
    requires ValidConfig(c)
    ensures Exact(c, EarlyAll(c, NewEntry(key), evs), PlainAll(c, NewEntry(key), evs))
    decreases |evs|
  {
    if evs != [] {
      var init := evs[..|evs| - 1];
      EarlyExact(c, key, init);
      PlainTidy(c, key, init);
      EventExact(c, EarlyAll(c, NewEntry(key), init), PlainAll(c, NewEntry(key), init), evs[|evs| - 1]);
    }
  }

  /** The state of a key after any history, from its scores alone: what the ticks say, but
      HOT already if a request has made the missing window of the streak certain. */
  function Expected(c: Config, t: Tally): Heat
    requires ValidConfig(c)
  {
    if t.count > 0 && Bound(c, t) && StateAt(c, t.ticks) != Cooling then Hot else StateAt(c, t.ticks)
  }

  lemma StateMeans(c: Config, key: string, evs: seq<Event>)
    requires ValidConfig(c)
    ensures var e, t := EarlyAll(c, NewEntry(key), evs), TallyAll(c, evs);
      e.state == Expected(c, t) && e.score == t.score && e.lastRate == t.rate && e.count == t.count
  {
    EarlyExact(c, key, evs);
    PlainTells(c, key, evs);
    InevitableMeans(c, PlainAll(c, NewEntry(key), evs), TallyAll(c, evs));
  }

  /** In the middle of a window, a key that is neither HOT nor COOLING becomes HOT exactly
      when the request makes certain that the open window completes the streak. */
  lemma PromotedByRequest(c: Config, key: string, evs: seq<Event>)
    requires ValidConfig(c) && EarlyAll(c, NewEntry(key), evs).state in {Cold, Warm}
    ensures EarlyAll(c, NewEntry(key), evs + [Request]).state == Hot <==> Bound(c, TallyAll(c, evs + [Request]))
  {
    StateMeans(c, key, evs);
    StateMeans(c, key, evs + [Request]);
    assert (evs + [Request])[..|evs|] == evs;
  }
}
