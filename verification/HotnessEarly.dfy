/** Early promotion: a tracker that promotes as soon as the open window makes it
    inevitable agrees, at every boundary, with one that waits for the boundary. */
module HotnessEarly {
  import opened HotnessModel
  import opened HotnessDecay

  /** The score this window will reach even if no further request arrives. */
  function ScoreFloor(c: Config, e: Entry): real
    requires ValidConfig(c)
  {
    c.alpha * Rate(c, e.count) + Beta(c) * e.score
  }

  predicate Inevitable(c: Config, e: Entry)
    requires ValidConfig(c)
  {
    e.state == Warm && e.hotWindows > 0 && e.hotWindows + 1 >= c.minWindows && ScoreFloor(c, e) >= c.promotion
  }

  /** tracker.go commitGuaranteedPromotionLocked. */
  function Commit(c: Config, e: Entry): Entry
    requires ValidConfig(c)
  {
    if Inevitable(c, e) then e.(state := Hot, hotWindows := e.hotWindows + 1) else e
  }

  function Seen(c: Config, e: Entry): Entry
    requires ValidConfig(c)
  {
    Commit(c, e.(count := e.count + 1))
  }

  /** tracker.go Admit, for a tracked key. */
  function Admitted(e: Entry): Entry {
    if e.state == Hot then e else e.(state := Hot, hotWindows := 0, coolingAt := 0)
  }

  datatype Event = Request | Elapsed(n: nat, boundary: int) | Admission

  function Early(c: Config, e: Entry, ev: Event): Entry
    requires ValidConfig(c)
  {
    match ev
    case Request => Seen(c, e)
    case Elapsed(n, b) => Elapse(c, e, n, b).entry
    case Admission => Admitted(e)
  }

  /** The boundary-only reference: requests are only counted. */
  function Plain(c: Config, e: Entry, ev: Event): Entry
    requires ValidConfig(c)
  {
    match ev
    case Request => e.(count := e.count + 1)
    case Elapsed(n, b) => Elapse(c, e, n, b).entry
    case Admission => Admitted(e)
  }

  function EarlyAll(c: Config, e: Entry, evs: seq<Event>): Entry
    requires ValidConfig(c)
  {
    if evs == [] then e else Early(c, EarlyAll(c, e, evs[..|evs| - 1]), evs[|evs| - 1])
  }

  function PlainAll(c: Config, e: Entry, evs: seq<Event>): Entry
    requires ValidConfig(c)
  {
    if evs == [] then e else Plain(c, PlainAll(c, e, evs[..|evs| - 1]), evs[|evs| - 1])
  }

  // ------------------------------------------------------------ agreement

  predicate SameFacts(a: Entry, b: Entry) {
    a == b.(state := a.state, hotWindows := a.hotWindows)
  }

  /** Same state; the streak matters only while the key is not HOT. */
  predicate Close(c: Config, a: Entry, b: Entry) {
    SameFacts(a, b) && a.state == b.state && (a.state == Hot || Capped(c, a.hotWindows) == Capped(c, b.hotWindows))
  }

  /** Close, or already promoted where the reference is about to be. */
  predicate Agree(c: Config, a: Entry, b: Entry)
    requires ValidConfig(c)
  {
    Close(c, a, b) || (SameFacts(a, b) && a.state == Hot && Inevitable(c, b))
  }

  predicate Tidy(e: Entry) {
    0.0 <= e.score && (e.state != Cooling ==> e.coolingAt == 0)
  }

  lemma ApplyStateClose(c: Config, a: Entry, b: Entry, now: int)
    requires ValidConfig(c) && Close(c, a, b)
    ensures Close(c, ApplyState(c, a, now), ApplyState(c, b, now))
  {
  }

  lemma {:induction false} IdleClose(c: Config, a: Entry, b: Entry, n: nat, boundary: int)
    requires ValidConfig(c) && Close(c, a, b)
    ensures Close(c, Idle(c, a, n, boundary).entry, Idle(c, b, n, boundary).entry)
    decreases n
  {
    if n > 0 {
      var score := c.alpha * 0.0 + Beta(c) * a.score;
      ApplyStateClose(c, a.(score := score, lastRate := 0.0), b.(score := score, lastRate := 0.0), boundary);
      IdleClose(c, OneWindow(c, a, 0.0, boundary), OneWindow(c, b, 0.0, boundary), n - 1, boundary + c.window);
    }
  }

  /** At the boundary the reference is promoted too. */
  lemma BoundaryClose(c: Config, a: Entry, b: Entry, boundary: int)
    requires ValidConfig(c) && Agree(c, a, b)
    ensures Close(c, OneWindow(c, a, Rate(c, a.count), boundary), OneWindow(c, b, Rate(c, b.count), boundary))
  {
  }

  lemma ElapsedClose(c: Config, a: Entry, b: Entry, n: nat, boundary: int)
    requires ValidConfig(c) && Agree(c, a, b) && n >= 1
    ensures Close(c, Elapse(c, a, n, boundary).entry, Elapse(c, b, n, boundary).entry)
  {
    BoundaryClose(c, a, b, boundary);
    var a1, b1 := OneWindow(c, a, Rate(c, a.count), boundary), OneWindow(c, b, Rate(c, b.count), boundary);
    IdleClose(c, a1, b1, n - 1, boundary + c.window);
  }

  /** Counts only grow within a window, and with them the score floor. */
  lemma FloorGrows(c: Config, e: Entry, more: nat)
    requires ValidConfig(c)
    ensures ScoreFloor(c, e) <= ScoreFloor(c, e.(count := e.count + more))
  {
    var x, y := Rate(c, e.count), Rate(c, e.count + more);
    assert x <= y by {
      DivMono(e.count as real, (e.count + more) as real, c.seconds);
    }
    MulMono(c.alpha, x, y);
  }

  lemma DivMono(a: real, b: real, s: real)
    requires a <= b && 0.0 < s
    ensures a / s <= b / s
  {
    assert b / s - a / s == (b - a) / s;
  }

  lemma EventAgree(c: Config, a: Entry, b: Entry, ev: Event)
    requires ValidConfig(c) && Agree(c, a, b) && Tidy(b)
    ensures Agree(c, Early(c, a, ev), Plain(c, b, ev))
    ensures ev.Elapsed? && ev.n >= 1 ==> Close(c, Early(c, a, ev), Plain(c, b, ev))
  {
    match ev
    case Request => FloorGrows(c, b, 1);
    case Elapsed(n, boundary) =>
      if n >= 1 {
        ElapsedClose(c, a, b, n, boundary);
      }
    case Admission =>
  }

  // --------------------------------------------------------- tidy entries

  lemma ApplyStateTidy(c: Config, e: Entry, now: int)
    requires Tidy(e)
    ensures Tidy(ApplyState(c, e, now))
  {
  }

  lemma {:induction false} IdleTidy(c: Config, e: Entry, n: nat, boundary: int)
    requires ValidConfig(c) && Tidy(e)
    ensures Tidy(Idle(c, e, n, boundary).entry)
    decreases n
  {
    if n > 0 {
      NonNegative(Beta(c), e.score);
      assert c.alpha * 0.0 + Beta(c) * e.score == Beta(c) * e.score;
      ApplyStateTidy(c, e.(score := Beta(c) * e.score, lastRate := 0.0), boundary);
      IdleTidy(c, OneWindow(c, e, 0.0, boundary), n - 1, boundary + c.window);
    }
  }

  lemma ElapseTidy(c: Config, e: Entry, n: nat, boundary: int)
    requires ValidConfig(c) && Tidy(e)
    ensures Tidy(Elapse(c, e, n, boundary).entry)
  {
    if n > 0 {
      var rate := Rate(c, e.count);
      DivMono(0.0, e.count as real, c.seconds);
      NonNegative(c.alpha, rate);
      NonNegative(Beta(c), e.score);
      ApplyStateTidy(c, e.(score := c.alpha * rate + Beta(c) * e.score, lastRate := rate), boundary);
      IdleTidy(c, OneWindow(c, e, rate, boundary), n - 1, boundary + c.window);
    }
  }

  lemma {:induction false} PlainTidy(c: Config, key: string, evs: seq<Event>)
    requires ValidConfig(c)
    ensures Tidy(PlainAll(c, NewEntry(key), evs))
    decreases |evs|
  {
    if evs != [] {
      var b := PlainAll(c, NewEntry(key), evs[..|evs| - 1]);
      PlainTidy(c, key, evs[..|evs| - 1]);
      var ev := evs[|evs| - 1];
      if ev.Elapsed? {
        ElapseTidy(c, b, ev.n, ev.boundary);
      }
    }
  }

  // ------------------------------------------------------------- theorems

  /** Over every history of requests, windows and admissions of a key, the early
      tracker agrees with the boundary-only reference: the only difference ever is
      a promotion the reference is bound to make at the next boundary. */
  lemma {:induction false} EarlyAgrees(c: Config, key: string, evs: seq<Event>)
    requires ValidConfig(c)
    ensures Agree(c, EarlyAll(c, NewEntry(key), evs), PlainAll(c, NewEntry(key), evs))
    ensures evs != [] && evs[|evs| - 1].Elapsed? && evs[|evs| - 1].n >= 1 ==>
              var a := EarlyAll(c, NewEntry(key), evs);
              var b := PlainAll(c, NewEntry(key), evs);
              a.state == b.state && a.score == b.score && a.coolingAt == b.coolingAt
    decreases |evs|
  {
    if evs != [] {
      EarlyAgrees(c, key, evs[..|evs| - 1]);
      PlainTidy(c, key, evs[..|evs| - 1]);
      EventAgree(c, EarlyAll(c, NewEntry(key), evs[..|evs| - 1]), PlainAll(c, NewEntry(key), evs[..|evs| - 1]),
                 evs[|evs| - 1]);
    }
  }

  /** After a mid-window promotion, and however many more requests follow, the next
      boundary keeps the key HOT and reports no transition. */
  lemma CommitIsKept(c: Config, e: Entry, more: nat, boundary: int)
    requires ValidConfig(c) && Inevitable(c, e)
    ensures var after := Commit(c, e).(count := e.count + more);
      && Commit(c, e).state == Hot
      && OneWindow(c, after, Rate(c, after.count), boundary).state == Hot
      && Elapse(c, after, 1, boundary).log == []
  {
    FloorGrows(c, e, more);
  }
}
