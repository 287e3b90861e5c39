/** How a key becomes HOT: a schedule of observations of one key, and the run of tracker
    calls it gives, up to the first reply that calls the key HOT. */
module HotnessHeating {
  import opened HotnessModel
  import opened HotnessDecay
  import opened HotnessEarly
  import opened HotnessLog
  import opened HotnessCalls

  /** A tracker that has just been created. */
  function New(now: int): Fields { Fields(now, map[], [], 0, 0, 0, 0, 0) }

  /** A tracker with one entry. */
  function One(e: Entry, window: int): Fields {
    Fields(window, map[e.key := e], [e.key], 0, IsHot(e.state), 0, 0, 0)
  }

  /** One key after some observations: its entry, the time of the last one, and how many
      there were in the open window. */
  datatype Stage = Stage(e: Entry, at: int, seen: nat)

  /** The next observation comes at once, or, after `per` of them, when the window ends. */
  function Due(c: Config, s: Stage, per: nat): int { if s.seen < per then s.at else s.at + c.window }

  /** What has become of the entry by then, and what it reported. */
  function Aged(c: Config, s: Stage, per: nat): Progress
    requires ValidConfig(c)
  {
    if s.seen < per then Progress(s.e, []) else Elapse(c, s.e, 1, s.at + c.window)
  }

  function NextStage(c: Config, s: Stage, per: nat): Stage
    requires ValidConfig(c)
  {
    Stage(Seen(c, Aged(c, s, per).entry), Due(c, s, per), if s.seen < per then s.seen + 1 else 1)
  }

  /** After i more observations than the first. */
  function StageAt(c: Config, k: string, per: nat, i: nat): Stage
    requires ValidConfig(c)
  {
    if i == 0 then Stage(Seen(c, NewEntry(k)), 0, 1) else NextStage(c, StageAt(c, k, per, i - 1), per)
  }

  // ------------------------------------------------------------ it gets HOT

  /** Enough requests in a window to reach the promotion threshold on their own. */
  predicate Enough(c: Config, per: nat)
    requires ValidConfig(c)
  {
    per >= 2 && c.alpha * Rate(c, per) >= c.promotion
  }

  lemma Quotients(p: real, s: real, a: real, n: real)
    requires 0.0 < s && 0.0 < a && p * s / a <= n
    ensures a * (n / s) >= p
  {
    assert p * s == (p * s / a) * a;
    assert (p * s / a) * a <= n * a;
    assert a * (n / s) == n * a / s;
    assert p == p * s / s;
  }

  lemma Above(x: real) returns (n: nat)
    ensures n >= 2 && x <= n as real
  {
    n := if x.Floor < 0 then 2 else x.Floor + 2;
    assert x < x.Floor as real + 1.0;
    assert x.Floor < 0 ==> x.Floor as real <= -1.0;
  }

  lemma SomeAreEnough(c: Config) returns (per: nat)
    requires ValidConfig(c)
    ensures Enough(c, per)
  {
    var x := c.promotion * c.seconds / c.alpha;
    per := Above(x);
    Quotients(c.promotion, c.seconds, c.alpha, per as real);
  }

  /** The windows completed so far were all hot, and there were too few of them. */
  ghost predicate Warming(c: Config, k: string, s: Stage, done: nat) {
    && s.e.key == k && s.e.state in {Cold, Warm} && s.e.hotWindows == done < c.minWindows && 0.0 <= s.e.score
    && s.e.count == s.seen
  }

  lemma {:induction false} KeepsWarming(c: Config, k: string, per: nat, i: nat, done: nat, d: nat) returns (x: nat)
    requires ValidConfig(c) && Warming(c, k, StageAt(c, k, per, i), done) && StageAt(c, k, per, i).seen + d <= per
    ensures i <= x && (StageAt(c, k, per, x).e.state == Hot ||
              (x == i + d && Warming(c, k, StageAt(c, k, per, x), done) &&
               StageAt(c, k, per, x).seen == StageAt(c, k, per, i).seen + d))
    decreases d
  {
    x := i;
    if d > 0 {
      var s := StageAt(c, k, per, i);
      assert StageAt(c, k, per, i + 1) == NextStage(c, s, per);
      if StageAt(c, k, per, i + 1).e.state == Hot {
        x := i + 1;
      } else {
        x := KeepsWarming(c, k, per, i + 1, done, d - 1);
      }
    }
  }

  lemma HotWindow(c: Config, k: string, per: nat, s: Stage, done: nat)
    requires ValidConfig(c) && Enough(c, per) && Warming(c, k, s, done) && s.seen == per
    ensures var s' := NextStage(c, s, per); s'.seen == 1 && (s'.e.state == Hot || Warming(c, k, s', done + 1))
  {
    NonNegative(Beta(c), s.e.score);
  }

  lemma {:induction false} GetsHot(c: Config, k: string, per: nat, i: nat, done: nat) returns (x: nat)
    requires ValidConfig(c) && Enough(c, per)
    requires Warming(c, k, StageAt(c, k, per, i), done) && StageAt(c, k, per, i).seen == 1
    ensures StageAt(c, k, per, x).e.state == Hot
    decreases c.minWindows - done
  {
    x := KeepsWarming(c, k, per, i, done, per - 1);
    var s := StageAt(c, k, per, x);
    if s.e.state != Hot {
      HotWindow(c, k, per, s, done);
      assert StageAt(c, k, per, x + 1) == NextStage(c, s, per);
      if StageAt(c, k, per, x + 1).e.state == Hot {
        x := x + 1;
      } else {
        x := GetsHot(c, k, per, x + 1, done + 1);
      }
    }
  }

  /** The first observation that makes the key HOT. */
  lemma FirstHot(c: Config, k: string, per: nat) returns (n: nat)
    requires ValidConfig(c) && Enough(c, per)
    ensures n >= 2 && StageAt(c, k, per, n).e.state == Hot
    ensures forall i :: 0 <= i < n ==> StageAt(c, k, per, i).e.state != Hot
  {
    var x := GetsHot(c, k, per, 0, 0);
    n := 0;
    while StageAt(c, k, per, n).e.state != Hot
      invariant n <= x && forall i :: 0 <= i < n ==> StageAt(c, k, per, i).e.state != Hot
      decreases x - n
    {
      n := n + 1;
    }
    assert StageAt(c, k, per, 1) == NextStage(c, StageAt(c, k, per, 0), per);
  }

  // ------------------------------------------------- as tracker calls

  function FieldsAt(c: Config, k: string, per: nat, i: nat): Fields
    requires ValidConfig(c)
  {
    if i == 0 then New(0) else One(StageAt(c, k, per, i - 1).e, StageAt(c, k, per, i - 1).at)
  }

  function CallAtStage(c: Config, k: string, per: nat, i: nat): Call
    requires ValidConfig(c)
  {
    CallObserve(k, StageAt(c, k, per, i).at)
  }

  /** What an observation of the one key answers. */
  function ReplyOf(c: Config, s: Stage, per: nat): Reply
    requires ValidConfig(c)
  {
    var p := Aged(c, s, per);
    Observed(ObserveReply(c, One(p.entry, Due(c, s, per)), s.e.key, p.log))
  }

  function ReplyAt(c: Config, k: string, per: nat, i: nat): Reply
    requires ValidConfig(c)
  {
    if i == 0 then Observed(ObserveReply(c, New(0), k, [])) else ReplyOf(c, StageAt(c, k, per, i - 1), per)
  }

  lemma OneHot(e: Entry)
    ensures HotKeys(map[e.key := e]) == (if e.state == Hot then {e.key} else {})
    ensures |HotKeys(map[e.key := e])| == IsHot(e.state)
  {
    assert HotKeys(map[e.key := e]) == if e.state == Hot then {e.key} else {};
  }

  lemma CaughtSame(c: Config, e: Entry, at: int)
    requires ValidConfig(c)
    ensures Caught(c, One(e, at), at, One(e, at), [])
  {
    OneHot(e);
  }

  lemma CaughtNext(c: Config, e: Entry, at: int)
    requires ValidConfig(c)
    ensures var p := Elapse(c, e, 1, at + c.window);
      Caught(c, One(e, at), at + c.window, One(p.entry, at + c.window), p.log)
  {
    var p := Elapse(c, e, 1, at + c.window);
    assert Windows(c, at + c.window, at + c.window) == 0;
    assert Windows(c, at, at + c.window) == 1 && Boundary(c, at, at + c.window) == at + c.window;
    ElapsePath(c, e, 1, at + c.window);
    OneHot(p.entry);
    forall k {:trigger Of(p.log, k)} ensures Of(p.log, k) == Told(c, One(e, at).items, 1, at + c.window, k) {
      OfPath(p.log, e.key, e.state, p.entry.state, k);
    }
  }

  lemma AgedCaught(c: Config, s: Stage, per: nat, at: int, p: Progress)
    requires ValidConfig(c) && at == Due(c, s, per) && p == Aged(c, s, per)
    ensures Caught(c, One(s.e, s.at), at, One(p.entry, at), p.log)
  {
    if s.seen < per {
      CaughtSame(c, s.e, s.at);
    } else {
      CaughtNext(c, s.e, s.at);
    }
  }

  /** One window, one change at most. */
  lemma AgedLog(c: Config, s: Stage, per: nat)
    requires ValidConfig(c)
    ensures Aged(c, s, per).log == Change(s.e.key, s.e.state, Aged(c, s, per).entry.state)
    ensures Aged(c, s, per).entry.key == s.e.key
  {
    ElapsePath(c, s.e, 1, s.at + c.window);
  }

  lemma {:induction false} StageKey(c: Config, k: string, per: nat, i: nat)
    requires ValidConfig(c)
    ensures StageAt(c, k, per, i).e.key == k
  {
    if i > 0 {
      StageKey(c, k, per, i - 1);
      AgedLog(c, StageAt(c, k, per, i - 1), per);
    }
  }

  /** Observing the one key there is. */
  lemma ObservesOne(c: Config, e: Entry, at: int)
    requires ValidConfig(c) && Trackable(e.key)
    ensures ObservedNow(c, One(e, at), e.key) == One(Seen(c, e), at)
    ensures ObservedReport(c, One(e, at), e.key) == Change(e.key, e.state, Seen(c, e).state)
  {
    assert map[e.key := e][e.key := Seen(c, e)] == map[e.key := Seen(c, e)];
  }

  lemma ObservesNone(c: Config, k: string)
    requires ValidConfig(c) && Trackable(k)
    ensures ObservedNow(c, New(0), k) == One(Seen(c, NewEntry(k)), 0) && ObservedReport(c, New(0), k) == []
  {
    var p := Placed(c, New(0), k);
    assert p == One(NewEntry(k), 0);
    ObservesOne(c, NewEntry(k), 0);
  }

  lemma NextCalled(c: Config, s: Stage, per: nat)
    requires ValidConfig(c) && Trackable(s.e.key)
    ensures var s' := NextStage(c, s, per);
      Called(c, One(s.e, s.at), CallObserve(s.e.key, s'.at), ReplyOf(c, s, per), One(s'.e, s'.at))
  {
    var s', p := NextStage(c, s, per), Aged(c, s, per);
    AgedCaught(c, s, per, s'.at, p);
    AgedLog(c, s, per);
    ObservesOne(c, p.entry, s'.at);
    OneCalled(c, s, s', p, ReplyOf(c, s, per));
  }

  lemma OneCalled(c: Config, s: Stage, s': Stage, p: Progress, r: Reply)
    requires ValidConfig(c) && Caught(c, One(s.e, s.at), s'.at, One(p.entry, s'.at), p.log)
    requires ObservedNow(c, One(p.entry, s'.at), s.e.key) == One(s'.e, s'.at)
    requires r == Observed(ObserveReply(c, One(p.entry, s'.at), s.e.key, p.log))
    ensures Called(c, One(s.e, s.at), CallObserve(s.e.key, s'.at), r, One(s'.e, s'.at))
  {
    assert Does(c, One(p.entry, s'.at), p.log, CallObserve(s.e.key, s'.at), r, One(s'.e, s'.at));
  }

  lemma FirstCalled(c: Config, k: string)
    requires ValidConfig(c) && Trackable(k)
    ensures Called(c, New(0), CallObserve(k, 0), Observed(ObserveReply(c, New(0), k, [])), One(Seen(c, NewEntry(k)), 0))
  {
    ObservesNone(c, k);
    assert Caught(c, New(0), 0, New(0), []);
    assert Does(c, New(0), [], CallObserve(k, 0), Observed(ObserveReply(c, New(0), k, [])),
                One(Seen(c, NewEntry(k)), 0));
  }

  lemma StageCalled(c: Config, k: string, per: nat, i: nat)
    requires ValidConfig(c) && Trackable(k)
    ensures Called(c, FieldsAt(c, k, per, i), CallAtStage(c, k, per, i), ReplyAt(c, k, per, i),
                   FieldsAt(c, k, per, i + 1))
  {
    if i == 0 {
      FirstCalled(c, k);
    } else {
      StageKey(c, k, per, i - 1);
      NextCalled(c, StageAt(c, k, per, i - 1), per);
    }
  }

  lemma {:induction false} NoneFromHot(ts: seq<Transition>)
    requires forall i :: 0 <= i < |ts| ==> ts[i].from != Hot
    ensures Demoted(ts) == []
    decreases |ts|
  {
    if ts != [] {
      NoneFromHot(ts[1..]);
    }
  }

  lemma TwoChanges(k: string, a: Heat, b: Heat, d: Heat)
    requires a != Hot && (b == Hot ==> d == Hot)
    ensures Demoted(Change(k, a, b) + Change(k, b, d)) == []
  {
    NoneFromHot(Change(k, a, b) + Change(k, b, d));
  }

  /** Nothing leaves HOT before the key is. */
  lemma NoneDemoted(c: Config, k: string, per: nat, i: nat)
    requires ValidConfig(c) && Trackable(k) && (i > 0 ==> StageAt(c, k, per, i - 1).e.state != Hot)
    ensures Demoted(Transitions(ReplyAt(c, k, per, i))) == []
  {
    if i == 0 {
      ObservesNone(c, k);
    } else {
      StageKey(c, k, per, i - 1);
      NextDemotesNone(c, StageAt(c, k, per, i - 1), per);
    }
  }

  lemma NextDemotesNone(c: Config, s: Stage, per: nat)
    requires ValidConfig(c) && Trackable(s.e.key) && s.e.state != Hot
    ensures Demoted(Transitions(ReplyOf(c, s, per))) == []
  {
    var p := Aged(c, s, per);
    AgedLog(c, s, per);
    ObservesOne(c, p.entry, Due(c, s, per));
    TwoChanges(s.e.key, s.e.state, p.entry.state, Seen(c, p.entry).state);
  }

  // ------------------------------------------------------------ the schedule

  /** Observations of k and nothing else, the first two at once, none back in time. */
  ghost predicate OnlyObserves(calls: seq<Call>, k: string) {
    && |calls| >= 2 && calls[0].now == 0 && calls[1].now == 0
    && (forall i {:trigger calls[i]} :: 0 <= i < |calls| ==> calls[i] == CallObserve(k, calls[i].now))
    && (forall i :: 1 <= i < |calls| ==> InOrder(calls, i))
  }

  ghost predicate InOrder(calls: seq<Call>, i: nat)
    requires 1 <= i < |calls|
  {
    calls[i - 1].now <= calls[i].now
  }

  /** Only k is tracked, and it is HOT at the end and not before. */
  ghost predicate HotAtLast(fs: seq<Fields>, k: string) {
    && |fs| >= 2 && fs[0] == New(0)
    && (forall i {:trigger fs[i]} :: 1 <= i < |fs| ==> fs[i].items.Keys == {k})
    && (forall i {:trigger fs[i]} :: 1 <= i < |fs| - 1 ==> HotKeys(fs[i].items) == {})
    && HotKeys(fs[|fs| - 1].items) == {k}
  }

  ghost predicate NothingLeaves(rs: seq<Reply>) {
    forall i {:trigger rs[i]} :: 0 <= i < |rs| ==> Demoted(Transitions(rs[i])) == []
  }

  /** A run of calls on a new tracker, n + 1 observations of k, only the last of which
      makes it HOT. */
  ghost predicate Heats(c: Config, k: string, fs: seq<Fields>, calls: seq<Call>, rs: seq<Reply>, n: nat) {
    && n >= 2 && |calls| == n + 1 && IsCallRun(c, fs, calls, rs)
    && OnlyObserves(calls, k) && HotAtLast(fs, k) && NothingLeaves(rs)
  }

  lemma CallsObserve(c: Config, k: string, per: nat, calls: seq<Call>)
    requires ValidConfig(c) && per >= 2 && |calls| >= 2
    requires forall i {:trigger calls[i]} :: 0 <= i < |calls| ==> calls[i] == CallAtStage(c, k, per, i)
    ensures OnlyObserves(calls, k)
  {
    assert StageAt(c, k, per, 1) == NextStage(c, StageAt(c, k, per, 0), per);
    forall i | 1 <= i < |calls| ensures InOrder(calls, i) {
      assert StageAt(c, k, per, i) == NextStage(c, StageAt(c, k, per, i - 1), per);
    }
  }

  lemma StageHot(c: Config, k: string, per: nat, i: nat)
    requires ValidConfig(c)
    ensures var f := FieldsAt(c, k, per, i + 1);
      f.items.Keys == {k} && HotKeys(f.items) == if StageAt(c, k, per, i).e.state == Hot then {k} else {}
  {
    StageKey(c, k, per, i);
    OneHot(StageAt(c, k, per, i).e);
  }

  lemma FieldsHeat(c: Config, k: string, per: nat, fs: seq<Fields>, n: nat)
    requires ValidConfig(c) && |fs| == n + 2 && StageAt(c, k, per, n).e.state == Hot
    requires forall i :: 0 <= i < n ==> StageAt(c, k, per, i).e.state != Hot
    requires forall i {:trigger fs[i]} :: 0 <= i < |fs| ==> fs[i] == FieldsAt(c, k, per, i)
    ensures HotAtLast(fs, k)
  {
    forall i {:trigger fs[i]} | 1 <= i < |fs|
      ensures fs[i].items.Keys == {k} && HotKeys(fs[i].items) == if i < |fs| - 1 then {} else {k}
    {
      StageHot(c, k, per, i - 1);
    }
  }

  lemma RepliesDemoteNone(c: Config, k: string, per: nat, rs: seq<Reply>)
    requires ValidConfig(c) && Trackable(k)
    requires forall i :: 0 <= i < |rs| - 1 ==> StageAt(c, k, per, i).e.state != Hot
    requires forall i {:trigger rs[i]} :: 0 <= i < |rs| ==> rs[i] == ReplyAt(c, k, per, i)
    ensures NothingLeaves(rs)
  {
    forall i {:trigger rs[i]} | 0 <= i < |rs| ensures Demoted(Transitions(rs[i])) == [] {
      NoneDemoted(c, k, per, i);
    }
  }

  lemma StagesRun(c: Config, k: string, per: nat, fs: seq<Fields>, calls: seq<Call>, rs: seq<Reply>)
    requires ValidConfig(c) && Trackable(k) && |rs| == |calls| && |fs| == |calls| + 1
    requires forall i {:trigger fs[i]} :: 0 <= i < |fs| ==> fs[i] == FieldsAt(c, k, per, i)
    requires forall i {:trigger calls[i]} :: 0 <= i < |calls| ==> calls[i] == CallAtStage(c, k, per, i)
    requires forall i {:trigger rs[i]} :: 0 <= i < |rs| ==> rs[i] == ReplyAt(c, k, per, i)
    ensures IsCallRun(c, fs, calls, rs)
  {
    forall i {:trigger CallAt(c, fs, calls, rs, i)} | 0 <= i < |calls| ensures CallAt(c, fs, calls, rs, i) {
      StageCalled(c, k, per, i);
    }
  }

  /** Whatever the settings, every trackable key becomes HOT under such a schedule. */
  lemma HeatingRun(c: Config, k: string) returns (fs: seq<Fields>, calls: seq<Call>, rs: seq<Reply>, n: nat)
    requires ValidConfig(c) && Trackable(k)
    ensures Heats(c, k, fs, calls, rs, n)
  {
    var per := SomeAreEnough(c);
    n := FirstHot(c, k, per);
    fs := seq(n + 2, i requires 0 <= i => FieldsAt(c, k, per, i));
    calls := seq(n + 1, i requires 0 <= i => CallAtStage(c, k, per, i));
    rs := seq(n + 1, i requires 0 <= i => ReplyAt(c, k, per, i));
    StagesRun(c, k, per, fs, calls, rs);
    CallsObserve(c, k, per, calls);
    FieldsHeat(c, k, per, fs, n);
    RepliesDemoteNone(c, k, per, rs);
  }
}
