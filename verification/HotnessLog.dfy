/** The transition log: replaying it, and counting promotions and demotions. */
module HotnessLog {
  import opened HotnessModel

  /** The state a key has after replaying the log from all-COLD. */
  function StateAfter(log: seq<Transition>, key: string): Heat {
    if log == [] then Cold
    else if log[|log| - 1].key == key then log[|log| - 1].to
    else StateAfter(log[..|log| - 1], key)
  }

  /** The state graph. A HOT key can only start to cool: it never goes straight
      to COLD, so it is never evicted. */
  predicate Edge(from: Heat, to: Heat) {
    match from
    case Cold => to == Warm || to == Hot
    case Warm => to == Cold || to == Hot
    case Hot => to == Cooling
    case Cooling => to == Cold || to == Hot
  }

  /** Every logged transition leaves the state its key was in, along an edge. */
  predicate Chained(log: seq<Transition>) {
    log == [] || (
      var last := log[|log| - 1];
      Edge(last.from, last.to) && last.from == StateAfter(log[..|log| - 1], last.key) && Chained(log[..|log| - 1]))
  }

  function Promotions(log: seq<Transition>): nat {
    if log == [] then 0 else Promotions(log[..|log| - 1]) + if log[|log| - 1].to == Hot then 1 else 0
  }

  function Demotions(log: seq<Transition>): nat {
    if log == [] then 0 else Demotions(log[..|log| - 1]) + if log[|log| - 1].from == Hot then 1 else 0
  }

  /** A stretch of one key's transitions, leading from one state to another. */
  predicate Path(log: seq<Transition>, key: string, from: Heat, to: Heat) {
    if log == [] then from == to
    else log[0].key == key && log[0].from == from && Edge(from, log[0].to) && Path(log[1..], key, log[0].to, to)
  }

  lemma {:induction false} PathJoin(a: seq<Transition>, b: seq<Transition>, key: string, from: Heat, mid: Heat,
                                    to: Heat)
    requires Path(a, key, from, mid) && Path(b, key, mid, to)
    ensures Path(a + b, key, from, to)
    decreases |a|
  {
    if a == [] {
      assert a + b == b;
    } else {
      PathJoin(a[1..], b, key, a[0].to, mid, to);
      assert (a + b)[1..] == a[1..] + b;
    }
  }

  lemma ChangePath(key: string, from: Heat, to: Heat)
    requires from == to || Edge(from, to)
    ensures Path(Change(key, from, to), key, from, to)
  {
    assert from != to ==> Path(Change(key, from, to)[1..], key, to, to);
  }

  lemma WindowPath(c: Config, e: Entry, rate: real, boundary: int)
    requires ValidConfig(c)
    ensures var e1 := OneWindow(c, e, rate, boundary);
      e1.key == e.key && (e1.state == e.state || Edge(e.state, e1.state))
  {
  }

  /** Catching an entry up reports how it got from its old state to its new one. */
  lemma {:induction false} IdlePath(c: Config, e: Entry, n: nat, boundary: int)
    requires ValidConfig(c)
    ensures Path(Idle(c, e, n, boundary).log, e.key, e.state, Idle(c, e, n, boundary).entry.state)
    ensures Idle(c, e, n, boundary).entry.key == e.key
    decreases n
  {
    if n > 0 {
      var e1 := OneWindow(c, e, 0.0, boundary);
      WindowPath(c, e, 0.0, boundary);
      IdlePath(c, e1, n - 1, boundary + c.window);
      var rest := Idle(c, e1, n - 1, boundary + c.window);
      ChangePath(e.key, e.state, e1.state);
      PathJoin(Change(e.key, e.state, e1.state), rest.log, e.key, e.state, e1.state, rest.entry.state);
    }
  }

  lemma ElapsePath(c: Config, e: Entry, n: nat, boundary: int)
    requires ValidConfig(c)
    ensures Path(Elapse(c, e, n, boundary).log, e.key, e.state, Elapse(c, e, n, boundary).entry.state)
    ensures Elapse(c, e, n, boundary).entry.key == e.key
  {
    if n > 0 {
      var e1 := OneWindow(c, e, Rate(c, e.count), boundary);
      WindowPath(c, e, Rate(c, e.count), boundary);
      IdlePath(c, e1, n - 1, boundary + c.window);
      var rest := Idle(c, e1, n - 1, boundary + c.window);
      ChangePath(e.key, e.state, e1.state);
      PathJoin(Change(e.key, e.state, e1.state), rest.log, e.key, e.state, e1.state, rest.entry.state);
    }
  }

  function IsHot(h: Heat): int { if h == Hot then 1 else 0 }

  lemma AppendOne(log: seq<Transition>, t: Transition, k: string)
    requires Chained(log) && StateAfter(log, t.key) == t.from && Edge(t.from, t.to)
    ensures Chained(log + [t])
    ensures StateAfter(log + [t], k) == if k == t.key then t.to else StateAfter(log, k)
    ensures Promotions(log + [t]) - Demotions(log + [t])
        == Promotions(log) - Demotions(log) + IsHot(t.to) - IsHot(t.from)
  {
    assert (log + [t])[..|log|] == log;
  }

  /** Appending one key's stretch moves that key and no other. */
  lemma {:induction false} PathAppend(log: seq<Transition>, more: seq<Transition>, key: string, from: Heat, to: Heat,
                                      k: string)
    requires Chained(log) && StateAfter(log, key) == from && Path(more, key, from, to)
    ensures Chained(log + more)
    ensures StateAfter(log + more, k) == if k == key then to else StateAfter(log, k)
    ensures Promotions(log + more) - Demotions(log + more)
         == Promotions(log) - Demotions(log) + IsHot(to) - IsHot(from)
    decreases |more|
  {
    if more == [] {
      assert log + more == log;
    } else {
      var next := log + [more[0]];
      AppendOne(log, more[0], k);
      AppendOne(log, more[0], key);
      assert log + more == next + more[1..];
      PathAppend(next, more[1..], key, more[0].to, to, k);
    }
  }

  // ------------------------------------------------------- tracked entries

  function StateOf(entries: map<string, Entry>, key: string): Heat {
    if key in entries then entries[key].state else Cold
  }

  function HotKeys(entries: map<string, Entry>): set<string> {
    set k | k in entries && entries[k].state == Hot
  }

  /** The log is complete: replaying it gives the state of every key, tracked or
      not, and the counter is the number of HOT entries and the balance of the log. */
  ghost predicate Complete(entries: map<string, Entry>, log: seq<Transition>, hot: int) {
    && Chained(log)
    && (forall k {:trigger StateAfter(log, k)} :: StateAfter(log, k) == StateOf(entries, k))
    && hot == |HotKeys(entries)|
    && hot == Promotions(log) - Demotions(log)
  }

  lemma HotKeysUpdate(entries: map<string, Entry>, key: string, e: Entry)
    ensures |HotKeys(entries[key := e])| == |HotKeys(entries)| + IsHot(e.state) - IsHot(StateOf(entries, key))
  {
    var before, after := HotKeys(entries), HotKeys(entries[key := e]);
    if e.state == Hot {
      assert after == before + {key};
    } else {
      assert after == before - {key};
    }
  }

  lemma HotKeysRemove(entries: map<string, Entry>, key: string)
    requires StateOf(entries, key) != Hot
    ensures HotKeys(entries - {key}) == HotKeys(entries)
  {
  }

  /** A tracked or newly tracked key changes state and reports it. */
  lemma CompleteUpdate(entries: map<string, Entry>, log: seq<Transition>, hot: int, key: string, e: Entry,
                       more: seq<Transition>, hot': int)
    requires Complete(entries, log, hot) && Path(more, key, StateOf(entries, key), e.state)
    requires hot' == hot + IsHot(e.state) - IsHot(StateOf(entries, key))
    ensures Complete(entries[key := e], log + more, hot')
  {
    forall k ensures Chained(log + more) && StateAfter(log + more, k) == StateOf(entries[key := e], k) {
      PathAppend(log, more, key, StateOf(entries, key), e.state, k);
    }
    PathAppend(log, more, key, StateOf(entries, key), e.state, key);
    HotKeysUpdate(entries, key, e);
  }

  /** A key is forgotten: if it was not COLD, the log says it went COLD. */
  lemma CompleteRemove(entries: map<string, Entry>, log: seq<Transition>, hot: int, key: string, more: seq<Transition>)
    requires Complete(entries, log, hot) && StateOf(entries, key) != Hot
    requires more == Change(key, StateOf(entries, key), Cold)
    ensures Complete(entries - {key}, log + more, hot)
  {
    ChangePath(key, StateOf(entries, key), Cold);
    forall k ensures Chained(log + more) && StateAfter(log + more, k) == StateOf(entries - {key}, k) {
      PathAppend(log, more, key, StateOf(entries, key), Cold, k);
    }
    PathAppend(log, more, key, StateOf(entries, key), Cold, key);
    HotKeysRemove(entries, key);
  }

  // ------------------------------------------------------ reported changes

  /** A key that leaves HOT is reported as leaving HOT in the same stretch. */
  lemma {:induction false} LeavingHotIsReported(log: seq<Transition>, ts: seq<Transition>, k: string)
    requires Chained(log + ts) && StateAfter(log, k) == Hot && StateAfter(log + ts, k) != Hot
    ensures exists i :: 0 <= i < |ts| && ts[i] == Transition(k, Hot, Cooling)
    decreases |ts|
  {
    assert ts == [] ==> log + ts == log;
    if ts != [] {
      var init, last := ts[..|ts| - 1], ts[|ts| - 1];
      assert (log + ts)[..|log + ts| - 1] == log + init;
      if StateAfter(log + init, k) != Hot {
        LeavingHotIsReported(log, init, k);
        var i :| 0 <= i < |init| && init[i] == Transition(k, Hot, Cooling);
        assert ts[i] == Transition(k, Hot, Cooling);
      } else {
        assert ts[|ts| - 1] == Transition(k, Hot, Cooling);
      }
    }
  }
}
