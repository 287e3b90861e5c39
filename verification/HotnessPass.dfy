/** Advancing all tracked entries in one pass, for any iteration order, and the
    invariant that ties entries, transition log, counter and histories together. */
module HotnessPass {
  import opened HotnessModel
  import opened HotnessEarly
  import opened HotnessHistory
  import opened HotnessLog
  import opened HotnessAdvance

  type Histories = map<string, seq<Event>>

  ghost predicate AllFollow(c: Config, entries: map<string, Entry>, hist: Histories)
    requires ValidConfig(c)
  {
    hist.Keys == entries.Keys
    && forall k {:trigger Follows(c, entries[k], k, hist[k])} :: k in entries ==> Follows(c, entries[k], k, hist[k])
  }

  /** The log and the counter account for every entry, and every entry is what
      its history makes of a new one. */
  ghost predicate Balanced(c: Config, entries: map<string, Entry>, log: seq<Transition>, hot: int, hist: Histories) {
    ValidConfig(c) && Complete(entries, log, hot) && AllFollow(c, entries, hist)
  }

  lemma BalancedStep(c: Config, entries: map<string, Entry>, log: seq<Transition>, hot: int, hist: Histories,
                     k: string, e: Entry, ts: seq<Transition>, ev: Event, hot': int)
    requires Balanced(c, entries, log, hot, hist) && k in entries
    requires e.key == k && Same(c, e, Early(c, entries[k], ev)) && Path(ts, k, entries[k].state, e.state)
    requires hot' == hot + IsHot(e.state) - IsHot(entries[k].state)
    ensures Balanced(c, entries[k := e], log + ts, hot', hist[k := hist[k] + [ev]])
  {
    assert Follows(c, entries[k], k, hist[k]);
    FollowsStep(c, entries[k], e, k, hist[k], ev);
    CompleteUpdate(entries, log, hot, k, e, ts, hot');
  }

  lemma BalancedElapse(c: Config, entries: map<string, Entry>, log: seq<Transition>, hot: int, hist: Histories,
                       k: string, e: Entry, n: nat, first: int, hot': int)
    requires Balanced(c, entries, log, hot, hist) && k in entries
    requires Same(c, e, Elapse(c, entries[k], n, first).entry)
    requires hot' == hot + IsHot(e.state) - IsHot(entries[k].state)
    ensures Balanced(c, entries[k := e], log + Elapse(c, entries[k], n, first).log, hot',
                     hist[k := hist[k] + [Elapsed(n, first)]])
  {
    ElapsePath(c, entries[k], n, first);
    assert Follows(c, entries[k], k, hist[k]);
    BalancedStep(c, entries, log, hot, hist, k, e, Elapse(c, entries[k], n, first).log, Elapsed(n, first), hot');
  }

  lemma BalancedTidy(c: Config, entries: map<string, Entry>, log: seq<Transition>, hot: int, hist: Histories)
    requires Balanced(c, entries, log, hot, hist)
    ensures forall k :: k in entries ==> Tidy(entries[k]) && entries[k].key == k
    ensures hist.Keys == entries.Keys
  {
    forall k | k in entries ensures Tidy(entries[k]) && entries[k].key == k {
      assert Follows(c, entries[k], k, hist[k]);
    }
  }

  /** The transitions that n elapsed windows make an entry report. */
  ghost predicate Reports(c: Config, e: Entry, n: nat, first: int, ts: seq<Transition>)
    requires ValidConfig(c)
  {
    ts == Elapse(c, e, n, first).log
  }

  /** An iteration order of the map: `at` is each key's one position in it. */
  ghost predicate Enumerates(order: seq<string>, at: map<string, nat>, items: map<string, Entry>) {
    && at.Keys == items.Keys
    && (forall i {:trigger order[i]} :: 0 <= i < |order| ==> order[i] in at && at[order[i]] == i)
    && (forall k {:trigger at[k]} :: k in at ==> at[k] < |order| && order[at[k]] == k)
  }

  /** An enumeration of a map is as long as the map is large. */
  lemma {:induction false} EnumerationSize(order: seq<string>, at: map<string, nat>, items: map<string, Entry>)
    requires Enumerates(order, at, items)
    ensures |items| == |order|
    decreases |order|
  {
    assert forall k :: k in items.Keys ==> at[k] < |order|;
    if order == [] {
      assert items.Keys == {};
    } else {
      var n := |order| - 1;
      var last := order[n];
      assert order[n] in at;
      forall k | k in at && k != last ensures at[k] < n {
        assert order[at[k]] == k;
      }
      EnumerationSize(order[..n], at - {last}, items - {last});
      assert items.Keys == (items - {last}).Keys + {last};
    }
  }

  ghost function Flatten(parts: seq<seq<Transition>>): seq<Transition> {
    if parts == [] then [] else Flatten(parts[..|parts| - 1]) + parts[|parts| - 1]
  }

  lemma FlattenOne(parts: seq<seq<Transition>>, more: seq<Transition>)
    ensures Flatten(parts + [more]) == Flatten(parts) + more
  {
    assert (parts + [more])[..|parts|] == parts;
  }

  /** Each key's part of the transitions, in iteration order. */
  ghost predicate AllReport(c: Config, items: map<string, Entry>, n: nat, first: int, order: seq<string>,
                            parts: seq<seq<Transition>>)
    requires ValidConfig(c)
  {
    && |parts| <= |order|
    && forall j {:trigger Reports(c, items[order[j]], n, first, parts[j])} :: 0 <= j < |parts| ==>
         order[j] in items && Reports(c, items[order[j]], n, first, parts[j])
  }

  lemma ReportKept(c: Config, e: Entry, n: nat, first: int, parts: seq<seq<Transition>>, more: seq<Transition>, j: nat)
    requires ValidConfig(c) && j < |parts| && Reports(c, e, n, first, parts[j])
    ensures Reports(c, e, n, first, (parts + [more])[j])
  {
    assert (parts + [more])[j] == parts[j];
  }

  lemma ReportLast(c: Config, e: Entry, n: nat, first: int, parts: seq<seq<Transition>>, more: seq<Transition>)
    requires ValidConfig(c) && Reports(c, e, n, first, more)
    ensures Reports(c, e, n, first, (parts + [more])[|parts|])
  {
    assert (parts + [more])[|parts|] == more;
  }

  lemma ReportOne(c: Config, items: map<string, Entry>, n: nat, first: int, order: seq<string>, at: map<string, nat>,
                  parts: seq<seq<Transition>>, k: string, more: seq<Transition>)
    requires Enumerates(order, at, items)
    requires ValidConfig(c) && AllReport(c, items, n, first, order, parts)
    requires |parts| < |order| && k == order[|parts|] && k in items && Reports(c, items[k], n, first, more)
    ensures AllReport(c, items, n, first, order, parts + [more])
  {
    forall j {:trigger Reports(c, items[order[j]], n, first, (parts + [more])[j])} | 0 <= j < |parts| + 1
      ensures order[j] in items && Reports(c, items[order[j]], n, first, (parts + [more])[j])
    {
      if j < |parts| {
        assert Reports(c, items[order[j]], n, first, parts[j]);
        ReportKept(c, items[order[j]], n, first, parts, more, j);
      } else {
        ReportLast(c, items[k], n, first, parts, more);
      }
    }
  }

  /** The entry that n elapsed windows make of another, up to a capped streak. */
  ghost predicate Becomes(c: Config, e: Entry, n: nat, first: int, e': Entry)
    requires ValidConfig(c)
  {
    Same(c, e', Elapse(c, e, n, first).entry)
  }

  /** The first i entries of the order have been advanced. */
  ghost predicate AllBecame(c: Config, was: map<string, Entry>, items: map<string, Entry>, at: map<string, nat>, i: nat,
                            n: nat, first: int)
    requires ValidConfig(c)
  {
    forall k {:trigger Becomes(c, was[k], n, first, items[k])} :: k in at && k in was && k in items && at[k] < i ==>
      Becomes(c, was[k], n, first, items[k])
  }

  lemma BecameOne(c: Config, was: map<string, Entry>, items: map<string, Entry>, order: seq<string>,
                  at: map<string, nat>, i: nat, n: nat, first: int, k: string, e: Entry)
    requires ValidConfig(c) && Enumerates(order, at, was) && AllBecame(c, was, items, at, i, n, first)
    requires i < |order| && k == order[i] && k in was && Becomes(c, was[k], n, first, e)
    ensures AllBecame(c, was, items[k := e], at, i + 1, n, first)
  {
    var items' := items[k := e];
    forall j {:trigger Becomes(c, was[j], n, first, items'[j])} | j in at && j in was && j in items' && at[j] < i + 1
      ensures Becomes(c, was[j], n, first, items'[j])
    {
      if j != k {
        Elsewhere(order, at, was, i, j);
        assert Becomes(c, was[j], n, first, items[j]);
      }
    }
  }

  /** How far a pass over the entries has got. */
  ghost predicate Pass(was: map<string, Entry>, items: map<string, Entry>, wasHist: Histories, hist: Histories,
                       at: map<string, nat>, i: nat, ev: Event)
  {
    && at.Keys == was.Keys == items.Keys == wasHist.Keys == hist.Keys
    && (forall k {:trigger items[k]} :: k in at && i <= at[k] ==> items[k] == was[k])
    && (forall k {:trigger hist[k]} :: k in at ==> hist[k] == if at[k] < i then wasHist[k] + [ev] else wasHist[k])
  }

  lemma Elsewhere(order: seq<string>, at: map<string, nat>, items: map<string, Entry>, i: nat, j: string)
    requires Enumerates(order, at, items) && i < |order| && j in at && j != order[i]
    ensures at[j] != i
  {
    assert order[at[j]] == j;
  }

  lemma SameKeys<T>(m: map<string, T>, k: string, x: T)
    requires k in m
    ensures m[k := x].Keys == m.Keys
  {
  }

  lemma PassStep(was: map<string, Entry>, items: map<string, Entry>, wasHist: Histories, hist: Histories,
                 order: seq<string>, at: map<string, nat>, i: nat, ev: Event, k: string, e: Entry)
    requires Enumerates(order, at, was) && Pass(was, items, wasHist, hist, at, i, ev)
    requires i < |order| && k == order[i]
    ensures k in hist && Pass(was, items[k := e], wasHist, hist[k := hist[k] + [ev]], at, i + 1, ev)
  {
    assert k in at && at[k] == i;
    var items', hist' := items[k := e], hist[k := hist[k] + [ev]];
    SameKeys(items, k, e);
    SameKeys(hist, k, hist[k] + [ev]);
    forall j {:trigger items'[j]} | j in at && i + 1 <= at[j] ensures items'[j] == was[j] {
      assert items[j] == was[j];
    }
    forall j {:trigger hist'[j]} | j in at ensures hist'[j] == if at[j] < i + 1 then wasHist[j] + [ev] else wasHist[j] {
      if j != k {
        Elsewhere(order, at, was, i, j);
        assert hist'[j] == hist[j];
      }
    }
  }

  /** The first i entries are advanced, have reported, and have it in their history. */
  ghost predicate Passed(c: Config, was: map<string, Entry>, items: map<string, Entry>, wasHist: Histories,
                         hist: Histories, order: seq<string>, at: map<string, nat>, i: nat, n: nat,
                         first: int, parts: seq<seq<Transition>>)
    requires ValidConfig(c)
  {
    && AllReport(c, was, n, first, order, parts)
    && Pass(was, items, wasHist, hist, at, i, Elapsed(n, first))
    && AllBecame(c, was, items, at, i, n, first)
  }

  lemma Progresses(c: Config, was: map<string, Entry>, items: map<string, Entry>, wasHist: Histories, hist: Histories,
                   order: seq<string>, at: map<string, nat>, i: nat, n: nat, first: int, parts: seq<seq<Transition>>,
                   k: string, e: Entry, more: seq<Transition>)
    requires ValidConfig(c) && Enumerates(order, at, was)
    requires Passed(c, was, items, wasHist, hist, order, at, i, n, first, parts)
    requires |parts| == i < |order| && k == order[i] && k in items
    requires Reports(c, items[k], n, first, more) && Becomes(c, items[k], n, first, e)
    ensures k in hist
    ensures Passed(c, was, items[k := e], wasHist, hist[k := hist[k] + [Elapsed(n, first)]], order, at, i + 1, n, first,
                   parts + [more])
  {
    assert k in at && at[k] == i && items[k] == was[k];
    PassStep(was, items, wasHist, hist, order, at, i, Elapsed(n, first), k, e);
    BecameOne(c, was, items, order, at, i, n, first, k, e);
    ReportOne(c, was, n, first, order, at, parts, k, more);
  }

  /** tracker.go adjustHotCountLocked. */
  method AdjustHot(hot: int, before: Heat, after: Heat) returns (h: int)
    ensures h == hot + IsHot(after) - IsHot(before)
  {
    h := hot;
    if before == Hot && after != Hot {
      h := h - 1;
    }
    if before != Hot && after == Hot {
      h := h + 1;
    }
  }

  lemma AppendAgain(log: seq<Transition>, ts: seq<Transition>, more: seq<Transition>)
    ensures log + ts + more == log + (ts + more) && log + [] == log
  {
  }

  /** One entry of the pass. */
  method AdvanceOne(c: Config, items: map<string, Entry>, hot: int, k: string, n: int, first: int,
                    ghost log: seq<Transition>, ghost hist: Histories)
    returns (e: Entry, h: int, ts: seq<Transition>)
    requires n >= 1 && Balanced(c, items, log, hot, hist) && k in items
    ensures k in hist && Balanced(c, items[k := e], log + ts, h, hist[k := hist[k] + [Elapsed(n, first)]])
    ensures Reports(c, items[k], n, first, ts) && Becomes(c, items[k], n, first, e)
  {
    BalancedTidy(c, items, log, hot, hist);
    var rate := items[k].count as real / c.seconds;
    e, ts := AdvanceEntry(c, items[k], rate, n, first);
    h := AdjustHot(hot, items[k].state, e.state);
    e := e.(count := 0);
    BalancedElapse(c, items, log, hot, hist, k, e, n, first, h);
  }

  /** The first i entries of the order are done, and log, counter and histories agree. */
  ghost predicate Halfway(c: Config, was: map<string, Entry>, wasLog: seq<Transition>, wasHist: Histories,
                          order: seq<string>, at: map<string, nat>, n: nat, first: int, i: nat,
                          items: map<string, Entry>, hot: int, ts: seq<Transition>, hist: Histories,
                          parts: seq<seq<Transition>>)
  {
    && Balanced(c, items, wasLog + ts, hot, hist)
    && ts == Flatten(parts) && |parts| == i <= |order|
    && Passed(c, was, items, wasHist, hist, order, at, i, n, first, parts)
  }

  lemma NextInPass(c: Config, was: map<string, Entry>, wasLog: seq<Transition>, wasHist: Histories,
                   order: seq<string>, at: map<string, nat>, n: nat, first: int, i: nat,
                   items: map<string, Entry>, hot: int, ts: seq<Transition>, hist: Histories,
                   parts: seq<seq<Transition>>, k: string, e: Entry, h: int, more: seq<Transition>)
    requires Enumerates(order, at, was)
    requires Halfway(c, was, wasLog, wasHist, order, at, n, first, i, items, hot, ts, hist, parts)
    requires i < |order| && k == order[i] && k in items && k in hist
    requires Balanced(c, items[k := e], wasLog + ts + more, h, hist[k := hist[k] + [Elapsed(n, first)]])
    requires Reports(c, items[k], n, first, more) && Becomes(c, items[k], n, first, e)
    ensures Halfway(c, was, wasLog, wasHist, order, at, n, first, i + 1, items[k := e], h, ts + more,
                    hist[k := hist[k] + [Elapsed(n, first)]], parts + [more])
  {
    Progresses(c, was, items, wasHist, hist, order, at, i, n, first, parts, k, e, more);
    FlattenOne(parts, more);
    AppendAgain(wasLog, ts, more);
  }

  /** The next key of the order is tracked. */
  lemma NextIsTracked(order: seq<string>, at: map<string, nat>, was: map<string, Entry>, items: map<string, Entry>,
                      wasHist: Histories, hist: Histories, i: nat, ev: Event)
    requires Enumerates(order, at, was) && Pass(was, items, wasHist, hist, at, i, ev) && i < |order|
    ensures order[i] in items
  {
  }

  /** One pass over the entries, in any order. */
  method AdvanceAll(c: Config, was: map<string, Entry>, wasHot: int, order: seq<string>, n: int, first: int,
                    ghost at: map<string, nat>, ghost wasLog: seq<Transition>, ghost wasHist: Histories)
    returns (items: map<string, Entry>, hot: int, ts: seq<Transition>, ghost hist: Histories,
             ghost parts: seq<seq<Transition>>)
    requires n >= 1 && Balanced(c, was, wasLog, wasHot, wasHist) && Enumerates(order, at, was)
    ensures Halfway(c, was, wasLog, wasHist, order, at, n, first, |order|, items, hot, ts, hist, parts)
  {
    items, hot, ts, hist, parts := was, wasHot, [], wasHist, [];
    AppendAgain(wasLog, [], []);
    var i := 0;
    while i < |order|
      invariant i <= |order|
      invariant Halfway(c, was, wasLog, wasHist, order, at, n, first, i, items, hot, ts, hist, parts)
    {
      var k := order[i];
      NextIsTracked(order, at, was, items, wasHist, hist, i, Elapsed(n, first));
      var e, h, more := AdvanceOne(c, items, hot, k, n, first, wasLog + ts, hist);
      NextInPass(c, was, wasLog, wasHist, order, at, n, first, i, items, hot, ts, hist, parts, k, e, h, more);
      hist, parts := hist[k := hist[k] + [Elapsed(n, first)]], parts + [more];
      items, hot, ts, i := items[k := e], h, ts + more, i + 1;
    }
  }
}
