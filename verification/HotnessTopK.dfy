/** scorer.go topSnapshots: a bounded heap whose root is the worst kept snapshot
    selects exactly the first `limit` snapshots of the full ordering. */
module HotnessTopK {
  import opened HotnessOrder

  function Parent(i: nat): nat
    requires i > 0
  {
    (i - 1) / 2
  }

  /** Position i respects the heap order: its parent is no better than it. */
  predicate Ordered(h: seq<Snapshot>, i: nat)
    requires 0 < i < |h|
  {
    !Better(h[Parent(i)], h[i])
  }

  /** Position i would fit under its parent's parent. */
  predicate Fits(h: seq<Snapshot>, i: nat)
    requires 0 < i < |h| && 0 < Parent(i)
  {
    !Better(h[Parent(Parent(i))], h[i])
  }

  ghost predicate Heap(h: seq<Snapshot>) {
    forall i {:trigger Ordered(h, i)} :: 0 < i < |h| ==> Ordered(h, i)
  }

  /** Nothing in a heap is worse than its root. */
  lemma {:induction false} RootIsWorst(h: seq<Snapshot>, i: nat)
    requires Heap(h) && i < |h|
    ensures !Better(h[0], h[i])
    decreases i
  {
    if i == 0 {
      BetterIrreflexive(h[0]);
    } else {
      RootIsWorst(h, Parent(i));
      assert Ordered(h, i);
      NotBetterTransitive(h[0], h[Parent(i)], h[i]);
    }
  }

  function Swap(h: seq<Snapshot>, i: nat, j: nat): seq<Snapshot>
    requires i < |h| && j < |h|
  {
    h[i := h[j]][j := h[i]]
  }

  lemma SwapKeeps(h: seq<Snapshot>, i: nat, j: nat)
    requires i < |h| && j < |h|
    ensures multiset(Swap(h, i, j)) == multiset(h) && |Swap(h, i, j)| == |h|
  {
  }

  // -------------------------------------------------------------------- up

  /** All but position j are in order, and j's children would fit under its parent. */
  ghost predicate HeapUp(h: seq<Snapshot>, j: nat) {
    && (forall i {:trigger Ordered(h, i)} :: 0 < i < |h| && i != j ==> Ordered(h, i))
    && (forall i {:trigger Fits(h, i)} :: 0 < i < |h| && Parent(i) == j && 0 < j ==> Fits(h, i))
  }

  lemma UpStep(h: seq<Snapshot>, j: nat, h': seq<Snapshot>)
    requires 0 < j < |h| && HeapUp(h, j) && Better(h[Parent(j)], h[j]) && h' == Swap(h, Parent(j), j)
    ensures HeapUp(h', Parent(j))
  {
    var p := Parent(j);
    BetterAsymmetric(h[p], h[j]);
    forall i {:trigger Ordered(h', i)} | 0 < i < |h'| && i != p ensures Ordered(h', i) {
      assert i != j ==> Ordered(h, i);
      if i != j && Parent(i) == p {
        NotBetterTransitive(h[j], h[p], h[i]);
      } else if i != j && Parent(i) == j {
        assert Fits(h, i);
      }
    }
    forall i {:trigger Fits(h', i)} | 0 < i < |h'| && Parent(i) == p && 0 < p ensures Fits(h', i) {
      assert Ordered(h, p);
      if i != j {
        assert Ordered(h, i);
        NotBetterTransitive(h[Parent(p)], h[p], h[i]);
      }
    }
  }

  /** container/heap up. */
  method Up(h0: seq<Snapshot>, j0: nat) returns (h: seq<Snapshot>)
    requires j0 < |h0| && HeapUp(h0, j0)
    ensures Heap(h) && multiset(h) == multiset(h0) && |h| == |h0|
  {
    h := h0;
    var j: nat := j0;
    while j > 0 && Better(h[Parent(j)], h[j])
      invariant j < |h| == |h0| && HeapUp(h, j) && multiset(h) == multiset(h0)
      decreases j
    {
      var p := Parent(j);
      UpStep(h, j, Swap(h, p, j));
      SwapKeeps(h, p, j);
      h := Swap(h, p, j);
      j := p;
    }
  }

  // ------------------------------------------------------------------ down

  /** All but i's children are in order, and they would fit under i's parent. */
  ghost predicate HeapDown(h: seq<Snapshot>, i: nat) {
    && (forall k {:trigger Ordered(h, k)} :: 0 < k < |h| && Parent(k) != i ==> Ordered(h, k))
    && (forall k {:trigger Fits(h, k)} :: 0 < k < |h| && Parent(k) == i && 0 < i ==> Fits(h, k))
  }

  /** The worse child of i. */
  function WorseChild(h: seq<Snapshot>, i: nat): (j: nat)
    requires 2 * i + 1 < |h|
    ensures 0 < j < |h| && Parent(j) == i
  {
    if 2 * i + 2 < |h| && Better(h[2 * i + 1], h[2 * i + 2]) then 2 * i + 2 else 2 * i + 1
  }

  lemma WorseChildIsWorse(h: seq<Snapshot>, i: nat, k: nat)
    requires 2 * i + 1 < |h| && 0 < k < |h| && Parent(k) == i
    ensures !Better(h[WorseChild(h, i)], h[k])
  {
    assert k == 2 * i + 1 || k == 2 * i + 2;
    BetterIrreflexive(h[k]);
    if 2 * i + 2 < |h| && Better(h[2 * i + 1], h[2 * i + 2]) {
      BetterAsymmetric(h[2 * i + 1], h[2 * i + 2]);
    }
  }

  lemma DownStep(h: seq<Snapshot>, i: nat, j: nat, h': seq<Snapshot>)
    requires 2 * i + 1 < |h| && HeapDown(h, i) && j == WorseChild(h, i) && Better(h[i], h[j]) && h' == Swap(h, i, j)
    ensures HeapDown(h', j)
  {
    BetterAsymmetric(h[i], h[j]);
    forall k {:trigger Ordered(h', k)} | 0 < k < |h'| && Parent(k) != j ensures Ordered(h', k) {
      if Parent(k) == i {
        WorseChildIsWorse(h, i, k);
      } else if k == i {
        assert Fits(h, j);
      } else {
        assert Ordered(h, k);
      }
    }
    forall k {:trigger Fits(h', k)} | 0 < k < |h'| && Parent(k) == j ensures Fits(h', k) {
      assert Ordered(h, k);
    }
  }

  lemma DownDone(h: seq<Snapshot>, i: nat)
    requires HeapDown(h, i) && i < |h|
    requires 2 * i + 1 < |h| ==> !Better(h[i], h[WorseChild(h, i)])
    ensures Heap(h)
  {
    forall k {:trigger Ordered(h, k)} | 0 < k < |h| ensures Ordered(h, k) {
      if Parent(k) == i {
        WorseChildIsWorse(h, i, k);
        NotBetterTransitive(h[i], h[WorseChild(h, i)], h[k]);
      }
    }
  }

  /** container/heap down, from the root: what Fix does after the root changed. */
  method Down(h0: seq<Snapshot>) returns (h: seq<Snapshot>)
    requires |h0| > 0 && HeapDown(h0, 0)
    ensures Heap(h) && multiset(h) == multiset(h0) && |h| == |h0|
  {
    h := h0;
    var i: nat := 0;
    while 2 * i + 1 < |h| && Better(h[i], h[WorseChild(h, i)])
      invariant i < |h| == |h0| && HeapDown(h, i) && multiset(h) == multiset(h0)
      decreases |h| - i
    {
      var j := WorseChild(h, i);
      DownStep(h, i, j, Swap(h, i, j));
      SwapKeeps(h, i, j);
      h := Swap(h, i, j);
      i := j;
    }
    DownDone(h, i);
  }

  // ------------------------------------------------------------- selection

  /** What is kept is better than everything passed over. */
  ghost predicate Splits(all: multiset<Snapshot>, kept: multiset<Snapshot>, rest: multiset<Snapshot>) {
    all == kept + rest && forall x, y :: x in kept && y in rest ==> Better(x, y)
  }

  /** The worst kept snapshot gives way to a better one. */
  lemma SplitsReplace(all: multiset<Snapshot>, kept: multiset<Snapshot>, rest: multiset<Snapshot>, h: seq<Snapshot>,
                      x: Snapshot)
    requires Splits(all, kept, rest) && kept == multiset(h) && h != [] && Heap(h) && Better(x, h[0])
    requires forall y :: y in kept ==> y == h[0] || y.key != h[0].key
    requires kept[h[0]] == 1
    ensures Splits(all + multiset{x}, kept - multiset{h[0]} + multiset{x}, rest + multiset{h[0]})
  {
    var kept', rest' := kept - multiset{h[0]} + multiset{x}, rest + multiset{h[0]};
    forall a, b | a in kept' && b in rest' ensures Better(a, b) {
      KeptBeatsRoot(kept, h, x, a);
      if b != h[0] {
        assert Better(h[0], b);
        BetterTransitive(a, h[0], b);
      }
    }
  }

  lemma KeptBeatsRoot(kept: multiset<Snapshot>, h: seq<Snapshot>, x: Snapshot, a: Snapshot)
    requires kept == multiset(h) && h != [] && Heap(h) && Better(x, h[0]) && kept[h[0]] == 1
    requires forall y :: y in kept ==> y == h[0] || y.key != h[0].key
    requires a in kept - multiset{h[0]} + multiset{x}
    ensures Better(a, h[0])
  {
    if a != x {
      assert a in kept && a != h[0];
      var i :| 0 <= i < |h| && h[i] == a;
      RootIsWorst(h, i);
      BetterTotal(a, h[0]);
    }
  }

  /** A snapshot no better than the worst kept one is passed over. */
  lemma SplitsSkip(all: multiset<Snapshot>, kept: multiset<Snapshot>, rest: multiset<Snapshot>, h: seq<Snapshot>,
                   x: Snapshot)
    requires Splits(all, kept, rest) && kept == multiset(h) && h != [] && Heap(h) && !Better(x, h[0])
    requires forall y :: y in kept ==> y.key != x.key
    ensures Splits(all + multiset{x}, kept, rest + multiset{x})
  {
    forall a | a in kept ensures Better(a, x) {
      var i :| 0 <= i < |h| && h[i] == a;
      RootIsWorst(h, i);
      NotBetterTransitive(x, h[0], a);
      BetterTotal(a, x);
    }
  }

  // -------------------------------------------------- distinct keys, counted

  lemma {:induction false} CountOfDistinct(s: seq<Snapshot>, x: Snapshot)
    requires DistinctKeys(s)
    ensures multiset(s)[x] <= 1
    decreases |s|
  {
    if s != [] {
      var init, last := s[..|s| - 1], s[|s| - 1];
      assert s == init + [last];
      CountOfDistinct(init, x);
      if x == last {
        assert x !in init;
      }
    }
  }

  lemma CountOfTwo(s: seq<Snapshot>, i: nat, j: nat)
    requires i < j < |s| && s[i] == s[j]
    ensures multiset(s)[s[i]] >= 2
  {
    assert s == s[..j] + [s[j]] + s[j + 1..];
    assert s[i] in s[..j];
  }

  lemma DistinctPart(part: seq<Snapshot>, s: seq<Snapshot>)
    requires DistinctKeys(s) && multiset(part) <= multiset(s)
    ensures DistinctKeys(part)
    ensures forall x, y :: x in part && y in part && x.key == y.key ==> x == y
  {
    forall x, y | x in part && y in part && x.key == y.key ensures x == y {
      assert x in multiset(part) && y in multiset(part);
      var i :| 0 <= i < |s| && s[i] == x;
      var j :| 0 <= j < |s| && s[j] == y;
    }
    forall i, j | 0 <= i < j < |part| ensures part[i].key != part[j].key {
      if part[i].key == part[j].key {
        assert part[i] in part && part[j] in part;
        CountOfTwo(part, i, j);
        CountOfDistinct(s, part[i]);
      }
    }
  }

  lemma JoinSorted(a: seq<Snapshot>, b: seq<Snapshot>)
    requires Sorted(a) && Sorted(b) && forall x, y :: x in a && y in b ==> Better(x, y)
    ensures Sorted(a + b)
  {
    forall i, j | 0 <= i < j < |a + b| ensures Better((a + b)[i], (a + b)[j]) {
      if i < |a| <= j {
        assert a[i] in a && b[j - |a|] in b;
      }
    }
  }

  /** The parts of a split, sorted: each better than the other's, and all elements. */
  lemma SortedParts(all: seq<Snapshot>, kept: seq<Snapshot>, rest: seq<Snapshot>)
    requires DistinctKeys(all) && Splits(multiset(all), multiset(kept), multiset(rest))
    ensures Sorted(FullSort(kept)) && Sorted(FullSort(rest))
    ensures forall x, y :: x in FullSort(kept) && y in FullSort(rest) ==> Better(x, y)
    ensures forall x :: x in FullSort(kept) + FullSort(rest) <==> x in all
  {
    DistinctPart(kept, all);
    DistinctPart(rest, all);
    FullSortSorts(kept);
    FullSortSorts(rest);
    forall x, y | x in FullSort(kept) && y in FullSort(rest) ensures Better(x, y) {
      assert x in multiset(kept) && y in multiset(rest);
    }
    forall x ensures x in FullSort(kept) + FullSort(rest) <==> x in all {
      assert x in multiset(all) <==> x in multiset(kept) || x in multiset(rest);
    }
  }

  /** What is kept, sorted, is the beginning of everything, sorted. */
  lemma KeptIsPrefix(all: seq<Snapshot>, kept: seq<Snapshot>, rest: seq<Snapshot>)
    requires DistinctKeys(all) && Splits(multiset(all), multiset(kept), multiset(rest))
    ensures |kept| <= |all| && FullSort(kept) == FullSort(all)[..|kept|]
  {
    var a, b := FullSort(kept), FullSort(rest);
    SortedParts(all, kept, rest);
    JoinSorted(a, b);
    FullSortSorts(all);
    SortedIsUnique(a + b, FullSort(all));
    assert FullSort(all)[..|a|] == a;
  }

  lemma PushHeap(h: seq<Snapshot>, x: Snapshot)
    requires Heap(h)
    ensures HeapUp(h + [x], |h|)
  {
    forall i {:trigger Ordered(h + [x], i)} | 0 < i < |h| ensures Ordered(h + [x], i) {
      assert Ordered(h, i);
    }
  }

  lemma ReplaceRoot(h: seq<Snapshot>, x: Snapshot)
    requires Heap(h) && h != []
    ensures HeapDown(h[0 := x], 0) && multiset(h[0 := x]) == multiset(h) - multiset{h[0]} + multiset{x}
  {
    forall i {:trigger Ordered(h[0 := x], i)} | 0 < i < |h| && Parent(i) != 0 ensures Ordered(h[0 := x], i) {
      assert Ordered(h, i);
    }
  }

  /** One more snapshot for a full selection. */
  method Consider(h: seq<Snapshot>, x: Snapshot, ghost seen: seq<Snapshot>, ghost rest: seq<Snapshot>)
    returns (h': seq<Snapshot>, ghost rest': seq<Snapshot>)
    requires Heap(h) && h != [] && DistinctKeys(seen + [x]) && Splits(multiset(seen), multiset(h), multiset(rest))
    ensures Heap(h') && |h'| == |h| && Splits(multiset(seen + [x]), multiset(h'), multiset(rest'))
  {
    DistinctKept(seen, h, rest, x);
    if Better(x, h[0]) {
      SplitsReplace(multiset(seen), multiset(h), multiset(rest), h, x);
      ReplaceRoot(h, x);
      h' := Down(h[0 := x]);
      rest' := rest + [h[0]];
    } else {
      SplitsSkip(multiset(seen), multiset(h), multiset(rest), h, x);
      h', rest' := h, rest + [x];
    }
  }

  lemma DistinctKept(seen: seq<Snapshot>, h: seq<Snapshot>, rest: seq<Snapshot>, x: Snapshot)
    requires h != [] && DistinctKeys(seen + [x]) && Splits(multiset(seen), multiset(h), multiset(rest))
    ensures forall y :: y in multiset(h) ==> y == h[0] || y.key != h[0].key
    ensures multiset(h)[h[0]] == 1
    ensures forall y :: y in multiset(h) ==> y.key != x.key
  {
    var all := seen + [x];
    assert DistinctKeys(seen) by {
      forall i, j | 0 <= i < j < |seen| ensures seen[i].key != seen[j].key {
        assert all[i] == seen[i] && all[j] == seen[j];
      }
    }
    DistinctPart(h, seen);
    CountOfDistinct(seen, h[0]);
    assert h[0] in h;
    forall y | y in multiset(h) ensures y.key != x.key {
      assert y in multiset(seen);
      var i :| 0 <= i < |seen| && seen[i] == y;
      assert all[i] == y && all[|seen|] == x;
    }
  }

  /** The bounded heap that one pass over the snapshots leaves. */
  method Select(snapshots: seq<Snapshot>, limit: int) returns (selected: seq<Snapshot>)
    requires DistinctKeys(snapshots) && 0 < limit < |snapshots|
    ensures FullSort(selected) == FullSort(snapshots)[..limit]
  {
    selected := [];
    ghost var rest: seq<Snapshot> := [];
    var i := 0;
    while i < |snapshots|
      invariant i <= |snapshots| && |selected| == (if i < limit then i else limit)
      invariant Heap(selected) && (i < limit ==> rest == [])
      invariant Splits(multiset(snapshots[..i]), multiset(selected), multiset(rest))
    {
      var snapshot := snapshots[i];
      assert snapshots[..i + 1] == snapshots[..i] + [snapshot];
      if |selected| < limit {
        PushHeap(selected, snapshot);
        selected := Up(selected + [snapshot], |selected|);
      } else {
        selected, rest := Consider(selected, snapshot, snapshots[..i], rest);
      }
      i := i + 1;
    }
    assert snapshots[..i] == snapshots;
    KeptIsPrefix(snapshots, selected, rest);
  }

  /** scorer.go topSnapshots, for the snapshots in any iteration order. */
  method TopSnapshots(snapshots: seq<Snapshot>, limit: int) returns (out: seq<Snapshot>)
    requires DistinctKeys(snapshots)
    ensures out == if limit <= 0 || limit >= |snapshots| then FullSort(snapshots) else FullSort(snapshots)[..limit]
    ensures |out| == (if limit <= 0 || limit >= |snapshots| then |snapshots| else limit) && Leaders(snapshots, out)
  {
    if limit <= 0 || limit >= |snapshots| {
      PrefixLeads(snapshots, |snapshots|);
      assert FullSort(snapshots)[..|snapshots|] == FullSort(snapshots);
      return FullSort(snapshots);
    }
    var selected := Select(snapshots, limit);
    PrefixLeads(snapshots, limit);
    return FullSort(selected);
  }

  /** The result does not depend on the iteration order of the map. */
  lemma OrderDoesNotMatter(a: seq<Snapshot>, b: seq<Snapshot>)
    requires DistinctKeys(a) && DistinctKeys(b) && forall x :: x in a <==> x in b
    ensures FullSort(a) == FullSort(b)
  {
    FullSortSorts(a);
    FullSortSorts(b);
    SortedIsUnique(FullSort(a), FullSort(b));
  }
}
