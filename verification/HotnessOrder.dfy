/** The order of snapshots, sorting by it, and that sorting has one result. */
module HotnessOrder {
  import opened HotnessModel

  datatype Snapshot = Snapshot(key: string, state: Heat, score: real, requestRate: real)

  /** Bytewise string order. */
  predicate Less(a: string, b: string) {
    b != "" && (a == "" || a[0] < b[0] || (a[0] == b[0] && Less(a[1..], b[1..])))
  }

  lemma {:induction false} LessIrreflexive(a: string)
    ensures !Less(a, a)
    decreases |a|
  {
    if a != "" {
      LessIrreflexive(a[1..]);
    }
  }

  lemma {:induction false} LessTransitive(a: string, b: string, c: string)
    requires Less(a, b) && Less(b, c)
    ensures Less(a, c)
    decreases |a|
  {
    if a != "" && a[0] == b[0] == c[0] {
      LessTransitive(a[1..], b[1..], c[1..]);
    }
  }

  lemma {:induction false} LessTotal(a: string, b: string)
    requires a != b
    ensures Less(a, b) || Less(b, a)
    decreases |a|
  {
    if a != "" && b != "" && a[0] == b[0] {
      assert a == [a[0]] + a[1..] && b == [b[0]] + b[1..];
      LessTotal(a[1..], b[1..]);
    }
  }

  /** scorer.go snapshotBetter: HOT first, then score, then key. */
  predicate Better(left: Snapshot, right: Snapshot) {
    if left.state == Hot && right.state != Hot then true
    else if left.state != Hot && right.state == Hot then false
    else if left.score == right.score then Less(left.key, right.key)
    else left.score > right.score
  }

  lemma BetterIrreflexive(a: Snapshot)
    ensures !Better(a, a)
  {
    LessIrreflexive(a.key);
  }

  lemma BetterTransitive(a: Snapshot, b: Snapshot, c: Snapshot)
    requires Better(a, b) && Better(b, c)
    ensures Better(a, c)
  {
    if Less(a.key, b.key) && Less(b.key, c.key) {
      LessTransitive(a.key, b.key, c.key);
    }
  }

  lemma BetterTotal(a: Snapshot, b: Snapshot)
    requires a.key != b.key
    ensures Better(a, b) || Better(b, a)
  {
    LessTotal(a.key, b.key);
  }

  lemma BetterAsymmetric(a: Snapshot, b: Snapshot)
    requires Better(a, b)
    ensures !Better(b, a)
  {
    if Better(b, a) {
      BetterTransitive(a, b, a);
      BetterIrreflexive(a);
    }
  }

  /** Not being better is transitive too, even for equal keys. */
  lemma NotBetterTransitive(a: Snapshot, b: Snapshot, c: Snapshot)
    requires !Better(a, b) && !Better(b, c)
    ensures !Better(a, c)
  {
    if a.key == b.key || b.key == c.key {
      if Better(a, c) && a.score == b.score == c.score {
        BetterAsymmetric(a, c);
      }
    } else {
      BetterTotal(a, b);
      BetterTotal(b, c);
      BetterTransitive(c, b, a);
      BetterAsymmetric(c, a);
    }
  }

  predicate DistinctKeys(s: seq<Snapshot>) {
    forall i, j :: 0 <= i < j < |s| ==> s[i].key != s[j].key
  }

  predicate Sorted(s: seq<Snapshot>) {
    forall i, j :: 0 <= i < j < |s| ==> Better(s[i], s[j])
  }

  function Insert(x: Snapshot, s: seq<Snapshot>): (r: seq<Snapshot>)
    ensures |r| == |s| + 1
  {
    if s == [] || Better(x, s[0]) then [x] + s else [s[0]] + Insert(x, s[1..])
  }

  /** The full ordering: what sorting every snapshot gives. */
  function FullSort(s: seq<Snapshot>): (r: seq<Snapshot>)
    ensures |r| == |s|
  {
    if s == [] then [] else Insert(s[0], FullSort(s[1..]))
  }

  lemma {:induction false} InsertKeeps(x: Snapshot, s: seq<Snapshot>)
    ensures multiset(Insert(x, s)) == multiset{x} + multiset(s)
    decreases |s|
  {
    if s == [] || Better(x, s[0]) {
    } else {
      InsertKeeps(x, s[1..]);
      assert s == [s[0]] + s[1..];
    }
  }

  lemma {:induction false} InsertSorts(x: Snapshot, s: seq<Snapshot>)
    requires Sorted(s) && forall y :: y in s ==> y.key != x.key
    ensures Sorted(Insert(x, s))
    decreases |s|
  {
    if s == [] {
    } else if Better(x, s[0]) {
      forall i | 0 <= i < |s| ensures Better(x, s[i]) {
        if i > 0 {
          BetterTransitive(x, s[0], s[i]);
        }
      }
    } else {
      BetterTotal(x, s[0]);
      InsertSorts(x, s[1..]);
      InsertKeeps(x, s[1..]);
      var rest := Insert(x, s[1..]);
      forall i | 0 <= i < |rest| ensures Better(s[0], rest[i]) {
        assert rest[i] in multiset(rest);
        assert rest[i] == x || rest[i] in s[1..];
      }
    }
  }

  lemma {:induction false} FullSortKeeps(s: seq<Snapshot>)
    ensures multiset(FullSort(s)) == multiset(s)
    decreases |s|
  {
    if s != [] {
      FullSortKeeps(s[1..]);
      InsertKeeps(s[0], FullSort(s[1..]));
      assert s == [s[0]] + s[1..];
    }
  }

  lemma {:induction false} FullSortSorts(s: seq<Snapshot>)
    requires DistinctKeys(s)
    ensures Sorted(FullSort(s)) && forall x :: x in FullSort(s) <==> x in s
    decreases |s|
  {
    forall x ensures x in FullSort(s) <==> x in s {
      FullSortKeeps(s);
      assert x in FullSort(s) <==> x in multiset(FullSort(s));
    }
    if s != [] {
      FullSortSorts(s[1..]);
      InsertSorts(s[0], FullSort(s[1..]));
    }
  }

  /** Only one sorted sequence has given elements. */
  lemma {:induction false} SortedIsUnique(a: seq<Snapshot>, b: seq<Snapshot>)
    requires Sorted(a) && Sorted(b) && forall x :: x in a <==> x in b
    ensures a == b
    decreases |a|
  {
    if b != [] {
      assert b[0] in b;
    }
    if a != [] {
      assert a[0] in b;
      HeadsEqual(a, b);
      forall x ensures x in a[1..] <==> x in b[1..] {
        TailElements(a, x);
        TailElements(b, x);
      }
      SortedIsUnique(a[1..], b[1..]);
      assert a == [a[0]] + a[1..] && b == [b[0]] + b[1..];
    }
  }

  lemma HeadsEqual(a: seq<Snapshot>, b: seq<Snapshot>)
    requires Sorted(a) && Sorted(b) && a != [] && b != [] && a[0] in b && b[0] in a
    ensures a[0] == b[0]
  {
    if a[0] != b[0] {
      var i :| 0 <= i < |b| && b[i] == a[0];
      var j :| 0 <= j < |a| && a[j] == b[0];
      BetterAsymmetric(b[0], b[i]);
    }
  }

  lemma TailElements(a: seq<Snapshot>, x: Snapshot)
    requires Sorted(a) && a != []
    ensures x in a[1..] <==> x in a && x != a[0]
  {
    assert a == [a[0]] + a[1..];
    BetterIrreflexive(a[0]);
  }

  // ------------------------------------------------- what the order means

  /** A proper prefix, or smaller at the first difference. */
  predicate KeyBefore(a: string, b: string) {
    a < b || exists i :: 0 <= i < |a| && i < |b| && a[..i] == b[..i] && a[i] < b[i]
  }

  /** No HOT snapshot ranks below one that is not; within a kind the scores do not
      increase, and equal scores are in key order. */
  predicate Ranks(x: Snapshot, y: Snapshot) {
    && (y.state == Hot ==> x.state == Hot)
    && ((x.state == Hot <==> y.state == Hot) ==>
          x.score >= y.score && (x.score == y.score ==> KeyBefore(x.key, y.key)))
  }

  lemma {:induction false} LessMeans(a: string, b: string)
    requires Less(a, b)
    ensures KeyBefore(a, b)
    decreases |a|
  {
    if a != "" {
      if a[0] < b[0] {
        assert a[..0] == b[..0];
      } else {
        LessMeans(a[1..], b[1..]);
        assert a == [a[0]] + a[1..] && b == [b[0]] + b[1..];
        if !(a[1..] < b[1..]) {
          var i :| 0 <= i < |a[1..]| && i < |b[1..]| && a[1..][..i] == b[1..][..i] && a[1..][i] < b[1..][i];
          assert a[..i + 1] == [a[0]] + a[1..][..i] && b[..i + 1] == [b[0]] + b[1..][..i];
          assert a[i + 1] < b[i + 1];
        }
      }
    }
  }

  lemma BetterRanks(x: Snapshot, y: Snapshot)
    requires Better(x, y)
    ensures Ranks(x, y)
  {
    if Less(x.key, y.key) {
      LessMeans(x.key, y.key);
    }
  }

  /** A report of some of the snapshots: in rank order, and none left out ranks above one
      that is in. */
  ghost predicate Leaders(all: seq<Snapshot>, out: seq<Snapshot>) {
    && (forall x :: x in out ==> x in all)
    && (forall i, j :: 0 <= i < j < |out| ==> Ranks(out[i], out[j]))
    && (forall x, y :: x in out && y in all && y !in out ==> Ranks(x, y))
  }

  lemma PrefixLeads(all: seq<Snapshot>, n: nat)
    requires DistinctKeys(all) && n <= |all|
    ensures Leaders(all, FullSort(all)[..n])
  {
    var s := FullSort(all);
    FullSortSorts(all);
    forall i, j | 0 <= i < j < |s| ensures Ranks(s[i], s[j]) {
      BetterRanks(s[i], s[j]);
    }
    forall x, y | x in s[..n] && y in all && y !in s[..n] ensures Ranks(x, y) {
      assert y in s && forall a :: 0 <= a < n ==> s[..n][a] == s[a];
      var i, j :| 0 <= i < n && s[i] == x && 0 <= j < |s| && s[j] == y;
    }
  }
}
