/** The audit report over the tracker's snapshots, and when it calls itself complete. */
module Audit {
  import opened HotnessModel
  import opened HotnessPass
  import opened HotnessCalls
  import opened HotnessTracker
  import opened HotnessOrder
  import opened HotnessTopK

  const DEFAULT_AUDIT_LIMIT := 100
  const MAX_AUDIT_LIMIT := 1000

  datatype AuditEntry = AuditEntry(id: string, requestRate: real, state: Heat)

  datatype Report = Report(
    trackedKeys: int, evictions: nat, capacityDropped: nat, oversizedDropped: nat,
    telemetryComplete: bool, returnedEntries: int, truncated: bool, entries: seq<AuditEntry>)

  function NormalizeLimit(limit: int): int {
    if limit <= 0 then DEFAULT_AUDIT_LIMIT else if limit > MAX_AUDIT_LIMIT then MAX_AUDIT_LIMIT else limit
  }

  /** tracker.go snapshot; `round` is the display rounding, any function. */
  function SnapshotOf(e: Entry, round: real -> real): Snapshot {
    Snapshot(e.key, e.state, round(e.score), round(e.lastRate))
  }

  function SnapshotsOf(items: map<string, Entry>, order: seq<string>, round: real -> real): (s: seq<Snapshot>)
    requires forall k :: k in order ==> k in items
    ensures |s| == |order| && forall i :: 0 <= i < |s| ==> s[i] == SnapshotOf(items[order[i]], round)
  {
    seq(|order|, i requires 0 <= i < |order| => SnapshotOf(items[order[i]], round))
  }

  function KeysIn(s: seq<Snapshot>): set<string> { set x | x in s :: x.key }

  lemma EnumeratedKeys(order: seq<string>, at: map<string, nat>, items: map<string, Entry>)
    requires Enumerates(order, at, items)
    ensures forall k :: k in order ==> k in items
  {
    forall k | k in order ensures k in items {
      var i :| 0 <= i < |order| && order[i] == k;
    }
  }

  lemma SnapshotKeys(items: map<string, Entry>, order: seq<string>, at: map<string, nat>, round: real -> real)
    requires Enumerates(order, at, items) && (forall k :: k in items ==> items[k].key == k)
    requires forall k :: k in order ==> k in items
    ensures DistinctKeys(SnapshotsOf(items, order, round)) && KeysIn(SnapshotsOf(items, order, round)) == items.Keys
  {
    var s := SnapshotsOf(items, order, round);
    forall i, j | 0 <= i < j < |s| ensures s[i].key != s[j].key {
      assert at[order[i]] == i && at[order[j]] == j;
    }
    forall k | k in items ensures k in KeysIn(s) {
      assert order[at[k]] == k;
      assert s[at[k]] in s;
    }
  }

  lemma SortedKeys(s: seq<Snapshot>)
    requires DistinctKeys(s)
    ensures DistinctKeys(FullSort(s)) && KeysIn(FullSort(s)) == KeysIn(s)
  {
    FullSortSorts(s);
    FullSortKeeps(s);
    DistinctPart(FullSort(s), s);
  }

  lemma PrefixKeys(s: seq<Snapshot>, n: nat)
    requires DistinctKeys(s) && n <= |s|
    ensures DistinctKeys(s[..n]) && KeysIn(s[..n]) <= KeysIn(s)
  {
  }

  /** The leading snapshots of the tracked entries, as many as allowed: what the entries
      say, in rank order, and no other entry ranks above them. */
  ghost predicate Tops(items: map<string, Entry>, round: real -> real, limit: int, top: seq<Snapshot>) {
    && |top| == (if limit < |items| then limit else |items|) && DistinctKeys(top)
    && (forall i :: 0 <= i < |top| ==> top[i].key in items && Shows(items[top[i].key], round, top[i]))
    && (forall i, j :: 0 <= i < j < |top| ==> Ranks(top[i], top[j]))
    && (forall x, k :: x in top && k in items && k !in KeysIn(top) ==> Ranks(x, SnapshotOf(items[k], round)))
  }

  ghost predicate Shows(e: Entry, round: real -> real, x: Snapshot) {
    x.key == e.key && x.state == e.state && x.score == round(e.score) && x.requestRate == round(e.lastRate)
  }

  lemma LeadersTop(items: map<string, Entry>, order: seq<string>, at: map<string, nat>, round: real -> real,
                   limit: int, top: seq<Snapshot>)
    requires Enumerates(order, at, items) && (forall k :: k in items ==> items[k].key == k)
    requires limit > 0 && (forall k :: k in order ==> k in items) && DistinctKeys(top)
    requires Leaders(SnapshotsOf(items, order, round), top)
    requires |top| == if limit >= |order| then |order| else limit
    ensures Tops(items, round, limit, top)
  {
    var all := SnapshotsOf(items, order, round);
    EnumerationSize(order, at, items);
    forall i | 0 <= i < |top| ensures top[i].key in items && Shows(items[top[i].key], round, top[i]) {
      assert top[i] in all;
    }
    forall x, k | x in top && k in items && k !in KeysIn(top) ensures Ranks(x, SnapshotOf(items[k], round)) {
      assert order[at[k]] == k;
      var y := all[at[k]];
      assert y == SnapshotOf(items[k], round) && y in all && y.key == k;
    }
  }

  /** The selected keys: each once, and all of them if there are enough. */
  lemma TopKeys(items: map<string, Entry>, order: seq<string>, at: map<string, nat>, round: real -> real, limit: int,
                top: seq<Snapshot>)
    requires Enumerates(order, at, items) && (forall k :: k in items ==> items[k].key == k)
    requires limit > 0 && forall k :: k in order ==> k in items
    requires var s := FullSort(SnapshotsOf(items, order, round)); top == if limit >= |s| then s else s[..limit]
    ensures DistinctKeys(top) && KeysIn(top) <= items.Keys && (|items| <= |top| ==> KeysIn(top) == items.Keys)
  {
    var all := SnapshotsOf(items, order, round);
    SnapshotKeys(items, order, at, round);
    EnumerationSize(order, at, items);
    SortedKeys(all);
    if limit < |all| {
      PrefixKeys(FullSort(all), limit);
    }
  }

  /** The snapshots a report of this length is made from. */
  method TopOf(items: map<string, Entry>, order: seq<string>, ghost at: map<string, nat>, round: real -> real,
               limit: int)
    returns (top: seq<Snapshot>)
    requires Enumerates(order, at, items) && limit > 0 && forall k :: k in items ==> items[k].key == k
    ensures DistinctKeys(top) && KeysIn(top) <= items.Keys && (|items| <= |top| ==> KeysIn(top) == items.Keys)
    ensures Tops(items, round, limit, top)
  {
    EnumeratedKeys(order, at, items);
    SnapshotKeys(items, order, at, round);
    top := TopSnapshots(SnapshotsOf(items, order, round), limit);
    TopKeys(items, order, at, round, limit, top);
    LeadersTop(items, order, at, round, limit, top);
  }

  /** How many entries a report may have: 100 unless asked for, and never over 1000. */
  predicate Allowed(limit: int, n: int) {
    if limit <= 0 then n == 100 else if limit <= 1000 then n == limit else n == 1000
  }

  /** The report of a tracker state, and the keys behind its entries. */
  method MakeReport(f: Fields, limit: int, order: seq<string>, ghost at: map<string, nat>, identify: string -> string,
                    round: real -> real)
    returns (report: Report, snapshots: seq<Snapshot>)
    requires Enumerates(order, at, f.items) && forall k :: k in f.items ==> f.items[k].key == k
    ensures |report.entries| == |snapshots| == report.returnedEntries && DistinctKeys(snapshots)
    ensures exists n :: Allowed(limit, n) && Tops(f.items, round, n, snapshots)
    ensures KeysIn(snapshots) <= f.items.Keys
    ensures forall i :: 0 <= i < |snapshots| ==>
      report.entries[i] == AuditEntry(identify(snapshots[i].key), snapshots[i].requestRate, snapshots[i].state)
    ensures report.trackedKeys == |f.items| && report.evictions == f.evictions
    ensures report.capacityDropped == f.capacityDrops && report.oversizedDropped == f.oversized
    ensures report.truncated <==> |f.items| > |snapshots|
    ensures report.telemetryComplete <==>
      |f.items| <= |snapshots| && f.evictions == 0 && f.capacityDrops == 0 && f.oversized == 0
    ensures |f.items| <= |snapshots| ==> KeysIn(snapshots) == f.items.Keys
  {
    var top := TopOf(f.items, order, at, round, NormalizeLimit(limit));
    assert Allowed(limit, NormalizeLimit(limit));
    var entries := Entries(top, identify);
    var tracked := |f.items|;
    report := Report(tracked, f.evictions, f.capacityDrops, f.oversized,
                     tracked <= |entries| && f.evictions == 0 && f.capacityDrops == 0 && f.oversized == 0,
                     |entries|, tracked > |entries|, entries);
    snapshots := top;
  }

  /** audit.go Audit. `identify` stands for the key identifier, any function; the
      two orders are the map iterations of the advance and of the snapshot. */
  method RunAudit(c: Config, f: Fields, ghost g: Book, limit: int, now: int,
                  order: seq<string>, ghost at: map<string, nat>, order2: seq<string>, ghost at2: map<string, nat>,
                  identify: string -> string, round: real -> real)
    returns (f': Fields, ts: seq<Transition>, report: Report, snapshots: seq<Snapshot>, ghost g': Book)
    requires Sound(c, f, g, {}) && Enumerates(order, at, f.items) && Enumerates(order2, at2, f.items)
    ensures Sound(c, f', g', {}) && g'.log == g.log + ts && g'.observed == g.observed
    ensures |report.entries| == |snapshots| && DistinctKeys(snapshots) && KeysIn(snapshots) <= f'.items.Keys
    ensures exists n :: Allowed(limit, n) && Tops(f'.items, round, n, snapshots)
    ensures forall i :: 0 <= i < |snapshots| ==>
      report.entries[i] == AuditEntry(identify(snapshots[i].key), snapshots[i].requestRate, snapshots[i].state)
    ensures report.truncated <==> |f'.items| > |snapshots|
    ensures report.telemetryComplete ==> KeysIn(snapshots) == g.observed
  {
    ghost var parts;
    f', ts, g', parts := AdvanceFields(c, f, g, now, order, at);
    SoundFacts(c, f', g');
    report, snapshots := MakeReport(f', limit, order2, at2, identify, round);
  }

  method Entries(snapshots: seq<Snapshot>, identify: string -> string) returns (entries: seq<AuditEntry>)
    ensures |entries| == |snapshots|
    ensures forall i :: 0 <= i < |entries| ==>
      entries[i] == AuditEntry(identify(snapshots[i].key), snapshots[i].requestRate, snapshots[i].state)
  {
    entries := [];
    for i := 0 to |snapshots|
      invariant |entries| == i
      invariant forall j :: 0 <= j < i ==>
        entries[j] == AuditEntry(identify(snapshots[j].key), snapshots[j].requestRate, snapshots[j].state)
    {
      entries := entries + [AuditEntry(identify(snapshots[i].key), snapshots[i].requestRate, snapshots[i].state)];
    }
  }
}
