/** The cache as a simple sequence of entries, most recently used first. */
module LruModel {

  const ENTRY_OVERHEAD_BYTES := 128

  datatype Entry = Entry(key: string, value: seq<bv8>, insertedAt: int, expiresAt: int, lastAccess: int, size: int)

  function EstimateSize(key: string, value: seq<bv8>): int { |key| + |value| + ENTRY_OVERHEAD_BYTES }

  function NewEntry(key: string, value: seq<bv8>, now: int, expiresAt: int): Entry {
    Entry(key, value, now, expiresAt, now, EstimateSize(key, value))
  }

  function TotalSize(s: seq<Entry>): int {
    if s == [] then 0 else s[0].size + TotalSize(s[1..])
  }

  function Keys(s: seq<Entry>): seq<string> {
    if s == [] then [] else [s[0].key] + Keys(s[1..])
  }

  function Without(s: seq<Entry>, key: string): seq<Entry> {
    if s == [] then [] else if s[0].key == key then s[1..] else [s[0]] + Without(s[1..], key)
  }

  predicate Fits(maxBytes: int, maxEntries: int, s: seq<Entry>) {
    TotalSize(s) <= maxBytes && (maxEntries > 0 ==> |s| <= maxEntries)
  }

  /** Drop least recently used entries until both limits hold. */
  function Trim(maxBytes: int, maxEntries: int, s: seq<Entry>): seq<Entry> {
    if s == [] || Fits(maxBytes, maxEntries, s) then s else Trim(maxBytes, maxEntries, s[..|s| - 1])
  }

  /** An entry becomes the most recently used. */
  function Front(s: seq<Entry>, e: Entry): seq<Entry> { [e] + Without(s, e.key) }

  predicate Distinct(s: seq<Entry>) {
    forall i, j :: 0 <= i < j < |s| ==> s[i].key != s[j].key
  }

  predicate Sized(s: seq<Entry>) {
    forall e :: e in s ==> e.size == EstimateSize(e.key, e.value)
  }

  // ------------------------------------------------------------------ sizes

  /** What the entries are charged: keys, values and 128 bytes each. */
  function Charged(s: seq<Entry>): int {
    if s == [] then 0 else |s[0].key| + |s[0].value| + 128 + Charged(s[1..])
  }

  lemma {:induction false} SizesAreCharged(s: seq<Entry>)
    requires Sized(s)
    ensures TotalSize(s) == Charged(s)
    decreases |s|
  {
    if s != [] {
      assert s[0] in s;
      SizesAreCharged(s[1..]);
    }
  }

  lemma {:induction false} SizeOfPrefix(s: seq<Entry>, n: nat)
    requires Sized(s) && n < |s|
    ensures TotalSize(s[..n]) < TotalSize(s[..n + 1]) && TotalSize(s[..n + 1]) == TotalSize(s[..n]) + s[n].size
    ensures TotalSize(s[..n]) >= 0
    decreases n
  {
    assert s[n] in s;
    if n > 0 {
      SizeOfPrefix(s[1..], n - 1);
      assert s[..n][1..] == s[1..][..n - 1] && s[..n + 1][1..] == s[1..][..n];
    } else {
      assert s[..1] == [s[0]] && s[..0] == [];
      assert s[..1][1..] == [];
    }
  }

  lemma {:induction false} SizesGrow(s: seq<Entry>, m: nat, n: nat)
    requires Sized(s) && m <= n <= |s|
    ensures TotalSize(s[..m]) <= TotalSize(s[..n])
    decreases n - m
  {
    if m < n {
      SizesGrow(s, m, n - 1);
      SizeOfPrefix(s, n - 1);
    }
  }

  /** Eviction removes exactly the shortest sufficient least recently used suffix:
      what stays is the longest prefix within both limits. */
  lemma {:induction false} TrimIsLongest(maxBytes: int, maxEntries: int, s: seq<Entry>)
    requires Sized(s) && maxBytes >= 0
    ensures var kept := Trim(maxBytes, maxEntries, s);
      && |kept| <= |s| && kept == s[..|kept|] && Fits(maxBytes, maxEntries, kept)
      && forall n :: |kept| < n <= |s| ==> !Fits(maxBytes, maxEntries, s[..n])
    decreases |s|
  {
    var kept := Trim(maxBytes, maxEntries, s);
    assert s[..|s|] == s;
    if s != [] && !Fits(maxBytes, maxEntries, s) {
      var init := s[..|s| - 1];
      TrimIsLongest(maxBytes, maxEntries, init);
      forall n | |kept| < n <= |s| ensures !Fits(maxBytes, maxEntries, s[..n]) {
        if n < |s| {
          assert init[..n] == s[..n];
        }
      }
      assert init[..|kept|] == s[..|kept|];
    }
  }

  /** A stored entry is never evicted by its own insertion. */
  lemma TrimKeepsFront(maxBytes: int, maxEntries: int, s: seq<Entry>)
    requires Sized(s) && s != [] && s[0].size <= maxBytes
    ensures |Trim(maxBytes, maxEntries, s)| >= 1 && Trim(maxBytes, maxEntries, s)[0] == s[0]
  {
    assert s[0] in s;
    TrimIsLongest(maxBytes, maxEntries, s);
    assert s[..1][1..] == [];
    assert Fits(maxBytes, maxEntries, s[..1]);
  }

  // ----------------------------------------------------------------- removal

  lemma {:induction false} WithoutFacts(s: seq<Entry>, key: string)
    requires Distinct(s)
    ensures Distinct(Without(s, key)) && forall e :: e in Without(s, key) <==> e in s && e.key != key
    decreases |s|
  {
    if s != [] {
      assert s == [s[0]] + s[1..];
      if s[0].key != key {
        WithoutFacts(s[1..], key);
        var rest := Without(s[1..], key);
        forall j | 0 <= j < |rest| ensures rest[j].key != s[0].key {
          assert rest[j] in rest;
        }
      }
    }
  }

  lemma {:induction false} WithoutSize(s: seq<Entry>, e: Entry)
    requires Distinct(s) && e in s
    ensures TotalSize(Without(s, e.key)) == TotalSize(s) - e.size && |Without(s, e.key)| == |s| - 1
    decreases |s|
  {
    assert s == [s[0]] + s[1..];
    if s[0].key != e.key {
      WithoutSize(s[1..], e);
    }
  }

  lemma {:induction false} WithoutMissing(s: seq<Entry>, key: string)
    requires forall e :: e in s ==> e.key != key
    ensures Without(s, key) == s
    decreases |s|
  {
    if s != [] {
      assert s[0] in s;
      WithoutMissing(s[1..], key);
      assert s == [s[0]] + s[1..];
    }
  }

  /** Removal cuts one entry out and leaves the others in their order. */
  lemma {:induction false} WithoutCuts(s: seq<Entry>, i: nat)
    requires Distinct(s) && i < |s|
    ensures Without(s, s[i].key) == s[..i] + s[i + 1..]
    ensures forall e: Entry :: e.key == s[i].key ==> Front(s, e) == [e] + s[..i] + s[i + 1..]
    decreases i
  {
    if i > 0 {
      WithoutCuts(s[1..], i - 1);
      assert s[..i] == [s[0]] + s[1..][..i - 1];
    }
  }

  lemma {:induction false} KeysFacts(s: seq<Entry>)
    ensures |Keys(s)| == |s| && forall i :: 0 <= i < |s| ==> Keys(s)[i] == s[i].key
    decreases |s|
  {
    if s != [] {
      KeysFacts(s[1..]);
    }
  }

  /** No operation ever forgets an entry other than by key or from the back. */
  lemma FrontFacts(s: seq<Entry>, e: Entry)
    requires Distinct(s) && Sized(s) && e.size == EstimateSize(e.key, e.value)
    ensures Distinct(Front(s, e)) && Sized(Front(s, e))
    ensures forall x :: x in Front(s, e) <==> x == e || (x in s && x.key != e.key)
  {
    WithoutFacts(s, e.key);
    var rest := Without(s, e.key);
    forall j | 0 <= j < |rest| ensures rest[j].key != e.key {
      assert rest[j] in rest;
    }
  }

  /** Removing an entry keeps the limits. */
  lemma WithoutFits(maxBytes: int, maxEntries: int, s: seq<Entry>, key: string)
    requires Distinct(s) && Sized(s) && Fits(maxBytes, maxEntries, s)
    ensures Fits(maxBytes, maxEntries, Without(s, key))
  {
    if e :| e in s && e.key == key {
      WithoutSize(s, e);
    } else {
      WithoutMissing(s, key);
    }
  }

  /** Storing an entry that fits on its own: it is there afterwards, in front. */
  lemma StoreFacts(maxBytes: int, maxEntries: int, s: seq<Entry>, e: Entry)
    requires Distinct(s) && Sized(s) && e.size == EstimateSize(e.key, e.value) <= maxBytes
    ensures var kept := Trim(maxBytes, maxEntries, Front(s, e));
      |kept| >= 1 && kept[0] == e && Fits(maxBytes, maxEntries, kept)
  {
    FrontFacts(s, e);
    TrimKeepsFront(maxBytes, maxEntries, Front(s, e));
    TrimIsLongest(maxBytes, maxEntries, Front(s, e));
  }

  /** Reading an entry keeps the limits. */
  lemma TouchFits(maxBytes: int, maxEntries: int, s: seq<Entry>, e: Entry, e': Entry)
    requires Distinct(s) && Fits(maxBytes, maxEntries, s) && e in s && e'.key == e.key && e'.size == e.size
    ensures Fits(maxBytes, maxEntries, Front(s, e'))
  {
    WithoutSize(s, e);
    assert Front(s, e')[1..] == Without(s, e.key);
  }
}
