/** matcher.go and policy.go: longest-prefix matching by descending lengths. */
module PolicyMatcher {

  datatype Mode = Deny | Observe | CacheMode

  datatype Decision = Decision(mode: Mode, maxItemBytes: int, maxLocalTTL: int)

  datatype Rule = Rule(prefix: string, decision: Decision)

  datatype Matcher = Matcher(fallback: Decision, rules: map<string, Decision>, lengths: seq<nat>)

  // ---------------------------------------------------------- specification

  /** Rule i decides the key: its prefix is the longest rule prefix of the key, and
      no later rule repeats it. */
  predicate Decides(rules: seq<Rule>, key: string, i: nat)
    requires i < |rules|
  {
    && rules[i].prefix <= key
    && forall j :: 0 <= j < |rules| && rules[j].prefix <= key ==>
         |rules[j].prefix| < |rules[i].prefix| || (rules[j].prefix == rules[i].prefix && j <= i)
  }

  /** The decision of the longest rule prefix of the key, or else the fallback. */
  ghost predicate IsMatch(fallback: Decision, rules: seq<Rule>, key: string, d: Decision) {
    || (exists i :: 0 <= i < |rules| && Decides(rules, key, i) && d == rules[i].decision)
    || (d == fallback && forall i :: 0 <= i < |rules| ==> !(rules[i].prefix <= key))
  }

  lemma MatchIsUnique(fallback: Decision, rules: seq<Rule>, key: string, d: Decision, d': Decision)
    requires IsMatch(fallback, rules, key, d) && IsMatch(fallback, rules, key, d')
    ensures d == d'
  {
    if i :| 0 <= i < |rules| && Decides(rules, key, i) && d == rules[i].decision {
      var j :| 0 <= j < |rules| && Decides(rules, key, j) && d' == rules[j].decision;
      assert rules[j].prefix <= key && rules[i].prefix <= key;
    }
  }

  /** With distinct prefixes the order of the rules does not matter. */
  lemma OrderDoesNotMatter(fallback: Decision, rules: seq<Rule>, rules': seq<Rule>, key: string, d: Decision,
                           d': Decision)
    requires forall r :: r in rules <==> r in rules'
    requires forall i, j :: 0 <= i < |rules| && 0 <= j < |rules| && rules[i].prefix == rules[j].prefix ==>
               rules[i] == rules[j]
    requires IsMatch(fallback, rules, key, d) && IsMatch(fallback, rules', key, d')
    ensures d == d'
  {
    assert forall j :: 0 <= j < |rules'| ==> rules'[j] in rules;
    if i :| 0 <= i < |rules| && Decides(rules, key, i) && d == rules[i].decision {
      assert rules[i] in rules';
      var j :| 0 <= j < |rules'| && Decides(rules', key, j) && d' == rules'[j].decision;
      assert rules'[j] in rules;
      var i' :| 0 <= i' < |rules| && rules[i'] == rules'[j];
      var j' :| 0 <= j' < |rules'| && rules'[j'] == rules[i];
      SamePrefix(key, rules[i].prefix, rules'[j].prefix);
      assert |rules[i'].prefix| <= |rules[i].prefix| && |rules'[j'].prefix| <= |rules'[j].prefix|;
    }
  }

  lemma SamePrefix(key: string, a: string, b: string)
    requires a <= key && b <= key
    ensures |a| == |b| ==> a == b
  {
    if |a| == |b| {
      assert a == key[..|a|] && b == key[..|b|];
    }
  }

  // ----------------------------------------------------------- construction

  predicate Descending(lengths: seq<nat>) {
    forall i, j :: 0 <= i < j < |lengths| ==> lengths[i] > lengths[j]
  }

  /** The map holds the last rule of each prefix, the list its lengths. */
  ghost predicate Holds(byPrefix: map<string, Decision>, lengths: seq<nat>, rules: seq<Rule>) {
    && (forall i :: 0 <= i < |rules| ==> rules[i].prefix in byPrefix)
    && (forall p :: p in byPrefix ==> |p| in lengths && HasLast(rules, p, byPrefix[p]))
  }

  ghost predicate HasLast(rules: seq<Rule>, p: string, d: Decision) {
    exists i :: 0 <= i < |rules| && IsLast(rules, p, i) && rules[i].decision == d
  }

  predicate IsLast(rules: seq<Rule>, p: string, i: nat)
    requires i < |rules|
  {
    rules[i].prefix == p && forall j :: i < j < |rules| ==> rules[j].prefix != p
  }

  ghost predicate Represents(m: Matcher, fallback: Decision, rules: seq<Rule>) {
    m.fallback == fallback && Holds(m.rules, m.lengths, rules) && Descending(m.lengths)
  }

  lemma HoldsOneMore(byPrefix: map<string, Decision>, lengths: seq<nat>, rules: seq<Rule>, r: Rule, lengths': seq<nat>)
    requires Holds(byPrefix, lengths, rules)
    requires lengths' == if |r.prefix| in lengths then lengths else lengths + [|r.prefix|]
    ensures Holds(byPrefix[r.prefix := r.decision], lengths', rules + [r])
  {
    var all, after := rules + [r], byPrefix[r.prefix := r.decision];
    forall p | p in after ensures HasLast(all, p, after[p]) {
      if p == r.prefix {
        assert IsLast(all, p, |rules|);
      } else {
        var i :| 0 <= i < |rules| && IsLast(rules, p, i) && rules[i].decision == byPrefix[p];
        assert IsLast(all, p, i) && all[i] == rules[i];
      }
    }
  }

  function InsertDescending(n: nat, s: seq<nat>): seq<nat> {
    if s == [] || n > s[0] then [n] + s else [s[0]] + InsertDescending(n, s[1..])
  }

  /** sort.Sort(sort.Reverse(...)) */
  function SortDescending(s: seq<nat>): seq<nat> {
    if s == [] then [] else InsertDescending(s[0], SortDescending(s[1..]))
  }

  lemma {:induction false} InsertDescends(n: nat, s: seq<nat>)
    requires Descending(s) && n !in s
    ensures Descending(InsertDescending(n, s)) && forall x :: x in InsertDescending(n, s) <==> x == n || x in s
    decreases |s|
  {
    if s == [] || n > s[0] {
    } else {
      assert s == [s[0]] + s[1..];
      InsertDescends(n, s[1..]);
      var rest := InsertDescending(n, s[1..]);
      forall j | 0 <= j < |rest| ensures s[0] > rest[j] {
        assert rest[j] in rest;
      }
    }
  }

  lemma {:induction false} SortDescends(s: seq<nat>)
    requires forall i, j :: 0 <= i < j < |s| ==> s[i] != s[j]
    ensures Descending(SortDescending(s)) && forall x :: x in SortDescending(s) <==> x in s
    decreases |s|
  {
    if s != [] {
      assert s == [s[0]] + s[1..];
      SortDescends(s[1..]);
      InsertDescends(s[0], SortDescending(s[1..]));
    }
  }

  /** matcher.go New. */
  method NewMatcher(fallback: Decision, rules: seq<Rule>) returns (m: Matcher)
    ensures Represents(m, fallback, rules)
  {
    var byPrefix: map<string, Decision>, lengths: seq<nat> := map[], [];
    for i := 0 to |rules|
      invariant Holds(byPrefix, lengths, rules[..i])
      invariant forall a, b :: 0 <= a < b < |lengths| ==> lengths[a] != lengths[b]
    {
      var rule := rules[i];
      assert rules[..i + 1] == rules[..i] + [rule];
      var seen := |rule.prefix| in lengths;
      HoldsOneMore(byPrefix, lengths, rules[..i], rule, if seen then lengths else lengths + [|rule.prefix|]);
      byPrefix := byPrefix[rule.prefix := rule.decision];
      if !seen {
        lengths := lengths + [|rule.prefix|];
      }
    }
    assert rules[..|rules|] == rules;
    SortDescends(lengths);
    m := Matcher(fallback, byPrefix, SortDescending(lengths));
  }

  /** matcher.go Match refines the specification. */
  method Match(m: Matcher, key: string, ghost rules: seq<Rule>) returns (d: Decision)
    requires Represents(m, m.fallback, rules)
    ensures IsMatch(m.fallback, rules, key, d)
  {
    for n := 0 to |m.lengths|
      invariant forall a :: 0 <= a < n ==> m.lengths[a] > |key| || key[..m.lengths[a]] !in m.rules
    {
      var length := m.lengths[n];
      if length > |key| {
        continue;
      }
      if key[..length] in m.rules {
        LongestDecides(m, key, rules, n);
        return m.rules[key[..length]];
      }
    }
    forall i | 0 <= i < |rules| ensures !(rules[i].prefix <= key) {
      if rules[i].prefix <= key {
        PrefixLength(m, key, rules, i);
      }
    }
    return m.fallback;
  }

  /** A rule prefix of the key is found at its length. */
  lemma PrefixLength(m: Matcher, key: string, rules: seq<Rule>, i: nat)
    requires Represents(m, m.fallback, rules) && i < |rules| && rules[i].prefix <= key
    ensures exists a :: 0 <= a < |m.lengths| && m.lengths[a] == |rules[i].prefix| &&
              key[..m.lengths[a]] == rules[i].prefix && rules[i].prefix in m.rules
  {
    assert |rules[i].prefix| in m.lengths;
    var a :| 0 <= a < |m.lengths| && m.lengths[a] == |rules[i].prefix|;
    assert key[..m.lengths[a]] == rules[i].prefix;
  }

  lemma LongestDecides(m: Matcher, key: string, rules: seq<Rule>, n: nat)
    requires Represents(m, m.fallback, rules) && n < |m.lengths| && m.lengths[n] <= |key|
    requires key[..m.lengths[n]] in m.rules
    requires forall a :: 0 <= a < n ==> m.lengths[a] > |key| || key[..m.lengths[a]] !in m.rules
    ensures IsMatch(m.fallback, rules, key, m.rules[key[..m.lengths[n]]])
  {
    var p := key[..m.lengths[n]];
    var i :| 0 <= i < |rules| && IsLast(rules, p, i) && rules[i].decision == m.rules[p];
    forall j | 0 <= j < |rules| && rules[j].prefix <= key
      ensures |rules[j].prefix| < |p| || (rules[j].prefix == p && j <= i)
    {
      PrefixLength(m, key, rules, j);
      var a :| 0 <= a < |m.lengths| && m.lengths[a] == |rules[j].prefix| && key[..m.lengths[a]] == rules[j].prefix;
      if a == n {
        assert rules[j].prefix == p;
      }
    }
    assert Decides(rules, key, i);
  }

  // -------------------------------------------------------------- policy.go

  datatype Policy = Policy(prefix: string, mode: string, maxItemBytes: int, maxLocalTTL: int)

  datatype Config = Config(mode: string, maxBytes: int, maxLocalTTL: int, policies: seq<Policy>)

  /** An unknown mode is parsed as deny. */
  function ParseMode(value: string): Mode {
    if value == "observe" then Observe else if value == "cache" then CacheMode else Deny
  }

  function Fallback(cfg: Config): Decision {
    var mode := ParseMode(cfg.mode);
    if mode == CacheMode then Decision(mode, cfg.maxBytes, cfg.maxLocalTTL) else Decision(mode, 0, 0)
  }

  function RuleOf(cfg: Config, policy: Policy): Rule {
    var parsed := ParseMode(policy.mode);
    var mode := if cfg.mode == "observe" && parsed == CacheMode then Observe else parsed;
    Rule(policy.prefix,
         if mode == CacheMode then Decision(mode, policy.maxItemBytes, policy.maxLocalTTL) else Decision(mode, 0, 0))
  }

  /** What a mode and its caps in the configuration decide; `observeOnly` is the global
      observe mode, which turns caching into observing. */
  predicate Sets(mode: string, observeOnly: bool, maxItemBytes: int, maxLocalTTL: int, d: Decision) {
    && (d.mode == CacheMode <==> mode == "cache" && !observeOnly)
    && (d.mode == Observe <==> mode == "observe" || (mode == "cache" && observeOnly))
    && (if d.mode == CacheMode then d.maxItemBytes == maxItemBytes && d.maxLocalTTL == maxLocalTTL
        else d.maxItemBytes == 0 == d.maxLocalTTL)
  }

  /** Every key is decided by the longest configured prefix, and in global observe
      mode no key is ever cached. */
  method NewPolicyMatcher(cfg: Config) returns (m: Matcher, ghost rules: seq<Rule>)
    ensures |rules| == |cfg.policies| && forall i :: 0 <= i < |rules| ==>
              var p := cfg.policies[i];
              && rules[i].prefix == p.prefix
              && Sets(p.mode, cfg.mode == "observe", p.maxItemBytes, p.maxLocalTTL, rules[i].decision)
    ensures Represents(m, m.fallback, rules) && Sets(cfg.mode, false, cfg.maxBytes, cfg.maxLocalTTL, m.fallback)
    ensures cfg.mode == "observe" ==> forall key, d :: IsMatch(m.fallback, rules, key, d) ==> d.mode != CacheMode
  {
    var built: seq<Rule> := [];
    for i := 0 to |cfg.policies|
      invariant |built| == i && forall j :: 0 <= j < i ==> built[j] == RuleOf(cfg, cfg.policies[j])
    {
      built := built + [RuleOf(cfg, cfg.policies[i])];
    }
    m := NewMatcher(Fallback(cfg), built);
    rules := built;
    forall i | 0 <= i < |rules|
      ensures Sets(cfg.policies[i].mode, cfg.mode == "observe", cfg.policies[i].maxItemBytes,
                   cfg.policies[i].maxLocalTTL, rules[i].decision)
    {
      RuleSets(cfg, cfg.policies[i]);
    }
    if cfg.mode == "observe" {
      NeverCached(m.fallback, rules);
    }
  }

  lemma RuleSets(cfg: Config, p: Policy)
    ensures Sets(p.mode, cfg.mode == "observe", p.maxItemBytes, p.maxLocalTTL, RuleOf(cfg, p).decision)
  {
  }

  lemma NeverCached(fallback: Decision, rules: seq<Rule>)
    requires fallback.mode != CacheMode && forall i :: 0 <= i < |rules| ==> rules[i].decision.mode != CacheMode
    ensures forall key, d :: IsMatch(fallback, rules, key, d) ==> d.mode != CacheMode
  {
  }
}
