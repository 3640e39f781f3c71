/**
 * Grammars: the `Grammar` class with its context-freeness check and the removal of
 * useless rules (two worklist fixpoints, reachability and productivity), and the name
 * helpers `fresh` and `zero_pad` that the automaton constructions use.
 */
module Grammars {
  import opened Wrappers
  import opened Text
  import opened Machines

  /** A grammar symbol: a plain name, or the pair (p, q) that names A_pq in the PDA-to-CFG construction. */
  datatype Sym = Name(name: Symbol) | Pair(p: Symbol, q: Symbol)

  /** A rule `lhs -> rhs`; both sides are strings of symbols. */
  datatype Rule = Rule(lhs: seq<Sym>, rhs: seq<Sym>)

  datatype GrammarError =
    | NotContextFree      // remove_useless on a grammar that is not context-free (ValueError)
    | MultiplePushPop     // to_grammar: a transition pops or pushes more than one symbol
    | PushXorPop          // to_grammar: a transition does both or neither
    | NoRules             // from_grammar_topdown on an empty rule list: the start symbol is `rules[0][0]`

  /**
   * `is_contextfree`: the rules are scanned in order and the first one whose left side is
   * not a single nonterminal makes the answer false.
   */
  function ContextFree(rules: seq<Rule>, nts: set<Sym>): (r: bool)
    ensures r <==> forall i | 0 <= i < |rules| :: |rules[i].lhs| == 1 && rules[i].lhs[0] in nts
  {
    if rules == [] then true
    else if |rules[0].lhs| != 1 then false
    else if rules[0].lhs[0] !in nts then false
    else
      var rest := ContextFree(rules[1..], nts);
      assert forall i | 1 <= i < |rules| :: rules[i] == rules[1..][i - 1];
      rest
  }

  // ---------------------------------------------------------------------------
  // Reachability and productivity, as least closed sets.

  /** `x` is the left side of some rule: it is a key of `by_lhs`. */
  ghost predicate Heads(rules: seq<Rule>, x: Sym)
  {
    exists i | 0 <= i < |rules| :: rules[i].lhs == [x]
  }

  /** `t` holds the start symbol and every rhs symbol that has rules, of every rule whose lhs it holds. */
  ghost predicate ReachClosed(t: set<Sym>, rules: seq<Rule>, start: Sym)
  {
    && start in t
    && forall i, k | 0 <= i < |rules| && 0 <= k < |rules[i].rhs| && |rules[i].lhs| == 1 && rules[i].lhs[0] in t
                     && Heads(rules, rules[i].rhs[k]) :: rules[i].rhs[k] in t
  }

  /** `r` is the set of reachable symbols: the least closed set. */
  ghost predicate ReachLeast(r: set<Sym>, rules: seq<Rule>, start: Sym)
  {
    ReachClosed(r, rules, start) && forall t {:trigger ReachClosed(t, rules, start)} | ReachClosed(t, rules, start) :: r <= t
  }

  /** Every symbol of `rhs` is a terminal or lies in `t`: Python's `all(y not in nonterminals or y in t for y in rhs)`. */
  predicate AllIn(rhs: seq<Sym>, nts: set<Sym>, t: set<Sym>)
  {
    forall k | 0 <= k < |rhs| :: rhs[k] !in nts || rhs[k] in t
  }

  /** `t` holds the lhs of every rule whose rhs nonterminals it all holds. */
  ghost predicate ProdClosed(t: set<Sym>, rules: seq<Rule>, nts: set<Sym>)
  {
    forall i | 0 <= i < |rules| && |rules[i].lhs| == 1 && AllIn(rules[i].rhs, nts, t) :: rules[i].lhs[0] in t
  }

  /** `p` is the set of productive symbols: the least closed set. */
  ghost predicate ProdLeast(p: set<Sym>, rules: seq<Rule>, nts: set<Sym>)
  {
    ProdClosed(p, rules, nts) && forall t {:trigger ProdClosed(t, rules, nts)} | ProdClosed(t, rules, nts) :: p <= t
  }

  lemma ReachUnique(r1: set<Sym>, r2: set<Sym>, rules: seq<Rule>, start: Sym)
    requires ReachLeast(r1, rules, start) && ReachLeast(r2, rules, start)
    ensures r1 == r2
  {
    assert r1 <= r2 && r2 <= r1;
  }

  lemma ProdUnique(p1: set<Sym>, p2: set<Sym>, rules: seq<Rule>, nts: set<Sym>)
    requires ProdLeast(p1, rules, nts) && ProdLeast(p2, rules, nts)
    ensures p1 == p2
  {
    assert p1 <= p2 && p2 <= p1;
  }

  /** The rules that `remove_useless` keeps: lhs useful and every rhs nonterminal useful. */
  predicate Useful(r: Rule, nts: set<Sym>, u: set<Sym>)
  {
    |r.lhs| == 1 && r.lhs[0] in u && AllIn(r.rhs, nts, u)
  }

  /** The useful rules of `rules`, in their original order. */
  function Keep(rules: seq<Rule>, nts: set<Sym>, u: set<Sym>): seq<Rule>
    decreases |rules|
  {
    if rules == [] then []
    else
      var last := rules[|rules| - 1];
      Keep(rules[..|rules| - 1], nts, u) + (if Useful(last, nts, u) then [last] else [])
  }

  /** A rule is kept exactly when it is one of the rules and is useful. */
  lemma {:induction false} KeepMeaning(rules: seq<Rule>, nts: set<Sym>, u: set<Sym>, r: Rule)
    ensures r in Keep(rules, nts, u) <==> r in rules && Useful(r, nts, u)
    decreases |rules|
  {
    if rules != [] {
      var init := rules[..|rules| - 1];
      KeepMeaning(init, nts, u, r);
      assert rules == init + [rules[|rules| - 1]];
    }
  }

  /** Keeping distributes over concatenation: the kept rules stay in their original order. */
  lemma {:induction false} KeepAppend(a: seq<Rule>, b: seq<Rule>, nts: set<Sym>, u: set<Sym>)
    ensures Keep(a + b, nts, u) == Keep(a, nts, u) + Keep(b, nts, u)
    decreases |b|
  {
    if b != [] {
      var init := b[..|b| - 1];
      assert (a + b)[..|a + b| - 1] == a + init;
      KeepAppend(a, init, nts, u);
    } else {
      assert a + b == a;
    }
  }

  /** Every kept rule has a useful nonterminal lhs, so with the useful nonterminals declared the result is context-free. */
  lemma KeptContextFree(rules: seq<Rule>, nts: set<Sym>, u: set<Sym>, start: Sym)
    requires ContextFree(rules, nts)
    ensures ContextFree(Keep(rules, nts, u), {start} + (nts * u))
  {
    var kept := Keep(rules, nts, u);
    forall i | 0 <= i < |kept| ensures |kept[i].lhs| == 1 && kept[i].lhs[0] in {start} + (nts * u) {
      KeepMeaning(rules, nts, u, kept[i]);
    }
  }

  /** With the useful nonterminals declared, a symbol of a kept rule is a nonterminal exactly when it was one. */
  lemma KeptRoles(rules: seq<Rule>, nts: set<Sym>, u: set<Sym>, start: Sym, i: nat, k: nat)
    requires start in nts
    requires i < |Keep(rules, nts, u)| && k < |Keep(rules, nts, u)[i].rhs|
    ensures (Keep(rules, nts, u)[i].rhs[k] in {start} + (nts * u)) <==> (Keep(rules, nts, u)[i].rhs[k] in nts)
  {
    KeepMeaning(rules, nts, u, Keep(rules, nts, u)[i]);
  }

  // ---------------------------------------------------------------------------
  // The indices and the two worklists of `remove_useless`.

  function Get(m: map<Sym, seq<Rule>>, k: Sym): seq<Rule>
  {
    if k in m then m[k] else []
  }

  /** `by_lhs[x]` holds exactly the rules with lhs `x`, and has a key exactly for each lhs. */
  ghost predicate LhsIndexed(m: map<Sym, seq<Rule>>, rules: seq<Rule>)
  {
    && (forall x :: x in m <==> Heads(rules, x))
    && (forall x, r {:trigger r in Get(m, x)} :: r in Get(m, x) <==> r in rules && r.lhs == [x])
  }

  /** `by_rhs[y]` holds exactly the rules whose rhs mentions the nonterminal `y`. */
  ghost predicate RhsIndexed(m: map<Sym, seq<Rule>>, rules: seq<Rule>, nts: set<Sym>)
  {
    forall y, r {:trigger r in Get(m, y)} :: r in Get(m, y) <==> r in rules && y in nts && y in r.rhs
  }

  /** `by_rhs` while the rhs of `rule` is being scanned: its first `k` symbols are indexed. */
  ghost predicate RhsIndexedUpTo(m: map<Sym, seq<Rule>>, rules: seq<Rule>, nts: set<Sym>, rule: Rule, k: nat)
    requires k <= |rule.rhs|
  {
    forall y, r {:trigger r in Get(m, y)} :: r in Get(m, y) <==>
      (r in rules && y in nts && y in r.rhs) || (r == rule && y in nts && y in rule.rhs[..k])
  }

  lemma LhsAdd(m: map<Sym, seq<Rule>>, rules: seq<Rule>, rule: Rule, x: Sym)
    requires LhsIndexed(m, rules) && rule.lhs == [x]
    ensures LhsIndexed(m[x := Get(m, x) + [rule]], rules + [rule])
  {
    var rules' := rules + [rule];
    HeadsAdd(rules, rule, x);
    var m' := m[x := Get(m, x) + [rule]];
    assert forall x' :: x' in m' <==> Heads(rules', x');
    forall x', r ensures r in Get(m', x') <==> r in rules' && r.lhs == [x'] {
      if x' == x {
        assert Get(m', x') == Get(m, x) + [rule];
      } else {
        assert Get(m', x') == Get(m, x');
      }
    }
    assert LhsIndexed(m', rules');
  }

  lemma HeadsAdd(rules: seq<Rule>, rule: Rule, x: Sym)
    requires rule.lhs == [x]
    ensures forall x' :: Heads(rules + [rule], x') <==> Heads(rules, x') || x' == x
  {
    var rules' := rules + [rule];
    forall x' ensures Heads(rules', x') <==> Heads(rules, x') || x' == x {
      if Heads(rules', x') {
        var i :| 0 <= i < |rules'| && rules'[i].lhs == [x'];
        if i < |rules| {
          assert rules[i] == rules'[i];
        }
      }
      if Heads(rules, x') {
        var i :| 0 <= i < |rules| && rules[i].lhs == [x'];
        assert rules'[i] == rules[i];
      }
      if x' == x {
        assert rules'[|rules|] == rule;
      }
    }
  }

  lemma RhsAdd(m: map<Sym, seq<Rule>>, rules: seq<Rule>, nts: set<Sym>, rule: Rule, k: nat)
    requires k < |rule.rhs| && RhsIndexedUpTo(m, rules, nts, rule, k)
    ensures RhsIndexedUpTo(if rule.rhs[k] in nts then m[rule.rhs[k] := Get(m, rule.rhs[k]) + [rule]] else m,
                           rules, nts, rule, k + 1)
  {
    var z := rule.rhs[k];
    var m' := if z in nts then m[z := Get(m, z) + [rule]] else m;
    assert rule.rhs[..k + 1] == rule.rhs[..k] + [z];
    forall y, r ensures r in Get(m', y) <==>
      (r in rules && y in nts && y in r.rhs) || (r == rule && y in nts && y in rule.rhs[..k + 1])
    {
      if z in nts && y == z {
        assert Get(m', y) == Get(m, y) + [rule];
      } else {
        assert Get(m', y) == Get(m, y);
      }
    }
  }

  lemma RhsFinish(m: map<Sym, seq<Rule>>, rules: seq<Rule>, nts: set<Sym>, rule: Rule)
    requires RhsIndexedUpTo(m, rules, nts, rule, |rule.rhs|)
    ensures RhsIndexed(m, rules + [rule], nts)
  {
    assert rule.rhs[..|rule.rhs|] == rule.rhs;
  }

  /** The loop that fills `by_lhs` and `by_rhs`. */
  method Index(rules: seq<Rule>, nts: set<Sym>) returns (byLhs: map<Sym, seq<Rule>>, byRhs: map<Sym, seq<Rule>>)
    requires forall i | 0 <= i < |rules| :: |rules[i].lhs| == 1
    ensures LhsIndexed(byLhs, rules) && RhsIndexed(byRhs, rules, nts)
  {
    byLhs, byRhs := map[], map[];
    for i := 0 to |rules|
      invariant LhsIndexed(byLhs, rules[..i]) && RhsIndexed(byRhs, rules[..i], nts)
    {
      var rule := rules[i];
      assert rules[..i + 1] == rules[..i] + [rule];
      var x := rule.lhs[0];
      assert rule.lhs == [x];
      LhsAdd(byLhs, rules[..i], rule, x);
      byLhs := byLhs[x := Get(byLhs, x) + [rule]];
      for k := 0 to |rule.rhs|
        invariant RhsIndexedUpTo(byRhs, rules[..i], nts, rule, k)
      {
        RhsAdd(byRhs, rules[..i], nts, rule, k);
        var y := rule.rhs[k];
        if y in nts {
          byRhs := byRhs[y := Get(byRhs, y) + [rule]];
        }
      }
      RhsFinish(byRhs, rules[..i], nts, rule);
    }
    assert rules[..|rules|] == rules;
  }

  /** The symbols appended to the reachability agenda for the rules `group`, in order: the rhs symbols that have rules. */
  method Successors(group: seq<Rule>, byLhs: map<Sym, seq<Rule>>) returns (ys: seq<Sym>)
    ensures forall y :: y in ys <==> (y in byLhs && exists j, k | 0 <= j < |group| && 0 <= k < |group[j].rhs| :: group[j].rhs[k] == y)
  {
    ys := [];
    for j := 0 to |group|
      invariant forall y :: y in ys <==> (y in byLhs && exists j', k | 0 <= j' < j && 0 <= k < |group[j'].rhs| :: group[j'].rhs[k] == y)
    {
      var rhs := group[j].rhs;
      for k := 0 to |rhs|
        invariant forall y :: y in ys <==> (y in byLhs &&
          ((exists j', k' | 0 <= j' < j && 0 <= k' < |group[j'].rhs| :: group[j'].rhs[k'] == y) || y in rhs[..k]))
      {
        assert rhs[..k + 1] == rhs[..k] + [rhs[k]];
        if rhs[k] in byLhs {
          ys := ys + [rhs[k]];
        }
      }
      assert rhs[..|rhs|] == rhs;
    }
  }

  /** Everything done or pending is reachable: it lies in every closed set. */
  ghost predicate ReachSound(rules: seq<Rule>, start: Sym, done: set<Sym>, agenda: seq<Sym>)
  {
    forall t {:trigger ReachClosed(t, rules, start)} | ReachClosed(t, rules, start) ::
      done <= t && forall k | 0 <= k < |agenda| :: agenda[k] in t
  }

  /** What the done symbols lead to is done or pending. */
  ghost predicate ReachPending(rules: seq<Rule>, start: Sym, done: set<Sym>, agenda: seq<Sym>)
  {
    && (start in done || start in agenda)
    && forall i, k | 0 <= i < |rules| && 0 <= k < |rules[i].rhs| && |rules[i].lhs| == 1 && rules[i].lhs[0] in done
                     && Heads(rules, rules[i].rhs[k]) :: rules[i].rhs[k] in done || rules[i].rhs[k] in agenda
  }

  /** A popped symbol already done. */
  lemma ReachSkip(rules: seq<Rule>, start: Sym, done: set<Sym>, agenda: seq<Sym>)
    requires agenda != [] && agenda[0] in done
    requires ReachSound(rules, start, done, agenda) && ReachPending(rules, start, done, agenda)
    ensures ReachSound(rules, start, done, agenda[1..]) && ReachPending(rules, start, done, agenda[1..])
  {
    assert forall y | y in agenda :: y == agenda[0] || y in agenda[1..];
  }

  /** A popped symbol not yet done: it becomes done, and its successors are pushed. */
  lemma ReachPop(rules: seq<Rule>, start: Sym, byLhs: map<Sym, seq<Rule>>, done: set<Sym>, agenda: seq<Sym>, ys: seq<Sym>)
    requires LhsIndexed(byLhs, rules)
    requires agenda != [] && agenda[0] !in done
    requires ReachSound(rules, start, done, agenda) && ReachPending(rules, start, done, agenda)
    requires forall y :: y in ys <==> (y in byLhs &&
      exists j, k | 0 <= j < |Get(byLhs, agenda[0])| && 0 <= k < |Get(byLhs, agenda[0])[j].rhs| :: Get(byLhs, agenda[0])[j].rhs[k] == y)
    ensures ReachSound(rules, start, done + {agenda[0]}, agenda[1..] + ys)
    ensures ReachPending(rules, start, done + {agenda[0]}, agenda[1..] + ys)
  {
    var x := agenda[0];
    var group := Get(byLhs, x);
    var agenda' := agenda[1..] + ys;
    assert forall y | y in agenda :: y == x || y in agenda[1..];
    forall t | ReachClosed(t, rules, start) ensures done + {x} <= t && forall k | 0 <= k < |agenda'| :: agenda'[k] in t {
      assert agenda[0] in t;
      forall k | 0 <= k < |agenda'| ensures agenda'[k] in t {
        if k >= |agenda| - 1 {
          var y := agenda'[k];
          assert y in ys;
          var j, k' :| 0 <= j < |group| && 0 <= k' < |group[j].rhs| && group[j].rhs[k'] == y;
          assert group[j] in group;
          var i :| 0 <= i < |rules| && rules[i] == group[j];
          assert Heads(rules, y);
        } else {
          assert agenda'[k] == agenda[k + 1];
        }
      }
    }
    forall i, k | 0 <= i < |rules| && 0 <= k < |rules[i].rhs| && |rules[i].lhs| == 1 && rules[i].lhs[0] in done + {x}
                  && Heads(rules, rules[i].rhs[k])
      ensures rules[i].rhs[k] in done + {x} || rules[i].rhs[k] in agenda'
    {
      var y := rules[i].rhs[k];
      if rules[i].lhs[0] == x {
        assert rules[i].lhs == [x];
        assert rules[i] in group;
        var j :| 0 <= j < |group| && group[j] == rules[i];
        assert y in ys;
      } else if y != x && y !in done {
        assert y in agenda[1..];
      }
    }
  }

  lemma ReachDone(rules: seq<Rule>, start: Sym, done: set<Sym>)
    requires ReachSound(rules, start, done, []) && ReachPending(rules, start, done, [])
    ensures ReachLeast(done, rules, start)
  {
  }

  /** The reachability worklist: the least closed set, computed from the start symbol. */
  method Reachable(rules: seq<Rule>, start: Sym, byLhs: map<Sym, seq<Rule>>) returns (reachable: set<Sym>)
    requires LhsIndexed(byLhs, rules)
    ensures ReachLeast(reachable, rules, start)
  {
    ghost var universe := {start} + byLhs.Keys;
    var agenda := [start];
    reachable := {};
    while agenda != []
      invariant ReachSound(rules, start, reachable, agenda) && ReachPending(rules, start, reachable, agenda)
      invariant reachable <= universe && forall k | 0 <= k < |agenda| :: agenda[k] in universe
      decreases universe - reachable, |agenda|
    {
      var x := agenda[0];
      if x in reachable {
        ReachSkip(rules, start, reachable, agenda);
        agenda := agenda[1..];
        continue;
      }
      var ys := Successors(Get(byLhs, x), byLhs);
      ReachPop(rules, start, byLhs, reachable, agenda, ys);
      reachable := reachable + {x};
      agenda := agenda[1..] + ys;
    }
    ReachDone(rules, start, reachable);
  }

  /** The lhs of each rule of `group` whose rhs nonterminals all lie in `p`, in order. */
  method Enabled(group: seq<Rule>, nts: set<Sym>, p: set<Sym>) returns (xs: seq<Sym>)
    requires forall j | 0 <= j < |group| :: |group[j].lhs| == 1
    ensures forall x :: x in xs <==> exists j | 0 <= j < |group| :: group[j].lhs == [x] && AllIn(group[j].rhs, nts, p)
  {
    xs := [];
    for j := 0 to |group|
      invariant forall x :: x in xs <==> exists j' | 0 <= j' < j :: group[j'].lhs == [x] && AllIn(group[j'].rhs, nts, p)
    {
      if AllIn(group[j].rhs, nts, p) {
        assert group[j].lhs == [group[j].lhs[0]];
        xs := xs + [group[j].lhs[0]];
      }
    }
  }

  lemma AllInMono(rhs: seq<Sym>, nts: set<Sym>, p: set<Sym>, t: set<Sym>)
    requires AllIn(rhs, nts, p) && p <= t
    ensures AllIn(rhs, nts, t)
  {
  }

  /** The symbols with rules. */
  ghost function Lhss(rules: seq<Rule>): set<Sym>
  {
    set i | 0 <= i < |rules| && |rules[i].lhs| == 1 :: rules[i].lhs[0]
  }

  /** Everything done or pending is productive, and has rules. */
  ghost predicate ProdSound(rules: seq<Rule>, nts: set<Sym>, done: set<Sym>, agenda: seq<Sym>)
  {
    && (forall t {:trigger ProdClosed(t, rules, nts)} | ProdClosed(t, rules, nts) ::
         done <= t && forall k | 0 <= k < |agenda| :: agenda[k] in t)
    && done <= Lhss(rules)
    && forall k | 0 <= k < |agenda| :: agenda[k] in Lhss(rules)
  }

  /** A rule whose rhs nonterminals are all done has its lhs done or pending. */
  ghost predicate ProdPending(rules: seq<Rule>, nts: set<Sym>, done: set<Sym>, agenda: seq<Sym>)
  {
    forall i | 0 <= i < |rules| && |rules[i].lhs| == 1 && AllIn(rules[i].rhs, nts, done) ::
      rules[i].lhs[0] in done || rules[i].lhs[0] in agenda
  }

  /** The seed: the rules without nonterminals. */
  lemma ProdSeed(rules: seq<Rule>, nts: set<Sym>, xs: seq<Sym>)
    requires forall x :: x in xs <==> exists j | 0 <= j < |rules| :: rules[j].lhs == [x] && AllIn(rules[j].rhs, nts, {})
    ensures ProdSound(rules, nts, {}, xs) && ProdPending(rules, nts, {}, xs)
  {
    forall k | 0 <= k < |xs| ensures xs[k] in Lhss(rules) && forall t | ProdClosed(t, rules, nts) :: xs[k] in t {
      assert xs[k] in xs;
      var j :| 0 <= j < |rules| && rules[j].lhs == [xs[k]] && AllIn(rules[j].rhs, nts, {});
      forall t | ProdClosed(t, rules, nts) ensures xs[k] in t {
        AllInMono(rules[j].rhs, nts, {}, t);
      }
    }
    forall i | 0 <= i < |rules| && |rules[i].lhs| == 1 && AllIn(rules[i].rhs, nts, {}) ensures rules[i].lhs[0] in xs {
      assert rules[i].lhs == [rules[i].lhs[0]];
    }
  }

  lemma ProdSkip(rules: seq<Rule>, nts: set<Sym>, done: set<Sym>, agenda: seq<Sym>)
    requires agenda != [] && agenda[0] in done
    requires ProdSound(rules, nts, done, agenda) && ProdPending(rules, nts, done, agenda)
    ensures ProdSound(rules, nts, done, agenda[1..]) && ProdPending(rules, nts, done, agenda[1..])
  {
    assert forall y | y in agenda :: y == agenda[0] || y in agenda[1..];
  }

  /** A popped symbol not yet done: it becomes done, and the rules it completes push their lhs. */
  lemma ProdPop(rules: seq<Rule>, nts: set<Sym>, byRhs: map<Sym, seq<Rule>>, done: set<Sym>, agenda: seq<Sym>, more: seq<Sym>)
    requires ContextFree(rules, nts) && RhsIndexed(byRhs, rules, nts)
    requires agenda != [] && agenda[0] !in done
    requires ProdSound(rules, nts, done, agenda) && ProdPending(rules, nts, done, agenda)
    requires forall x :: x in more <==> exists j | 0 <= j < |Get(byRhs, agenda[0])| ::
      Get(byRhs, agenda[0])[j].lhs == [x] && AllIn(Get(byRhs, agenda[0])[j].rhs, nts, done + {agenda[0]})
    ensures ProdSound(rules, nts, done + {agenda[0]}, agenda[1..] + more)
    ensures ProdPending(rules, nts, done + {agenda[0]}, agenda[1..] + more)
  {
    var y := agenda[0];
    var group := Get(byRhs, y);
    var done' := done + {y};
    var agenda' := agenda[1..] + more;
    assert forall z | z in agenda :: z == y || z in agenda[1..];
    forall k | 0 <= k < |agenda'| ensures agenda'[k] in Lhss(rules) && forall t | ProdClosed(t, rules, nts) && done' <= t :: agenda'[k] in t {
      if k >= |agenda| - 1 {
        var x := agenda'[k];
        assert x in more;
        var j :| 0 <= j < |group| && group[j].lhs == [x] && AllIn(group[j].rhs, nts, done');
        assert group[j] in group;
        var i :| 0 <= i < |rules| && rules[i] == group[j];
        forall t | ProdClosed(t, rules, nts) && done' <= t ensures x in t {
          AllInMono(rules[i].rhs, nts, done', t);
        }
      } else {
        assert agenda'[k] == agenda[k + 1];
      }
    }
    assert y in Lhss(rules);
    forall i | 0 <= i < |rules| && |rules[i].lhs| == 1 && AllIn(rules[i].rhs, nts, done')
      ensures rules[i].lhs[0] in done' || rules[i].lhs[0] in agenda'
    {
      var x := rules[i].lhs[0];
      if AllIn(rules[i].rhs, nts, done) {
        if x != y && x !in done {
          assert x in agenda[1..];
        }
      } else {
        var k :| 0 <= k < |rules[i].rhs| && rules[i].rhs[k] in nts && rules[i].rhs[k] !in done;
        assert rules[i].rhs[k] == y;
        assert rules[i] in group;
        var j :| 0 <= j < |group| && group[j] == rules[i];
        assert rules[i].lhs == [x];
        assert x in more;
      }
    }
  }

  lemma ProdDone(rules: seq<Rule>, nts: set<Sym>, done: set<Sym>)
    requires ProdSound(rules, nts, done, []) && ProdPending(rules, nts, done, [])
    ensures ProdLeast(done, rules, nts)
  {
  }

  /** The productivity worklist: seeded by the rules without nonterminals, the least closed set. */
  method Productive(rules: seq<Rule>, nts: set<Sym>, byRhs: map<Sym, seq<Rule>>) returns (productive: set<Sym>)
    requires ContextFree(rules, nts)
    requires RhsIndexed(byRhs, rules, nts)
    ensures ProdLeast(productive, rules, nts)
  {
    var agenda := Enabled(rules, nts, {});
    productive := {};
    ProdSeed(rules, nts, agenda);
    while agenda != []
      invariant ProdSound(rules, nts, productive, agenda) && ProdPending(rules, nts, productive, agenda)
      decreases Lhss(rules) - productive, |agenda|
    {
      var y := agenda[0];
      if y in productive {
        ProdSkip(rules, nts, productive, agenda);
        agenda := agenda[1..];
        continue;
      }
      var group := Get(byRhs, y);
      forall j | 0 <= j < |group| ensures |group[j].lhs| == 1 {
        assert group[j] in Get(byRhs, y);
      }
      var more := Enabled(group, nts, productive + {y});
      ProdPop(rules, nts, byRhs, productive, agenda, more);
      productive := productive + {y};
      agenda := agenda[1..] + more;
    }
    ProdDone(rules, nts, productive);
  }

  /** `reachable & productive` for a context-free grammar. */
  method UsefulSymbols(rules: seq<Rule>, nts: set<Sym>, start: Sym) returns (u: set<Sym>)
    requires ContextFree(rules, nts)
    ensures exists r, p :: ReachLeast(r, rules, start) && ProdLeast(p, rules, nts) && u == r * p
  {
    var byLhs, byRhs := Index(rules, nts);
    var reachable := Reachable(rules, start, byLhs);
    var productive := Productive(rules, nts, byRhs);
    u := reachable * productive;
  }

  // ---------------------------------------------------------------------------
  // The grammar object.

  /** A grammar: a start symbol, the declared nonterminals and the rules in order. */
  class Grammar {
    var start: Sym
    var nonterminals: set<Sym>
    var rules: seq<Rule>

    /** `Grammar(start)`: the start symbol is the only nonterminal, and there are no rules yet. */
    constructor (start: Sym)
      ensures this.start == start && nonterminals == {start} && rules == []
    {
      this.start := start;
      nonterminals := {start};
      rules := [];
    }

    method AddNonterminal(x: Sym)
      modifies this`nonterminals
      ensures nonterminals == old(nonterminals) + {x}
    {
      nonterminals := nonterminals + {x};
    }

    /** `add_nonterminal` on each element of `xs`, in some order. */
    method AddNonterminals(xs: set<Sym>)
      modifies this`nonterminals
      ensures nonterminals == old(nonterminals) + xs
    {
      var todo := xs;
      while todo != {}
        invariant todo <= xs
        invariant nonterminals == old(nonterminals) + (xs - todo)
        decreases |todo|
      {
        var x :| x in todo;
        AddNonterminal(x);
        todo := todo - {x};
      }
    }

    method AddRule(lhs: seq<Sym>, rhs: seq<Sym>)
      modifies this`rules
      ensures rules == old(rules) + [Rule(lhs, rhs)]
    {
      rules := rules + [Rule(lhs, rhs)];
    }

    predicate IsContextFree()
      reads this
    {
      ContextFree(rules, nonterminals)
    }

    /** The loop that copies the useful rules into `g`, in order. */
    method CopyUseful(g: Grammar, u: set<Sym>)
      requires g != this
      modifies g`rules
      ensures g.rules == old(g.rules) + Keep(rules, nonterminals, u)
    {
      for i := 0 to |rules|
        invariant g.rules == old(g.rules) + Keep(rules[..i], nonterminals, u)
      {
        var rule := rules[i];
        assert rules[..i + 1][..i] == rules[..i];
        if Useful(rule, nonterminals, u) {
          g.AddRule([rule.lhs[0]], rule.rhs);
          assert [rule.lhs[0]] == rule.lhs;
        }
      }
      assert rules[..|rules|] == rules;
    }

    /**
     * `remove_useless` as written: a new grammar with the same start symbol and the
     * useful rules in order, whose only declared nonterminal is the start symbol.
     */
    method RemoveUselessAsWritten() returns (r: Result<Grammar, GrammarError>)
      ensures r.Failure? <==> !ContextFree(rules, nonterminals)
      ensures r.Failure? ==> r.error == NotContextFree
      ensures r.Success? ==> fresh(r.value) && r.value.start == start && r.value.nonterminals == {start}
      ensures r.Success? ==> exists re, p :: ReachLeast(re, rules, start) && ProdLeast(p, rules, nonterminals)
                                            && r.value.rules == Keep(rules, nonterminals, re * p)
    {
      if !IsContextFree() {
        return Failure(NotContextFree);
      }
      var u := UsefulSymbols(rules, nonterminals, start);
      var g := new Grammar(start);
      CopyUseful(g, u);
      r := Success(g);
    }

    /**
     * `remove_useless` with the useful nonterminals declared in the new grammar as
     * well, so that the result is again context-free.
     */
    method RemoveUseless() returns (r: Result<Grammar, GrammarError>)
      ensures r.Failure? <==> !ContextFree(rules, nonterminals)
      ensures r.Failure? ==> r.error == NotContextFree
      ensures r.Success? ==> fresh(r.value) && r.value.start == start
      ensures r.Success? ==> exists re, p :: ReachLeast(re, rules, start) && ProdLeast(p, rules, nonterminals)
                                            && r.value.rules == Keep(rules, nonterminals, re * p)
                                            && r.value.nonterminals == {start} + (nonterminals * (re * p))
      ensures r.Success? ==> ContextFree(r.value.rules, r.value.nonterminals)
    {
      if !IsContextFree() {
        return Failure(NotContextFree);
      }
      var u := UsefulSymbols(rules, nonterminals, start);
      ghost var re, p :| ReachLeast(re, rules, start) && ProdLeast(p, rules, nonterminals) && u == re * p;
      var g := new Grammar(start);
      CopyUseful(g, u);
      g.AddNonterminals(nonterminals * u);
      KeptContextFree(rules, nonterminals, u, start);
      r := Success(g);
    }
  }

  /**
   * On `S -> A`, `A -> a` both rules are useful and kept, but the grammar `remove_useless`
   * builds declares only `S`, so its rule `A -> a` no longer has a nonterminal lhs.
   */
  lemma RemoveUselessAsWrittenNotContextFree(re: set<Sym>, p: set<Sym>)
    requires ReachLeast(re, [Rule([Name("S")], [Name("A")]), Rule([Name("A")], [Name("a")])], Name("S"))
    requires ProdLeast(p, [Rule([Name("S")], [Name("A")]), Rule([Name("A")], [Name("a")])], {Name("S"), Name("A")})
    ensures ContextFree([Rule([Name("S")], [Name("A")]), Rule([Name("A")], [Name("a")])], {Name("S"), Name("A")})
    ensures !ContextFree(Keep([Rule([Name("S")], [Name("A")]), Rule([Name("A")], [Name("a")])],
                              {Name("S"), Name("A")}, re * p), {Name("S")})
  {
    var s, a := Name("S"), Name("A");
    var r0, r1 := Rule([s], [a]), Rule([a], [Name("a")]);
    var rules, nts := [r0, r1], {s, a};
    assert rules[0] == r0 && rules[1] == r1;
    assert Heads(rules, rules[0].rhs[0]) by { assert rules[1].lhs == [a]; }
    assert a in re;
    assert AllIn(rules[1].rhs, nts, p);
    assert a in p;
    assert AllIn(rules[0].rhs, nts, p);
    assert s in p;
    KeepMeaning(rules, nts, re * p, r1);
    var kept := Keep(rules, nts, re * p);
    var i :| 0 <= i < |kept| && kept[i] == r1;
    assert !(|kept[i].lhs| == 1 && kept[i].lhs[0] in {s});
  }

  // ---------------------------------------------------------------------------
  // Names.

  /** `s` followed by `k` primes. */
  function Primed(s: string, k: nat): string
  {
    s + Repeat('\'', k)
  }

  /** The names in `alphabet` of length at least `n`: they bound how many primes `fresh` can need. */
  ghost function AtLeast(alphabet: set<string>, n: nat): set<string>
  {
    set a | a in alphabet && |a| >= n
  }

  /** `fresh`: append primes to `s` until the name is not in `alphabet`. */
  method Fresh(s: string, alphabet: set<string>) returns (r: string)
    ensures r !in alphabet
    ensures exists k: nat :: r == Primed(s, k) && forall j | 0 <= j < k :: Primed(s, j) in alphabet
    ensures s !in alphabet ==> r == s
  {
    r := s;
    ghost var k: nat := 0;
    assert Primed(s, 0) == s;
    while r in alphabet
      invariant r == Primed(s, k)
      invariant forall j | 0 <= j < k :: Primed(s, j) in alphabet
      decreases AtLeast(alphabet, |r|)
    {
      ghost var before, previous := AtLeast(alphabet, |r|), r;
      assert Primed(s, k + 1) == r + "'";
      r := r + "'";
      k := k + 1;
      assert previous in before && previous !in AtLeast(alphabet, |r|);
    }
  }

  /** `r` is what `fresh(s, alphabet)` returns: the first of `s`, `s'`, `s''`, ... not in `alphabet`. */
  ghost predicate FreshFor(r: string, s: string, alphabet: set<string>)
  {
    r !in alphabet && exists k: nat :: r == Primed(s, k) && forall j | 0 <= j < k :: Primed(s, j) in alphabet
  }

  /** There is only one such name: `fresh` is a function of its arguments. */
  lemma FreshUnique(r1: string, r2: string, s: string, alphabet: set<string>)
    requires FreshFor(r1, s, alphabet) && FreshFor(r2, s, alphabet)
    ensures r1 == r2
  {
    var k1: nat :| r1 == Primed(s, k1) && forall j | 0 <= j < k1 :: Primed(s, j) in alphabet;
    var k2: nat :| r2 == Primed(s, k2) && forall j | 0 <= j < k2 :: Primed(s, j) in alphabet;
    if k1 != k2 {
      assert false;
    }
  }

  /** A fresh name starts like the name it was made from. */
  lemma FreshPrefix(r: string, s: string, alphabet: set<string>)
    requires FreshFor(r, s, alphabet)
    ensures |r| >= |s| && r[..|s|] == s
  {
    var k: nat :| r == Primed(s, k) && forall j | 0 <= j < k :: Primed(s, j) in alphabet;
    assert r[..|s|] == s;
  }

  /** `zero_pad(n, i)`: the decimal form of `i`, padded on the left with zeros to the length of `n`'s. */
  function ZeroPad(n: nat, i: nat): (r: string)
  {
    var d := Decimal(i);
    var w := |Decimal(n)|;
    Repeat('0', if w > |d| then w - |d| else 0) + d
  }

  /** The padded form is all digits, as long as the longer of the two decimal forms, and reads back as `i`. */
  lemma ZeroPadValue(n: nat, i: nat)
    ensures |ZeroPad(n, i)| == if |Decimal(i)| >= |Decimal(n)| then |Decimal(i)| else |Decimal(n)|
    ensures forall k | 0 <= k < |ZeroPad(n, i)| :: IsDigit(ZeroPad(n, i)[k])
    ensures Value(ZeroPad(n, i)) == i
  {
    var d := Decimal(i);
    var w := |Decimal(n)|;
    DecimalValue(i);
    ZerosValue(if w > |d| then w - |d| else 0, d);
  }
}
