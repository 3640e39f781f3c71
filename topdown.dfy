/**
 * `from_grammar_topdown`: the top-down (predict/match) pushdown automaton of a context-free
 * grammar. It pushes a bottom marker and the start symbol, expands a nonterminal on top of
 * the stack by pushing a rule's right side one symbol at a time (last symbol first), matches
 * a terminal on top of the stack against the input, and accepts on the bottom marker.
 */
module TopDown {
  import opened Wrappers
  import opened Text
  import opened Machines
  import opened Grammars

  /** A rule `lhs -> rhs` as the rule reader returns it; the first rule's lhs is the start symbol. */
  datatype Production = Production(lhs: Symbol, rhs: seq<Symbol>)

  /** The state name `zero_pad(count + 1, k) + "." + zero_pad(n + 1, si)`. */
  function Label(count: nat, k: nat, n: nat, si: nat): Symbol
  {
    ZeroPad(count + 1, k) + "." + ZeroPad(n + 1, si)
  }

  /** The state between the two opening transitions: `zero_pad(count + 1, 0) + ".1"`. */
  function FirstLabel(count: nat): Symbol
  {
    ZeroPad(count + 1, 0) + ".1"
  }

  /** The two opening transitions: push `$`, then the start symbol, and go to `loop`. */
  function Header(rules: seq<Production>): seq<PdaTransition>
    requires rules != []
  {
    var q1 := FirstLabel(|rules|);
    [PdaTransition(Pattern("start", [], []), q1, ["$"]),
     PdaTransition(Pattern(q1, [], []), "loop", [rules[0].lhs])]
  }

  /**
   * The link of rule `ri`'s chain that pushes rhs symbol `si`: the chain starts in `loop`
   * popping the lhs, runs through the states labelled `ri + 1`, and ends in `loop`.
   */
  function Link(count: nat, ri: nat, p: Production, si: nat): PdaTransition
    requires si < |p.rhs|
  {
    var n := |p.rhs|;
    PdaTransition(Pattern(if si == n - 1 then "loop" else Label(count, ri + 1, n, si + 1), [],
                          if si == n - 1 then [p.lhs] else []),
                  if si > 0 then Label(count, ri + 1, n, si) else "loop",
                  [p.rhs[si]])
  }

  /** The last `k` links of rule `ri`'s chain: those for `si = k - 1, ..., 0`, in that order. */
  function ChainFrom(count: nat, ri: nat, p: Production, k: nat): (r: seq<PdaTransition>)
    requires k <= |p.rhs|
    ensures |r| == k
  {
    if k == 0 then [] else [Link(count, ri, p, k - 1)] + ChainFrom(count, ri, p, k - 1)
  }

  /** The transitions for rule `ri`: one pop for an empty rhs, otherwise the links for `si = n - 1, ..., 0`. */
  function RuleTransitions(count: nat, ri: nat, p: Production): (r: seq<PdaTransition>)
    ensures |r| == if p.rhs == [] then 1 else |p.rhs|
  {
    if p.rhs == [] then [PdaTransition(Pattern("loop", [], [p.lhs]), "loop", [])]
    else ChainFrom(count, ri, p, |p.rhs|)
  }

  /** The transitions of the first `k` rules, in order. */
  function Bodies(rules: seq<Production>, k: nat): seq<PdaTransition>
    requires k <= |rules|
  {
    if k == 0 then [] else Bodies(rules, k - 1) + RuleTransitions(|rules|, k - 1, rules[k - 1])
  }

  /** `(loop, ε, $) -> (accept, ε)`. */
  function Finish(): PdaTransition
  {
    PdaTransition(Pattern("loop", [], ["$"]), "accept", [])
  }

  /** `(loop, a, a) -> (loop, ε)`: match the terminal `a`. */
  function Matcher(a: Symbol): PdaTransition
  {
    PdaTransition(Pattern("loop", [a], [a]), "loop", [])
  }

  /** One matcher per symbol of `order`, in that order. */
  function Matchers(order: seq<Symbol>): (r: seq<PdaTransition>)
    ensures |r| == |order|
  {
    if order == [] then [] else Matchers(order[..|order| - 1]) + [Matcher(order[|order| - 1])]
  }

  ghost predicate Distinct<T>(s: seq<T>)
  {
    forall i, j | 0 <= i < j < |s| :: s[i] != s[j]
  }

  lemma AppendAssoc<T>(a: seq<T>, b: seq<T>, c: seq<T>)
    ensures (a + b) + c == a + (b + c)
  {
  }

  lemma AppendNil<T>(a: seq<T>)
    ensures [] + a == a
  {
  }

  /** `set(s)`. */
  function Elems(s: seq<Symbol>): set<Symbol>
  {
    set j | 0 <= j < |s| :: s[j]
  }

  /** The lhs of the first `k` rules. */
  function LhsUpTo(rules: seq<Production>, k: nat): set<Symbol>
    requires k <= |rules|
  {
    if k == 0 then {} else LhsUpTo(rules, k - 1) + {rules[k - 1].lhs}
  }

  /** The rhs symbols of the first `k` rules. */
  function RhsUpTo(rules: seq<Production>, k: nat): set<Symbol>
    requires k <= |rules|
  {
    if k == 0 then {} else RhsUpTo(rules, k - 1) + Elems(rules[k - 1].rhs)
  }

  lemma {:induction false} LhsFirst(rules: seq<Production>, k: nat)
    requires 0 < k <= |rules|
    ensures rules[0].lhs in LhsUpTo(rules, k)
  {
    if k > 1 {
      LhsFirst(rules, k - 1);
    }
  }

  /** The terminals: the rhs symbols that are no rule's lhs. */
  function Terminals(rules: seq<Production>): set<Symbol>
  {
    RhsUpTo(rules, |rules|) - LhsUpTo(rules, |rules|)
  }

  lemma Regroup<T>(e: seq<T>, l: T, c: seq<T>, tail: seq<T>, whole: seq<T>)
    requires tail == [l] + c && e + tail == whole
    ensures (e + [l]) + c == whole
  {
    AppendAssoc(e, [l], c);
  }

  /** The inner loop of `from_grammar_topdown`: the transitions generated for rule `ri`. */
  method RuleChain(count: nat, ri: nat, p: Production) returns (ts: seq<PdaTransition>)
    ensures ts == RuleTransitions(count, ri, p)
  {
    var lhs, rhs := p.lhs, p.rhs;
    if |rhs| == 0 {
      return [PdaTransition(Pattern("loop", [], [lhs]), "loop", [])];
    }
    ts := [];
    var q := "loop";
    AppendNil(ChainFrom(count, ri, p, |rhs|));
    for idx := 0 to |rhs|
      invariant ts + ChainFrom(count, ri, p, |rhs| - idx) == ChainFrom(count, ri, p, |rhs|)
      invariant q == if idx == 0 || idx == |rhs| then "loop" else Label(count, ri + 1, |rhs|, |rhs| - idx)
    {
      var si := |rhs| - 1 - idx;
      var q1 := if si > 0 then Label(count, ri + 1, |rhs|, si) else "loop";
      var link := PdaTransition(Pattern(q, [], if si == |rhs| - 1 then [lhs] else []), q1, [rhs[si]]);
      assert link == Link(count, ri, p, si);
      Regroup(ts, link, ChainFrom(count, ri, p, si), ChainFrom(count, ri, p, si + 1), ChainFrom(count, ri, p, |rhs|));
      ts := ts + [link];
      q := q1;
    }
    assert ts + [] == ts;
  }

  /** The last loop of `from_grammar_topdown`: one matcher per terminal, in the set's order. */
  method MatchAll(terminals: set<Symbol>) returns (ts: seq<PdaTransition>)
    ensures exists order: seq<Symbol> ::
      && Distinct(order) && (forall a :: a in order <==> a in terminals) && ts == Matchers(order)
  {
    ts := [];
    var todo := terminals;
    ghost var order: seq<Symbol> := [];
    while todo != {}
      invariant todo <= terminals
      invariant forall a :: a in order <==> a in terminals && a !in todo
      invariant Distinct(order)
      invariant ts == Matchers(order)
      decreases |todo|
    {
      var a :| a in todo;
      ts := ts + [PdaTransition(Pattern("loop", [a], [a]), "loop", [])];
      assert (order + [a])[..|order|] == order;
      order := order + [a];
      todo := todo - {a};
    }
  }

  /** The rule loop of `from_grammar_topdown`: each rule's transitions in turn, and the symbol sets. */
  method AllRules(rules: seq<Production>, ts0: seq<PdaTransition>) returns (ts: seq<PdaTransition>, nonterminals: set<Symbol>, symbols: set<Symbol>)
    requires rules != []
    ensures ts == ts0 + Bodies(rules, |rules|)
    ensures nonterminals == {rules[0].lhs} + LhsUpTo(rules, |rules|)
    ensures symbols == LhsUpTo(rules, |rules|) + RhsUpTo(rules, |rules|)
  {
    ts, nonterminals, symbols := ts0, {rules[0].lhs}, {};
    for ri := 0 to |rules|
      invariant ts == ts0 + Bodies(rules, ri)
      invariant nonterminals == {rules[0].lhs} + LhsUpTo(rules, ri)
      invariant symbols == LhsUpTo(rules, ri) + RhsUpTo(rules, ri)
    {
      var lhs, rhs := rules[ri].lhs, rules[ri].rhs;
      var chain := RuleChain(|rules|, ri, rules[ri]);
      RuleStep(rules, ri, ts0, ts, chain);
      ts, nonterminals, symbols := ts + chain, nonterminals + {lhs}, symbols + {lhs} + Elems(rhs);
    }
  }

  /** One turn of the rule loop: rule `ri`'s transitions and symbols extend the totals so far. */
  lemma RuleStep(rules: seq<Production>, ri: nat, ts0: seq<PdaTransition>, ts: seq<PdaTransition>, chain: seq<PdaTransition>)
    requires ri < |rules|
    requires ts == ts0 + Bodies(rules, ri) && chain == RuleTransitions(|rules|, ri, rules[ri])
    ensures ts + chain == ts0 + Bodies(rules, ri + 1)
    ensures {rules[0].lhs} + LhsUpTo(rules, ri) + {rules[ri].lhs} == {rules[0].lhs} + LhsUpTo(rules, ri + 1)
    ensures LhsUpTo(rules, ri) + RhsUpTo(rules, ri) + {rules[ri].lhs} + Elems(rules[ri].rhs)
         == LhsUpTo(rules, ri + 1) + RhsUpTo(rules, ri + 1)
  {
    BodiesStep(rules, ri);
    Regroup3(ts0, Bodies(rules, ri), chain, Bodies(rules, ri + 1));
    UpToStep(rules, ri);
    SetsRegroup({rules[0].lhs}, LhsUpTo(rules, ri), RhsUpTo(rules, ri), rules[ri].lhs, Elems(rules[ri].rhs));
  }

  lemma BodiesStep(rules: seq<Production>, k: nat)
    requires k < |rules|
    ensures Bodies(rules, k + 1) == Bodies(rules, k) + RuleTransitions(|rules|, k, rules[k])
  {
  }

  lemma UpToStep(rules: seq<Production>, k: nat)
    requires k < |rules|
    ensures LhsUpTo(rules, k + 1) == LhsUpTo(rules, k) + {rules[k].lhs}
    ensures RhsUpTo(rules, k + 1) == RhsUpTo(rules, k) + Elems(rules[k].rhs)
  {
  }

  lemma SetsRegroup<T>(n: set<T>, l: set<T>, r: set<T>, x: T, e: set<T>)
    ensures (n + l) + {x} == n + (l + {x})
    ensures (l + r) + {x} + e == (l + {x}) + (r + e)
  {
  }

  lemma Regroup3<T>(a: seq<T>, b: seq<T>, c: seq<T>, bc: seq<T>)
    requires bc == b + c
    ensures (a + b) + c == a + bc
  {
    AppendAssoc(a, b, c);
  }

  /**
   * `from_grammar_topdown` on already parsed rules: the header, each rule's transitions in
   * rule order, the accepting transition, and one matcher per terminal (in the unspecified
   * order of a set, each once). Without rules there is no start symbol.
   */
  method FromGrammarTopdown(rules: seq<Production>) returns (r: Result<Pda, GrammarError>)
    ensures r.Failure? <==> rules == []
    ensures r.Failure? ==> r.error == NoRules
    ensures r.Success? ==> r.value.start == "start" && r.value.accepts == {"accept"}
    ensures r.Success? ==> exists order: seq<Symbol> ::
      && Distinct(order) && (forall a :: a in order <==> a in Terminals(rules))
      && r.value.transitions == Header(rules) + Bodies(rules, |rules|) + [Finish()] + Matchers(order)
  {
    if rules == [] {
      return Failure(NoRules);
    }
    var start := rules[0].lhs;
    var q1 := FirstLabel(|rules|);
    var ts := [PdaTransition(Pattern("start", [], []), q1, ["$"]), PdaTransition(Pattern(q1, [], []), "loop", [start])];
    var nonterminals, symbols;
    ts, nonterminals, symbols := AllRules(rules, ts);
    ts := ts + [Finish()];
    LhsFirst(rules, |rules|);
    var matchers := MatchAll(symbols - nonterminals);
    r := Success(Pda("start", {"accept"}, ts + matchers));
  }

  // ---------------------------------------------------------------------------
  // What the transitions do.

  /** Apply the transitions one after the other; `None` as soon as one does not match. */
  function Steps(ts: seq<PdaTransition>, c: Config): Option<Config>
    decreases |ts|
  {
    if ts == [] then Some(c)
    else if Matches(ts[0].lhs, c) then Steps(ts[1..], Apply(ts[0], c))
    else None
  }

  /** Before the last `k` links: state `loop` when none is left, else the label of position `k`. */
  function ChainState(count: nat, ri: nat, p: Production, k: nat): Symbol
  {
    if k == 0 then "loop" else Label(count, ri + 1, |p.rhs|, k)
  }

  /** The last `k` links push the first `k` rhs symbols in front of the part already pushed. */
  lemma {:induction false} ChainRest(count: nat, ri: nat, p: Production, k: nat, input: Store, rest: seq<Symbol>, pos: nat)
    requires k < |p.rhs| && input.position <= |input.values|
    ensures Steps(ChainFrom(count, ri, p, k), Config(ChainState(count, ri, p, k), input, Store(p.rhs[k..] + rest, pos)))
         == Some(Config("loop", input, Store(p.rhs + rest, pos)))
    decreases k
  {
    var c := Config(ChainState(count, ri, p, k), input, Store(p.rhs[k..] + rest, pos));
    if k == 0 {
      assert p.rhs[0..] == p.rhs;
    } else {
      var t := Link(count, ri, p, k - 1);
      assert c.stack.values[..0] == [];
      assert input.values[input.position..input.position] == [];
      assert Matches(t.lhs, c);
      assert [p.rhs[k - 1]] + p.rhs[k..] == p.rhs[k - 1..];
      assert Apply(t, c) == Config(ChainState(count, ri, p, k - 1), input, Store(p.rhs[k - 1..] + rest, pos));
      ChainRest(count, ri, p, k - 1, input, rest, pos);
    }
  }

  /**
   * Expanding a rule: from `loop` with the rule's lhs on top of the stack, the rule's
   * transitions (run in order) consume no input and replace the lhs by the rhs, leftmost
   * symbol on top, and come back to `loop`.
   */
  lemma RuleExpands(count: nat, ri: nat, p: Production, c: Config)
    requires c.state == "loop" && |c.stack.values| > 0 && c.stack.values[0] == p.lhs
    requires c.input.position <= |c.input.values|
    ensures Steps(RuleTransitions(count, ri, p), c)
         == Some(Config("loop", c.input, Store(p.rhs + c.stack.values[1..], c.stack.position)))
  {
    if p.rhs == [] {
      var ts := RuleTransitions(count, ri, p);
      assert c.stack.values[..1] == [p.lhs];
      assert c.input.values[c.input.position..c.input.position] == [];
      assert |ts[1..]| == 0;
    } else {
      ChainExpands(count, ri, p, c);
    }
  }

  lemma ChainExpands(count: nat, ri: nat, p: Production, c: Config)
    requires p.rhs != []
    requires c.state == "loop" && |c.stack.values| > 0 && c.stack.values[0] == p.lhs
    requires c.input.position <= |c.input.values|
    ensures Steps(ChainFrom(count, ri, p, |p.rhs|), c)
         == Some(Config("loop", c.input, Store(p.rhs + c.stack.values[1..], c.stack.position)))
  {
    var rest := c.stack.values[1..];
    assert c.stack.values[..1] == [p.lhs];
    assert c.input.values[c.input.position..c.input.position] == [];
    var n := |p.rhs|;
    var t := Link(count, ri, p, n - 1);
    assert ChainFrom(count, ri, p, n) == [t] + ChainFrom(count, ri, p, n - 1);
    assert Matches(t.lhs, c);
    assert Apply(t, c) == Config(ChainState(count, ri, p, n - 1), c.input, Store(p.rhs[n - 1..] + rest, c.stack.position)) by {
      assert p.rhs[n - 1..] == [p.rhs[n - 1]];
    }
    ChainRest(count, ri, p, n - 1, c.input, rest, c.stack.position);
  }

  /** A matcher consumes its terminal from the input and from the top of the stack. */
  lemma MatcherConsumes(a: Symbol, c: Config)
    requires c.state == "loop" && |c.stack.values| > 0 && c.stack.values[0] == a
    requires c.input.position < |c.input.values| && c.input.values[c.input.position] == a
    ensures Steps([Matcher(a)], c)
         == Some(Config("loop", Store(c.input.values, c.input.position + 1), Store(c.stack.values[1..], c.stack.position)))
  {
    assert c.input.values[c.input.position..c.input.position + 1] == [a];
    assert c.stack.values[..1] == [a];
    assert |[Matcher(a)][1..]| == 0;
  }

  // ---------------------------------------------------------------------------
  // The state names.

  lemma LabelDigits(count: nat, k: nat, n: nat, si: nat)
    ensures '.' !in ZeroPad(count + 1, k) && '.' !in ZeroPad(n + 1, si)
    ensures Label(count, k, n, si) == Join(".", [ZeroPad(count + 1, k), ZeroPad(n + 1, si)])
  {
    var a, b := ZeroPad(count + 1, k), ZeroPad(n + 1, si);
    ZeroPadValue(count + 1, k);
    ZeroPadValue(n + 1, si);
    assert forall i | 0 <= i < |a| :: IsDigit(a[i]);
    assert forall i | 0 <= i < |b| :: IsDigit(b[i]);
    var parts: seq<string> := [a, b];
    assert parts[1..][1..] == [];
  }

  /** Distinct positions get distinct states: each chain's intermediate states belong to it alone. */
  lemma LabelInjective(count: nat, k: nat, n: nat, si: nat, count': nat, k': nat, n': nat, si': nat)
    requires Label(count, k, n, si) == Label(count', k', n', si')
    ensures k == k' && si == si'
  {
    LabelDigits(count, k, n, si);
    LabelDigits(count', k', n', si');
    SplitJoin('.', [ZeroPad(count + 1, k), ZeroPad(n + 1, si)]);
    SplitJoin('.', [ZeroPad(count' + 1, k'), ZeroPad(n' + 1, si')]);
    ZeroPadValue(count + 1, k);
    ZeroPadValue(n + 1, si);
    ZeroPadValue(count' + 1, k');
    ZeroPadValue(n' + 1, si');
  }

  /** No label is one of the named states `start`, `loop`, `accept`. */
  lemma LabelNotNamed(count: nat, k: nat, n: nat, si: nat)
    ensures Label(count, k, n, si) != "start" && Label(count, k, n, si) != "loop" && Label(count, k, n, si) != "accept"
  {
    var a := ZeroPad(count + 1, k);
    var l := Label(count, k, n, si);
    assert l[|a|] == '.';
    assert '.' in l;
    assert '.' !in "start" && '.' !in "loop" && '.' !in "accept";
  }

  /** The opening state splits at its one dot into `zero_pad(count + 1, 0)` and `1`. */
  lemma FirstLabelSplit(count: nat)
    ensures Split('.', FirstLabel(count)) == [ZeroPad(count + 1, 0), "1"]
    ensures '.' in FirstLabel(count)
  {
    var a := ZeroPad(count + 1, 0);
    ZeroPadValue(count + 1, 0);
    assert forall i | 0 <= i < |a| :: IsDigit(a[i]);
    var parts: seq<string> := [a, "1"];
    assert parts[1..][1..] == [];
    assert FirstLabel(count) == Join(".", parts);
    SplitJoin('.', parts);
    assert FirstLabel(count)[|a|] == '.';
  }

  /** A chain label splits at its one dot into its two padded numbers. */
  lemma LabelSplit(count: nat, k: nat, n: nat, si: nat)
    ensures Split('.', Label(count, k, n, si)) == [ZeroPad(count + 1, k), ZeroPad(n + 1, si)]
  {
    LabelDigits(count, k, n, si);
    SplitJoin('.', [ZeroPad(count + 1, k), ZeroPad(n + 1, si)]);
  }

  /**
   * The opening state belongs to no rule's chain, since its first number is 0 and every
   * chain's is a rule number plus one, and it is none of the named states.
   */
  lemma FirstLabelFresh(count: nat, k: nat, n: nat, si: nat)
    requires k > 0
    ensures FirstLabel(count) != Label(count, k, n, si)
    ensures FirstLabel(count) != "start" && FirstLabel(count) != "loop" && FirstLabel(count) != "accept"
  {
    FirstLabelSplit(count);
    LabelSplit(count, k, n, si);
    ZeroPadValue(count + 1, 0);
    ZeroPadValue(count + 1, k);
    assert ZeroPad(count + 1, 0) != ZeroPad(count + 1, k);
    assert '.' !in "start" && '.' !in "loop" && '.' !in "accept";
  }
}
