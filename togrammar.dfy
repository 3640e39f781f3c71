/**
 * `to_grammar`: the context-free grammar of a pushdown automaton each of whose transitions
 * pushes exactly one symbol or pops exactly one symbol (the construction of Lemma 2.27 in
 * Sipser's Introduction to the Theory of Computation). The nonterminal `Pair(p, q)` stands
 * for A_pq, which derives the input read from state p to state q with the stack back where
 * it was. A bottom marker and the states `start`, `accept` and `empty` are added first, so
 * that the automaton starts and ends with an empty stack.
 */
module PdaToGrammar {
  import opened Wrappers
  import opened Machines
  import opened Grammars

  /** A transition without its stack part, as `push[u]` and `pop[u]` store it: `(q, a, r)`. */
  datatype Move = Move(from: Symbol, input: seq<Symbol>, to: Symbol)

  function MoveOf(t: PdaTransition): Move
  {
    Move(t.lhs.state, t.lhs.input, t.target)
  }

  /** Why a transition cannot be converted, if it cannot. */
  function Defect(t: PdaTransition): Option<GrammarError>
  {
    if |t.lhs.stack| > 1 || |t.push| > 1 then Some(MultiplePushPop)
    else if |t.lhs.stack| == |t.push| then Some(PushXorPop)
    else None
  }

  function Elems<T>(s: seq<T>): set<T>
  {
    set x | x in s
  }

  /** A `defaultdict(list)` read. */
  function Entry(m: map<Symbol, seq<Move>>, u: Symbol): seq<Move>
  {
    if u in m then m[u] else []
  }

  /** The moves of the transitions that push `u` and pop nothing. */
  ghost function Pushes(ts: seq<PdaTransition>, u: Symbol): set<Move>
  {
    set t | t in ts && t.lhs.stack == [] && t.push == [u] :: MoveOf(t)
  }

  /** The moves of the transitions that pop `u` and push nothing. */
  ghost function Pops(ts: seq<PdaTransition>, u: Symbol): set<Move>
  {
    set t | t in ts && t.lhs.stack == [u] && t.push == [] :: MoveOf(t)
  }

  /** The stack alphabet: every symbol a transition pops or pushes. */
  ghost function StackSymbols(ts: seq<PdaTransition>): set<Symbol>
  {
    (set t, x | t in ts && x in t.lhs.stack :: x) + (set t, x | t in ts && x in t.push :: x)
  }

  /** The transitions sorted by the stack symbol they push or pop. */
  datatype Split = Split(push: map<Symbol, seq<Move>>, pop: map<Symbol, seq<Move>>, gamma: set<Symbol>)

  lemma ElemsAppend<T>(s: seq<T>, x: T)
    ensures Elems(s + [x]) == Elems(s) + {x}
  {
  }

  /** One more step of a loop that adds the rules `add` of its next element. */
  lemma Grow<T>(now: set<T>, before: set<T>, start: set<T>, done: set<T>, done': set<T>, add: set<T>)
    requires before == start + done && now == before + add && done' == done + add
    ensures now == start + done'
  {
  }

  /** Moving one element from the set still to visit to the set visited keeps them a partition. */
  lemma TakeOne<T>(todo: set<T>, done: set<T>, all: set<T>, x: T)
    requires todo + done == all && todo !! done && x in todo
    ensures (todo - {x}) + (done + {x}) == all && (todo - {x}) !! (done + {x})
  {
  }

  /** `push` files the pushes of the first `i` transitions, and `pop` their pops. */
  ghost predicate Filed(push: map<Symbol, seq<Move>>, pop: map<Symbol, seq<Move>>, ts: seq<PdaTransition>, i: nat)
    requires i <= |ts|
  {
    && (forall u :: Elems(Entry(push, u)) == Pushes(ts[..i], u))
    && (forall u :: Elems(Entry(pop, u)) == Pops(ts[..i], u))
  }

  lemma FilePush(push: map<Symbol, seq<Move>>, pop: map<Symbol, seq<Move>>, ts: seq<PdaTransition>, i: nat)
    requires i < |ts| && Filed(push, pop, ts, i) && |ts[i].lhs.stack| == 0 && |ts[i].push| == 1
    ensures Filed(push[ts[i].push[0] := Entry(push, ts[i].push[0]) + [MoveOf(ts[i])]], pop, ts, i + 1)
  {
    var t, x := ts[i], ts[i].push[0];
    assert ts[..i + 1] == ts[..i] + [t];
    ElemsAppend(Entry(push, x), MoveOf(t));
    assert t.push == [x] && t.lhs.stack == [];
    var push' := push[x := Entry(push, x) + [MoveOf(t)]];
    forall u ensures Elems(Entry(push', u)) == Pushes(ts[..i + 1], u) {
      assert u != x ==> Entry(push', u) == Entry(push, u);
    }
  }

  lemma FilePop(push: map<Symbol, seq<Move>>, pop: map<Symbol, seq<Move>>, ts: seq<PdaTransition>, i: nat)
    requires i < |ts| && Filed(push, pop, ts, i) && |ts[i].lhs.stack| == 1 && |ts[i].push| == 0
    ensures Filed(push, pop[ts[i].lhs.stack[0] := Entry(pop, ts[i].lhs.stack[0]) + [MoveOf(ts[i])]], ts, i + 1)
  {
    var t, x := ts[i], ts[i].lhs.stack[0];
    assert ts[..i + 1] == ts[..i] + [t];
    ElemsAppend(Entry(pop, x), MoveOf(t));
    assert t.lhs.stack == [x] && t.push == [];
    var pop' := pop[x := Entry(pop, x) + [MoveOf(t)]];
    forall u ensures Elems(Entry(pop', u)) == Pops(ts[..i + 1], u) {
      assert u != x ==> Entry(pop', u) == Entry(pop, u);
    }
  }

  lemma AlphabetStep(ts: seq<PdaTransition>, i: nat)
    requires i < |ts|
    ensures StackSymbols(ts[..i + 1]) == StackSymbols(ts[..i]) + Elems(ts[i].lhs.stack) + Elems(ts[i].push)
  {
    assert ts[..i + 1] == ts[..i] + [ts[i]];
  }

  /**
   * The first loop of `to_grammar`: it files each transition under the symbol it pushes or
   * pops, collects the stack alphabet, and raises on the first transition that pushes or
   * pops more than one symbol, or does both or neither.
   */
  method Classify(ts: seq<PdaTransition>) returns (r: Result<Split, GrammarError>)
    ensures r.Failure? <==> exists i | 0 <= i < |ts| :: Defect(ts[i]).Some?
    ensures r.Failure? ==> exists i | 0 <= i < |ts| ::
              Defect(ts[i]) == Some(r.error) && forall j | 0 <= j < i :: Defect(ts[j]) == None
    ensures r.Success? ==>
              && (forall u :: Elems(Entry(r.value.push, u)) == Pushes(ts, u))
              && (forall u :: Elems(Entry(r.value.pop, u)) == Pops(ts, u))
              && r.value.gamma == StackSymbols(ts)
  {
    var push: map<Symbol, seq<Move>>, pop: map<Symbol, seq<Move>>, gamma: set<Symbol> := map[], map[], {};
    for i := 0 to |ts|
      invariant forall j | 0 <= j < i :: Defect(ts[j]) == None
      invariant Filed(push, pop, ts, i)
      invariant gamma == StackSymbols(ts[..i])
    {
      var t := ts[i];
      AlphabetStep(ts, i);
      gamma := gamma + Elems(t.lhs.stack) + Elems(t.push);
      if |t.lhs.stack| > 1 || |t.push| > 1 {
        return Failure(MultiplePushPop);
      }
      if |t.lhs.stack| == 0 && |t.push| == 1 {
        FilePush(push, pop, ts, i);
        push := push[t.push[0] := Entry(push, t.push[0]) + [MoveOf(t)]];
      } else if |t.lhs.stack| == 1 && |t.push| == 0 {
        FilePop(push, pop, ts, i);
        pop := pop[t.lhs.stack[0] := Entry(pop, t.lhs.stack[0]) + [MoveOf(t)]];
      } else {
        return Failure(PushXorPop);
      }
    }
    assert ts[..|ts|] == ts;
    r := Success(Split(push, pop, gamma));
  }

  // ---------------------------------------------------------------------------
  // The expected result.

  /** The names `to_grammar` adds: the new start state, the bottom marker, and the states `accept` and `empty`. */
  datatype NewNames = NewNames(start: Symbol, bottom: Symbol, accept: Symbol, empty: Symbol)

  ghost predicate Chosen(n: NewNames, m: Pda)
  {
    && FreshFor(n.start, "start", PdaStates(m))
    && FreshFor(n.bottom, "$", StackSymbols(m.transitions))
    && FreshFor(n.accept, "accept", PdaStates(m))
    && FreshFor(n.empty, "empty", PdaStates(m))
  }

  /** The stack alphabet with the bottom marker. */
  ghost function Gamma(m: Pda, n: NewNames): set<Symbol>
  {
    StackSymbols(m.transitions) + {n.bottom}
  }

  /** Where popping `u` while draining the stack leads: `accept` for the bottom marker, otherwise `empty`. */
  function Drained(n: NewNames, u: Symbol): Symbol
  {
    if u == n.bottom then n.accept else n.empty
  }

  /** `push[u]` after the new start state pushes the bottom marker. */
  ghost function PushesOf(m: Pda, n: NewNames, u: Symbol): set<Move>
  {
    Pushes(m.transitions, u) + (if u == n.bottom then {Move(n.start, [], m.start)} else {})
  }

  /** The pops that drain the stack into `dest` from each state of `qs`. */
  ghost function DrainsFrom(qs: set<Symbol>, dest: Symbol): set<Move>
  {
    set q | q in qs :: Move(q, [], dest)
  }

  /** `pop[u]` after the draining pops, from every accept state and from `empty`, are added. */
  ghost function PopsOf(m: Pda, n: NewNames, u: Symbol): set<Move>
  {
    Pops(m.transitions, u) + (if u in Gamma(m, n) then DrainsFrom(m.accepts + {n.empty}, Drained(n, u)) else {})
  }

  /** The input of a move, as terminals of the grammar. */
  function Terms(a: seq<Symbol>): seq<Sym>
  {
    seq(|a|, i requires 0 <= i < |a| => Name(a[i]))
  }

  /** A_pq -> a A_rs b, for a push (p, a, r) and a pop (s, b, q) of the same symbol. */
  function PairRule(mp: Move, mq: Move): Rule
  {
    Rule([Pair(mp.from, mq.to)], Terms(mp.input) + [Pair(mp.to, mq.from)] + Terms(mq.input))
  }

  ghost function PairRules(m: Pda, n: NewNames): set<Rule>
  {
    set u, mp, mq | u in Gamma(m, n) && mp in PushesOf(m, n, u) && mq in PopsOf(m, n, u) :: PairRule(mp, mq)
  }

  function ConcatRule(p: Symbol, q: Symbol, r: Symbol): Rule
  {
    Rule([Pair(p, q)], [Pair(p, r), Pair(r, q)])
  }

  /** A_pq -> A_pr A_rq for all p, q, r in `qs`. */
  ghost function ConcatRules(qs: set<Symbol>): set<Rule>
  {
    set p, q, r | p in qs && q in qs && r in qs :: ConcatRule(p, q, r)
  }

  /** A_pp -> epsilon for all p in `qs`. */
  ghost function EpsRules(qs: set<Symbol>): set<Rule>
  {
    set p | p in qs :: Rule([Pair(p, p)], [])
  }

  ghost function Expected(m: Pda, n: NewNames, qs: set<Symbol>): set<Rule>
  {
    PairRules(m, n) + ConcatRules(qs) + EpsRules(qs)
  }

  /** Every rule has a one-symbol lhs, and the nonterminals are the start symbol and those lhs. */
  ghost predicate Declared(start: Sym, nts: set<Sym>, rules: seq<Rule>)
  {
    && (forall i | 0 <= i < |rules| :: |rules[i].lhs| == 1)
    && nts == {start} + (set r | r in rules && |r.lhs| == 1 :: r.lhs[0])
  }

  /** A grammar built this way is context-free. */
  lemma DeclaredContextFree(start: Sym, nts: set<Sym>, rules: seq<Rule>)
    requires Declared(start, nts, rules)
    ensures ContextFree(rules, nts)
  {
    forall i | 0 <= i < |rules| ensures |rules[i].lhs| == 1 && rules[i].lhs[0] in nts {
      assert rules[i] in rules;
    }
  }

  ghost predicate Tidy(g: Grammar)
    reads g
  {
    Declared(g.start, g.nonterminals, g.rules)
  }

  // ---------------------------------------------------------------------------
  // The construction.

  /** `g.add_nonterminal(x); g.add_rule([x], rhs)`. */
  method Emit(g: Grammar, x: Sym, rhs: seq<Sym>)
    requires Tidy(g)
    modifies g`rules, g`nonterminals
    ensures Tidy(g) && g.rules == old(g.rules) + [Rule([x], rhs)]
    ensures Elems(g.rules) == old(Elems(g.rules)) + {Rule([x], rhs)}
  {
    ghost var rules0 := g.rules;
    g.AddNonterminal(x);
    g.AddRule([x], rhs);
    assert forall r :: r in g.rules <==> r in rules0 || r == Rule([x], rhs);
    ElemsAppend(rules0, Rule([x], rhs));
  }

  lemma DrainsFromStep(qs: set<Symbol>, q: Symbol, dest: Symbol)
    ensures DrainsFrom(qs + {q}, dest) == DrainsFrom(qs, dest) + {Move(q, [], dest)}
  {
  }

  /** The pops that drain the stack from the accept states. */
  method DrainAccepts(ms: seq<Move>, accepts: set<Symbol>, dest: Symbol) returns (r: seq<Move>)
    ensures Elems(r) == Elems(ms) + DrainsFrom(accepts, dest)
  {
    r := ms;
    var todo := accepts;
    ghost var done := {};
    while todo != {}
      invariant todo + done == accepts && todo !! done
      invariant Elems(r) == Elems(ms) + DrainsFrom(done, dest)
      decreases |todo|
    {
      var q :| q in todo;
      ElemsAppend(r, Move(q, [], dest));
      DrainsFromStep(done, q, dest);
      r := r + [Move(q, [], dest)];
      TakeOne(todo, done, accepts, q);
      todo, done := todo - {q}, done + {q};
    }
  }

  /** `pop` after the draining pops of the stack symbols in `done` are added. */
  ghost predicate DrainedFor(r: map<Symbol, seq<Move>>, pop: map<Symbol, seq<Move>>, done: set<Symbol>,
                             accepts: set<Symbol>, n: NewNames)
  {
    forall u {:trigger Entry(r, u)} :: Elems(Entry(r, u)) == Elems(Entry(pop, u)) + (if u in done then DrainsFrom(accepts + {n.empty}, Drained(n, u)) else {})
  }

  lemma DrainStep(r: map<Symbol, seq<Move>>, pop: map<Symbol, seq<Move>>, done: set<Symbol>,
                  accepts: set<Symbol>, n: NewNames, x: Symbol, ms: seq<Move>)
    requires DrainedFor(r, pop, done, accepts, n) && x !in done
    requires Elems(ms) == Elems(Entry(r, x)) + DrainsFrom(accepts, Drained(n, x))
    ensures DrainedFor(r[x := ms + [Move(n.empty, [], Drained(n, x))]], pop, done + {x}, accepts, n)
  {
    var r' := r[x := ms + [Move(n.empty, [], Drained(n, x))]];
    ElemsAppend(ms, Move(n.empty, [], Drained(n, x)));
    DrainsFromStep(accepts, n.empty, Drained(n, x));
    forall u ensures Elems(Entry(r', u)) == Elems(Entry(pop, u))
                       + (if u in done + {x} then DrainsFrom(accepts + {n.empty}, Drained(n, u)) else {})
    {
      if u != x {
        assert Entry(r', u) == Entry(r, u);
      }
    }
  }

  /** `pop[x]` gets the pops from the accept states and from `empty`. */
  method DrainSymbol(r: map<Symbol, seq<Move>>, x: Symbol, accepts: set<Symbol>, n: NewNames,
                     ghost pop: map<Symbol, seq<Move>>, ghost done: set<Symbol>)
    returns (r': map<Symbol, seq<Move>>)
    requires DrainedFor(r, pop, done, accepts, n) && x !in done
    ensures DrainedFor(r', pop, done + {x}, accepts, n)
  {
    var ms := DrainAccepts(Entry(r, x), accepts, Drained(n, x));
    DrainStep(r, pop, done, accepts, n, x, ms);
    r' := r[x := ms + [Move(n.empty, [], Drained(n, x))]];
  }

  /** For every stack symbol, the pops from the accept states and from `empty`. */
  method AddDrains(pop: map<Symbol, seq<Move>>, gamma: set<Symbol>, accepts: set<Symbol>, n: NewNames)
    returns (r: map<Symbol, seq<Move>>)
    ensures DrainedFor(r, pop, gamma, accepts, n)
  {
    r := pop;
    var todo := gamma;
    ghost var done := {};
    while todo != {}
      invariant todo + done == gamma && todo !! done
      invariant DrainedFor(r, pop, done, accepts, n)
      decreases |todo|
    {
      var x :| x in todo;
      r := DrainSymbol(r, x, accepts, n, pop, done);
      TakeOne(todo, done, gamma, x);
      todo, done := todo - {x}, done + {x};
    }
  }

  /** The rules for the push `mp` and each pop of `pops`. */
  ghost function RowRules(mp: Move, pops: seq<Move>): set<Rule>
  {
    set mq | mq in pops :: PairRule(mp, mq)
  }

  lemma RowStep(mp: Move, pops: seq<Move>, j: nat)
    requires j < |pops|
    ensures RowRules(mp, pops[..j + 1]) == RowRules(mp, pops[..j]) + {PairRule(mp, pops[j])}
  {
    assert pops[..j + 1] == pops[..j] + [pops[j]];
  }

  /** The rules for one push and every pop of the same symbol. */
  method AddRow(g: Grammar, mp: Move, pops: seq<Move>)
    requires Tidy(g)
    modifies g`rules, g`nonterminals
    ensures Tidy(g) && Elems(g.rules) == old(Elems(g.rules)) + RowRules(mp, pops)
  {
    ghost var rules0 := Elems(g.rules);
    for j := 0 to |pops|
      invariant Tidy(g)
      invariant Elems(g.rules) == rules0 + RowRules(mp, pops[..j])
    {
      var mq := pops[j];
      RowStep(mp, pops, j);
      ghost var before := Elems(g.rules);
      Emit(g, Pair(mp.from, mq.to), Terms(mp.input) + [Pair(mp.to, mq.from)] + Terms(mq.input));
      Grow(Elems(g.rules), before, rules0, RowRules(mp, pops[..j]), RowRules(mp, pops[..j + 1]), {PairRule(mp, mq)});
    }
    assert pops[..|pops|] == pops;
  }

  /** The rules for each push of `pushes` and each pop of `pops`. */
  ghost function BlockRules(pushes: seq<Move>, pops: seq<Move>): set<Rule>
  {
    set mp, mq | mp in pushes && mq in pops :: PairRule(mp, mq)
  }

  lemma BlockStep(pushes: seq<Move>, pops: seq<Move>, i: nat)
    requires i < |pushes|
    ensures BlockRules(pushes[..i + 1], pops) == BlockRules(pushes[..i], pops) + RowRules(pushes[i], pops)
  {
    assert pushes[..i + 1] == pushes[..i] + [pushes[i]];
  }

  /** The rules for every push and every pop of the same symbol. */
  method AddBlock(g: Grammar, pushes: seq<Move>, pops: seq<Move>)
    requires Tidy(g)
    modifies g`rules, g`nonterminals
    ensures Tidy(g) && Elems(g.rules) == old(Elems(g.rules)) + BlockRules(pushes, pops)
  {
    ghost var rules0 := Elems(g.rules);
    for i := 0 to |pushes|
      invariant Tidy(g)
      invariant Elems(g.rules) == rules0 + BlockRules(pushes[..i], pops)
    {
      BlockStep(pushes, pops, i);
      ghost var before := Elems(g.rules);
      AddRow(g, pushes[i], pops);
      Grow(Elems(g.rules), before, rules0, BlockRules(pushes[..i], pops), BlockRules(pushes[..i + 1], pops), RowRules(pushes[i], pops));
    }
    assert pushes[..|pushes|] == pushes;
  }

  /** The rules for the stack symbols in `us`. */
  ghost function PairRulesOver(us: set<Symbol>, push: map<Symbol, seq<Move>>, pop: map<Symbol, seq<Move>>): set<Rule>
  {
    set u, mp, mq | u in us && mp in Entry(push, u) && mq in Entry(pop, u) :: PairRule(mp, mq)
  }

  lemma PairRulesStep(us: set<Symbol>, u: Symbol, push: map<Symbol, seq<Move>>, pop: map<Symbol, seq<Move>>)
    ensures PairRulesOver(us + {u}, push, pop) == PairRulesOver(us, push, pop) + BlockRules(Entry(push, u), Entry(pop, u))
  {
  }

  /** A_pq -> a A_rs b for every stack symbol u, push (p, a, r) of u and pop (s, b, q) of u. */
  method AddPairRules(g: Grammar, gamma: set<Symbol>, push: map<Symbol, seq<Move>>, pop: map<Symbol, seq<Move>>)
    requires Tidy(g)
    modifies g`rules, g`nonterminals
    ensures Tidy(g) && Elems(g.rules) == old(Elems(g.rules)) + PairRulesOver(gamma, push, pop)
  {
    var todo := gamma;
    ghost var done := {};
    ghost var rules0 := Elems(g.rules);
    while todo != {}
      invariant todo + done == gamma && todo !! done
      invariant Tidy(g)
      invariant Elems(g.rules) == rules0 + PairRulesOver(done, push, pop)
      decreases |todo|
    {
      var u :| u in todo;
      PairRulesStep(done, u, push, pop);
      ghost var before := Elems(g.rules);
      AddBlock(g, Entry(push, u), Entry(pop, u));
      Grow(Elems(g.rules), before, rules0, PairRulesOver(done, push, pop), PairRulesOver(done + {u}, push, pop),
           BlockRules(Entry(push, u), Entry(pop, u)));
      TakeOne(todo, done, gamma, u);
      todo, done := todo - {u}, done + {u};
    }
  }

  /** A_pq -> A_pr A_rq for p, q in `ps`, `qs` and r in `rs`. */
  ghost function ConcatOver(ps: set<Symbol>, qs: set<Symbol>, rs: set<Symbol>): set<Rule>
  {
    set p, q, r | p in ps && q in qs && r in rs :: ConcatRule(p, q, r)
  }

  lemma ConcatStepR(p: Symbol, q: Symbol, rs: set<Symbol>, r: Symbol)
    ensures ConcatOver({p}, {q}, rs + {r}) == ConcatOver({p}, {q}, rs) + {ConcatRule(p, q, r)}
  {
  }

  lemma ConcatStepQ(p: Symbol, qs: set<Symbol>, q: Symbol, rs: set<Symbol>)
    ensures ConcatOver({p}, qs + {q}, rs) == ConcatOver({p}, qs, rs) + ConcatOver({p}, {q}, rs)
  {
  }

  lemma ConcatStepP(ps: set<Symbol>, p: Symbol, qs: set<Symbol>, rs: set<Symbol>)
    ensures ConcatOver(ps + {p}, qs, rs) == ConcatOver(ps, qs, rs) + ConcatOver({p}, qs, rs)
  {
  }

  /** A_pq -> A_pr A_rq for every r. */
  method AddConcatTo(g: Grammar, p: Symbol, q: Symbol, qs: set<Symbol>)
    requires Tidy(g)
    modifies g`rules, g`nonterminals
    ensures Tidy(g) && Elems(g.rules) == old(Elems(g.rules)) + ConcatOver({p}, {q}, qs)
  {
    var todo := qs;
    ghost var done := {};
    ghost var rules0 := Elems(g.rules);
    while todo != {}
      invariant todo + done == qs && todo !! done
      invariant Tidy(g)
      invariant Elems(g.rules) == rules0 + ConcatOver({p}, {q}, done)
      decreases |todo|
    {
      var r :| r in todo;
      ConcatStepR(p, q, done, r);
      ghost var before := Elems(g.rules);
      Emit(g, Pair(p, q), [Pair(p, r), Pair(r, q)]);
      Grow(Elems(g.rules), before, rules0, ConcatOver({p}, {q}, done), ConcatOver({p}, {q}, done + {r}), {ConcatRule(p, q, r)});
      TakeOne(todo, done, qs, r);
      todo, done := todo - {r}, done + {r};
    }
  }

  /** A_pq -> A_pr A_rq for every q and r. */
  method AddConcatFrom(g: Grammar, p: Symbol, qs: set<Symbol>)
    requires Tidy(g)
    modifies g`rules, g`nonterminals
    ensures Tidy(g) && Elems(g.rules) == old(Elems(g.rules)) + ConcatOver({p}, qs, qs)
  {
    var todo := qs;
    ghost var done := {};
    ghost var rules0 := Elems(g.rules);
    while todo != {}
      invariant todo + done == qs && todo !! done
      invariant Tidy(g)
      invariant Elems(g.rules) == rules0 + ConcatOver({p}, done, qs)
      decreases |todo|
    {
      var q :| q in todo;
      ConcatStepQ(p, done, q, qs);
      ghost var before := Elems(g.rules);
      AddConcatTo(g, p, q, qs);
      Grow(Elems(g.rules), before, rules0, ConcatOver({p}, done, qs), ConcatOver({p}, done + {q}, qs), ConcatOver({p}, {q}, qs));
      TakeOne(todo, done, qs, q);
      todo, done := todo - {q}, done + {q};
    }
  }

  /** A_pq -> A_pr A_rq for every p, q and r of `qs`. */
  method AddConcatRules(g: Grammar, qs: set<Symbol>)
    requires Tidy(g)
    modifies g`rules, g`nonterminals
    ensures Tidy(g) && Elems(g.rules) == old(Elems(g.rules)) + ConcatRules(qs)
  {
    var todo := qs;
    ghost var done := {};
    ghost var rules0 := Elems(g.rules);
    while todo != {}
      invariant todo + done == qs && todo !! done
      invariant Tidy(g)
      invariant Elems(g.rules) == rules0 + ConcatOver(done, qs, qs)
      decreases |todo|
    {
      var p :| p in todo;
      ConcatStepP(done, p, qs, qs);
      ghost var before := Elems(g.rules);
      AddConcatFrom(g, p, qs);
      Grow(Elems(g.rules), before, rules0, ConcatOver(done, qs, qs), ConcatOver(done + {p}, qs, qs), ConcatOver({p}, qs, qs));
      TakeOne(todo, done, qs, p);
      todo, done := todo - {p}, done + {p};
    }
    assert ConcatOver(qs, qs, qs) == ConcatRules(qs);
  }

  lemma EpsStep(ps: set<Symbol>, p: Symbol)
    ensures EpsRules(ps + {p}) == EpsRules(ps) + {Rule([Pair(p, p)], [])}
  {
  }

  /** A_pp -> epsilon for every p of `qs`. */
  method AddEpsRules(g: Grammar, qs: set<Symbol>)
    requires Tidy(g)
    modifies g`rules, g`nonterminals
    ensures Tidy(g) && Elems(g.rules) == old(Elems(g.rules)) + EpsRules(qs)
  {
    var todo := qs;
    ghost var done := {};
    ghost var rules0 := Elems(g.rules);
    while todo != {}
      invariant todo + done == qs && todo !! done
      invariant Tidy(g)
      invariant Elems(g.rules) == rules0 + EpsRules(done)
      decreases |todo|
    {
      var p :| p in todo;
      EpsStep(done, p);
      ghost var before := Elems(g.rules);
      Emit(g, Pair(p, p), []);
      Grow(Elems(g.rules), before, rules0, EpsRules(done), EpsRules(done + {p}), {Rule([Pair(p, p)], [])});
      TakeOne(todo, done, qs, p);
      todo, done := todo - {p}, done + {p};
    }
  }

  // ---------------------------------------------------------------------------
  // `to_grammar` itself.

  /** The states that the concatenation and epsilon rules range over once the new states are included. */
  ghost function Widened(m: Pda, n: NewNames): set<Symbol>
  {
    PdaStates(m) + {n.start, n.accept, n.empty}
  }

  /** `g` is the grammar of `m` with the new names `n` whose concatenation and epsilon rules range over `qs`. */
  ghost predicate Built(g: Grammar, m: Pda, n: NewNames, qs: set<Symbol>)
    reads g
  {
    && g.start == Pair(n.start, n.accept)
    && Declared(g.start, g.nonterminals, g.rules)
    && Elems(g.rules) == Expected(m, n, qs)
  }

  lemma PushLink(m: Pda, n: NewNames, sp: Split, push: map<Symbol, seq<Move>>)
    requires forall u :: Elems(Entry(sp.push, u)) == Pushes(m.transitions, u)
    requires push == sp.push[n.bottom := Entry(sp.push, n.bottom) + [Move(n.start, [], m.start)]]
    ensures forall u :: Elems(Entry(push, u)) == PushesOf(m, n, u)
  {
    forall u ensures Elems(Entry(push, u)) == PushesOf(m, n, u) {
      if u == n.bottom {
        ElemsAppend(Entry(sp.push, n.bottom), Move(n.start, [], m.start));
      } else {
        assert Entry(push, u) == Entry(sp.push, u);
      }
    }
  }

  lemma PopLink(m: Pda, n: NewNames, sp: Split, pop: map<Symbol, seq<Move>>)
    requires forall u :: Elems(Entry(sp.pop, u)) == Pops(m.transitions, u)
    requires sp.gamma == StackSymbols(m.transitions)
    requires DrainedFor(pop, sp.pop, sp.gamma + {n.bottom}, m.accepts, n)
    ensures forall u :: Elems(Entry(pop, u)) == PopsOf(m, n, u)
  {
    forall u ensures Elems(Entry(pop, u)) == PopsOf(m, n, u) {
      assert Elems(Entry(pop, u)) == Elems(Entry(sp.pop, u))
        + (if u in sp.gamma + {n.bottom} then DrainsFrom(m.accepts + {n.empty}, Drained(n, u)) else {});
    }
  }

  lemma PairLink(m: Pda, n: NewNames, push: map<Symbol, seq<Move>>, pop: map<Symbol, seq<Move>>)
    requires forall u :: Elems(Entry(push, u)) == PushesOf(m, n, u)
    requires forall u :: Elems(Entry(pop, u)) == PopsOf(m, n, u)
    ensures PairRulesOver(Gamma(m, n), push, pop) == PairRules(m, n)
  {
    forall rule | rule in PairRules(m, n) ensures rule in PairRulesOver(Gamma(m, n), push, pop) {
      var u, mp, mq :| u in Gamma(m, n) && mp in PushesOf(m, n, u) && mq in PopsOf(m, n, u) && rule == PairRule(mp, mq);
      assert mp in Elems(Entry(push, u)) && mq in Elems(Entry(pop, u));
    }
    forall rule | rule in PairRulesOver(Gamma(m, n), push, pop) ensures rule in PairRules(m, n) {
      var u, mp, mq :| u in Gamma(m, n) && mp in Entry(push, u) && mq in Entry(pop, u) && rule == PairRule(mp, mq);
      assert mp in Elems(Entry(push, u)) && mq in Elems(Entry(pop, u));
    }
  }

  /** The grammar `Grammar((start, accept))` with the pair, concatenation and epsilon rules, in that order. */
  method Assemble(start: Sym, gamma: set<Symbol>, push: map<Symbol, seq<Move>>, pop: map<Symbol, seq<Move>>,
                  qs: set<Symbol>, ghost m: Pda, ghost n: NewNames)
    returns (g: Grammar)
    requires start == Pair(n.start, n.accept) && gamma == Gamma(m, n)
    requires PairRulesOver(gamma, push, pop) == PairRules(m, n)
    ensures fresh(g) && Built(g, m, n, qs)
  {
    g := new Grammar(start);
    assert Elems(g.rules) == {};
    AddPairRules(g, gamma, push, pop);
    AddConcatRules(g, qs);
    AddEpsRules(g, qs);
  }

  /**
   * The body of `to_grammar`, with the states the concatenation and epsilon rules range
   * over chosen by `widen`: the automaton's own states as written, or those and the new
   * states `start`, `accept` and `empty`.
   */
  method Construct(m: Pda, widen: bool) returns (r: Result<Grammar, GrammarError>)
    ensures r.Failure? <==> exists i | 0 <= i < |m.transitions| :: Defect(m.transitions[i]).Some?
    ensures r.Failure? ==> exists i | 0 <= i < |m.transitions| ::
              Defect(m.transitions[i]) == Some(r.error) && forall j | 0 <= j < i :: Defect(m.transitions[j]) == None
    ensures r.Success? ==> fresh(r.value)
    ensures r.Success? ==> exists n :: Chosen(n, m) && Built(r.value, m, n, if widen then Widened(m, n) else PdaStates(m))
  {
    var c := Classify(m.transitions);
    if c.Failure? {
      return Failure(c.error);
    }
    var sp := c.value;
    var states := PdaStates(m);
    var start := Fresh("start", states);
    var bottom := Fresh("$", sp.gamma);
    var gamma := sp.gamma + {bottom};
    var push := sp.push[bottom := Entry(sp.push, bottom) + [Move(start, [], m.start)]];
    var accept := Fresh("accept", states);
    var empty := Fresh("empty", states);
    ghost var n := NewNames(start, bottom, accept, empty);
    assert Chosen(n, m);
    var pop := AddDrains(sp.pop, gamma, m.accepts, NewNames(start, bottom, accept, empty));
    PushLink(m, n, sp, push);
    PopLink(m, n, sp, pop);
    PairLink(m, n, push, pop);
    var qs := if widen then states + {start, accept, empty} else states;
    var g := Assemble(Pair(start, accept), gamma, push, pop, qs, m, n);
    r := Success(g);
  }

  /** `to_grammar` as written: the concatenation and epsilon rules range over `m.states` only. */
  method ToGrammarAsWritten(m: Pda) returns (r: Result<Grammar, GrammarError>)
    ensures r.Failure? <==> exists i | 0 <= i < |m.transitions| :: Defect(m.transitions[i]).Some?
    ensures r.Failure? ==> exists i | 0 <= i < |m.transitions| ::
              Defect(m.transitions[i]) == Some(r.error) && forall j | 0 <= j < i :: Defect(m.transitions[j]) == None
    ensures r.Success? ==> fresh(r.value) && exists n :: Chosen(n, m) && Built(r.value, m, n, PdaStates(m))
    ensures r.Success? ==> ContextFree(r.value.rules, r.value.nonterminals)
  {
    r := Construct(m, false);
    if r.Success? {
      DeclaredContextFree(r.value.start, r.value.nonterminals, r.value.rules);
    }
  }

  /** `to_grammar` with the concatenation and epsilon rules over every state of the extended automaton. */
  method ToGrammar(m: Pda) returns (r: Result<Grammar, GrammarError>)
    ensures r.Failure? <==> exists i | 0 <= i < |m.transitions| :: Defect(m.transitions[i]).Some?
    ensures r.Failure? ==> exists i | 0 <= i < |m.transitions| ::
              Defect(m.transitions[i]) == Some(r.error) && forall j | 0 <= j < i :: Defect(m.transitions[j]) == None
    ensures r.Success? ==> fresh(r.value) && exists n :: Chosen(n, m) && Built(r.value, m, n, Widened(m, n))
    ensures r.Success? ==> ContextFree(r.value.rules, r.value.nonterminals)
  {
    r := Construct(m, true);
    if r.Success? {
      DeclaredContextFree(r.value.start, r.value.nonterminals, r.value.rules);
    }
  }

  // ---------------------------------------------------------------------------
  // Properties of the result.

  /** The new states are not states of `m` and are pairwise distinct, and the bottom marker is a new stack symbol. */
  lemma NamesApart(m: Pda, n: NewNames)
    requires Chosen(n, m)
    ensures n.start !in PdaStates(m) && n.accept !in PdaStates(m) && n.empty !in PdaStates(m)
    ensures n.start != n.accept && n.start != n.empty && n.accept != n.empty
    ensures n.bottom !in StackSymbols(m.transitions)
  {
    FreshPrefix(n.start, "start", PdaStates(m));
    FreshPrefix(n.accept, "accept", PdaStates(m));
    FreshPrefix(n.empty, "empty", PdaStates(m));
    assert n.start[0] == 's' && n.accept[0] == 'a' && n.empty[0] == 'e';
  }

  /** A pair rule has exactly one nonterminal on its right side, so it is never a concatenation rule. */
  lemma PairNotConcat(mp: Move, mq: Move, p: Symbol, q: Symbol, r: Symbol)
    ensures PairRule(mp, mq) != ConcatRule(p, q, r)
  {
    var rhs := PairRule(mp, mq).rhs;
    if |rhs| == 2 {
      if |mp.input| == 0 {
        assert rhs[1] == Name(mq.input[0]);
      } else {
        assert rhs[0] == Name(mp.input[0]);
      }
    }
  }

  /** The grammar has A_pq -> A_pr A_rq exactly when p, q and r are among the states the rules range over. */
  lemma ConcatMembership(m: Pda, n: NewNames, qs: set<Symbol>, p: Symbol, q: Symbol, r: Symbol)
    ensures ConcatRule(p, q, r) in Expected(m, n, qs) <==> p in qs && q in qs && r in qs
  {
    if ConcatRule(p, q, r) in PairRules(m, n) {
      var u, mp, mq :| u in Gamma(m, n) && mp in PushesOf(m, n, u) && mq in PopsOf(m, n, u)
                       && ConcatRule(p, q, r) == PairRule(mp, mq);
      PairNotConcat(mp, mq, p, q, r);
    }
    if ConcatRule(p, q, r) in ConcatRules(qs) {
      var p', q', r' :| p' in qs && q' in qs && r' in qs && ConcatRule(p, q, r) == ConcatRule(p', q', r');
    }
  }

  /** The grammar has A_pp -> epsilon exactly when p is among the states the rules range over. */
  lemma EpsMembership(m: Pda, n: NewNames, qs: set<Symbol>, p: Symbol)
    ensures Rule([Pair(p, p)], []) in Expected(m, n, qs) <==> p in qs
  {
  }

  /** Including the new states only adds rules. */
  lemma WidenedAddsRules(m: Pda, n: NewNames)
    ensures Expected(m, n, PdaStates(m)) <= Expected(m, n, Widened(m, n))
  {
    forall rule | rule in Expected(m, n, PdaStates(m)) ensures rule in Expected(m, n, Widened(m, n)) {
      if rule in ConcatRules(PdaStates(m)) {
        var p, q, r :| p in PdaStates(m) && q in PdaStates(m) && r in PdaStates(m) && rule == ConcatRule(p, q, r);
        ConcatMembership(m, n, Widened(m, n), p, q, r);
      }
    }
  }

  /**
   * q0 reads a and pushes u; q1 reads b and pops u; q1 reads c and pushes v; q2 accepts.
   * It accepts abc with v and the bottom marker left on the stack, which the new states
   * then pop: q2 pops v into `empty`, and `empty` pops the marker into `accept`.
   */
  function ExampleMachine(): Pda
  {
    Pda("q0", {"q2"}, [PdaTransition(Pattern("q0", ["a"], []), "q1", ["u"]),
                       PdaTransition(Pattern("q1", ["b"], ["u"]), "q1", []),
                       PdaTransition(Pattern("q1", ["c"], []), "q2", ["v"])])
  }

  /**
   * A derivation of abc must split A_(q0,empty) at q1, where u has been pushed and
   * popped: A_(q0,empty) -> A_(q0,q1) A_(q1,empty). `to_grammar` as written lacks that
   * rule, because `empty` is not one of `m.states`; with the new states included it is there.
   */
  lemma ExampleMissingRule(n: NewNames)
    requires Chosen(n, ExampleMachine())
    ensures ConcatRule("q0", n.empty, "q1") !in Expected(ExampleMachine(), n, PdaStates(ExampleMachine()))
    ensures ConcatRule("q0", n.empty, "q1") in Expected(ExampleMachine(), n, Widened(ExampleMachine(), n))
  {
    var m := ExampleMachine();
    NamesApart(m, n);
    assert "q0" in PdaStates(m) && "q1" in PdaStates(m) by {
      assert m.transitions[0].lhs.state == "q0" && m.transitions[0].target == "q1";
    }
    ConcatMembership(m, n, PdaStates(m), "q0", n.empty, "q1");
    ConcatMembership(m, n, Widened(m, n), "q0", n.empty, "q1");
  }
}
