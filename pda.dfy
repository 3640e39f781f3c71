/**
 * The simulation engine of `run_pda`: Lang's cubic chart-parsing algorithm for
 * nondeterministic pushdown automata. The stack is cut down to a visible window of
 * `window` symbols; an item (parent, child) stands for a configuration whose hidden
 * stack content is recovered from the parent, one level at a time.
 */
module Pda {
  import opened Wrappers
  import opened Machines

  /** The symbol a displayed configuration shows in place of the hidden stack content. */
  const Marker: Symbol := "..."

  /** What the engine reads of a pushdown automaton. `hasStack` is its answer to `has_stack(2)`. */
  datatype Automaton = Automaton(
    hasStack: bool,
    transitions: seq<PdaTransition>,
    startConfig: Config,
    acceptConfigs: seq<Pattern>)

  datatype PdaError =
    | NotAStack       // store 2 is not a stack (ValueError)
    | EmptyMax        // no transitions or no accept configurations: `max` of an empty sequence
    | FuelExhausted   // the worklist was not empty after `fuel` steps

  /** An item: `parent` is None for the axiom level, otherwise the child has one more elided symbol. */
  datatype Item = Item(parent: Option<Config>, child: Config)

  /** The run graph: start node, nodes (window-exact configurations), edges and accept nodes. */
  datatype Run = Run(start: Config, configs: set<Config>, edges: set<(Config, Config)>, accepts: set<Config>)

  /** The largest element of a non-empty sequence. */
  function Max(s: seq<nat>): (r: nat)
    requires |s| > 0
    ensures forall i | 0 <= i < |s| :: s[i] <= r
    ensures exists i | 0 <= i < |s| :: s[i] == r
  {
    if |s| == 1 then s[0]
    else
      var m := Max(s[1..]);
      assert forall i | 1 <= i < |s| :: s[i] == s[1..][i - 1];
      if s[0] >= m then s[0] else m
  }

  /**
   * How much of the stack is not elided: the caller's minimum, every transition's
   * stack pattern and every accept configuration's stack must fit in the window.
   */
  function Window(m: Automaton, minimum: nat): (r: Result<nat, PdaError>)
    ensures r.Failure? <==> |m.transitions| == 0 || |m.acceptConfigs| == 0
    ensures r.Failure? ==> r.error == EmptyMax
    ensures r.Success? ==>
      && minimum <= r.value
      && (forall i | 0 <= i < |m.transitions| :: |m.transitions[i].lhs.stack| <= r.value)
      && (forall j | 0 <= j < |m.acceptConfigs| :: |m.acceptConfigs[j].stack| <= r.value)
    ensures r.Success? ==>
      || r.value == minimum
      || (exists i | 0 <= i < |m.transitions| :: |m.transitions[i].lhs.stack| == r.value)
      || (exists j | 0 <= j < |m.acceptConfigs| :: |m.acceptConfigs[j].stack| == r.value)
  {
    if |m.transitions| == 0 || |m.acceptConfigs| == 0 then Failure(EmptyMax)
    else
      var ts := seq(|m.transitions|, i requires 0 <= i < |m.transitions| => |m.transitions[i].lhs.stack|);
      var cs := seq(|m.acceptConfigs|, j requires 0 <= j < |m.acceptConfigs| => |m.acceptConfigs[j].stack|);
      var a, b := Max(ts), Max(cs);
      assert forall i | 0 <= i < |m.transitions| :: ts[i] == |m.transitions[i].lhs.stack|;
      assert forall j | 0 <= j < |m.acceptConfigs| :: cs[j] == |m.acceptConfigs[j].stack|;
      Success(if minimum >= a && minimum >= b then minimum else if a >= b then a else b)
  }

  /** The axiom's configuration: the start configuration with the tokens as input, at position 0. */
  function Initial(m: Automaton, tokens: seq<Symbol>): Config
  {
    m.startConfig.(input := Store(tokens, 0))
  }

  /** The deepest visible stack symbol. */
  function Last(c: Config): Symbol
    requires Depth(c) > 0
  {
    c.stack.values[Depth(c) - 1]
  }

  /** `c` with its deepest visible stack symbol elided (the Push rule's grandchild). */
  function Shrink(c: Config): (r: Config)
    requires Depth(c) > 0
    ensures Depth(r) == Depth(c) - 1
  {
    c.(stack := c.stack.(values := c.stack.values[..Depth(c) - 1]))
  }

  /** `c` with `x` revealed below its visible stack (the Pop rule's aunt). */
  function Extend(c: Config, x: Symbol): (r: Config)
    ensures Depth(r) == Depth(c) + 1 && Last(r) == x
  {
    c.(stack := c.stack.(values := c.stack.values + [x]))
  }

  /** Popping a symbol back restores exactly what pushing it away elided, and conversely. */
  lemma ShrinkExtend(c: Config, x: Symbol)
    ensures Shrink(Extend(c, x)) == c
    ensures Depth(c) > 0 ==> Extend(Shrink(c), Last(c)) == c
  {
    assert Extend(c, x).stack.values[..Depth(c)] == c.stack.values;
    if Depth(c) > 0 {
      assert Shrink(c).stack.values + [Last(c)] == c.stack.values;
    }
  }

  /**
   * `simplify`: the node of the run graph that an item stands for. The axiom level is
   * shown as it is; one level down, the marker stands for the hidden rest of the stack.
   */
  function Simplify(parent: Option<Config>, child: Config): (r: Config)
    ensures parent.None? ==> r == child
    ensures parent.Some? ==>
      && r.state == child.state && r.input == child.input
      && r.stack.position == child.stack.position
      && r.stack.values == child.stack.values + [Marker]
  {
    if parent.None? then child
    else child.(stack := Store(child.stack.values + [Marker], child.stack.position))
  }

  function Display(it: Item): Config
  {
    Simplify(it.parent, it.child)
  }

  /** Below the axiom level the displayed form forgets only the parent: the child can be read back. */
  lemma SimplifyInjective(p1: Config, c1: Config, p2: Config, c2: Config)
    requires Simplify(Some(p1), c1) == Simplify(Some(p2), c2)
    ensures c1 == c2
  {
    var v1, v2 := c1.stack.values, c2.stack.values;
    assert Simplify(Some(p1), c1).stack.values[..|v1|] == v1;
    assert Simplify(Some(p2), c2).stack.values[..|v2|] == v2;
  }

  /** The child shows more than the window: the Push rule applies. */
  predicate IsPush(it: Item, w: nat)
  {
    Depth(it.child) > w
  }

  /** The child shows fewer than the window and has a parent: the Pop rule applies. */
  predicate IsPop(it: Item, w: nat)
  {
    it.parent.Some? && Depth(it.child) < w
  }

  /** Neither: the window is just right (or the axiom level is short), and transitions apply. */
  predicate IsStep(it: Item, w: nat)
  {
    !IsPush(it, w) && !IsPop(it, w)
  }

  /** The child matches one of the accept configurations. */
  predicate Accepting(m: Automaton, c: Config)
  {
    exists j | 0 <= j < |m.acceptConfigs| :: Matches(m.acceptConfigs[j], c)
  }

  /** Every parent shows more than the window, so the Pop rule always finds a symbol to reveal. */
  predicate WfItem(it: Item, w: nat)
  {
    it.parent.Some? ==> Depth(it.parent.value) > w
  }

  /** What the Pop rule derives from a Push item `a` and a Pop item `b` whose parent is `a`'s child. */
  function Combine(a: Item, b: Item): Item
    requires Depth(a.child) > 0
  {
    Item(a.parent, Extend(b.child, Last(a.child)))
  }

  // ---------------------------------------------------------------------------
  // The deduction system: closure of a set of items under Push, Pop and Step.

  ghost predicate PushClosed(s: set<Item>, c: set<Item>, w: nat)
  {
    forall a {:trigger IsPush(a, w)} | a in s && IsPush(a, w) :: Item(Some(a.child), Shrink(a.child)) in c
  }

  ghost predicate PopClosed(s: set<Item>, c: set<Item>, w: nat)
  {
    forall a, b {:trigger IsPush(a, w), IsPop(b, w)} | a in s && b in s && IsPush(a, w) && IsPop(b, w) && b.parent == Some(a.child) ::
      Combine(a, b) in c
  }

  ghost predicate StepClosed(s: set<Item>, c: set<Item>, ts: seq<PdaTransition>, w: nat)
  {
    forall a, i {:trigger Matches(ts[i].lhs, a.child)} | a in s && 0 <= i < |ts| && IsStep(a, w) && Matches(ts[i].lhs, a.child) ::
      Item(a.parent, Apply(ts[i], a.child)) in c
  }

  /** `s` is closed under the three inference rules. */
  ghost predicate Saturated(s: set<Item>, ts: seq<PdaTransition>, w: nat)
  {
    PushClosed(s, s, w) && PopClosed(s, s, w) && StepClosed(s, s, ts, w)
  }

  /** Every item of `c` lies in every closed set that holds the axiom: nothing underivable is added. */
  ghost predicate Derivable(c: set<Item>, ts: seq<PdaTransition>, w: nat, axiom: Item)
  {
    forall t: set<Item> {:trigger Saturated(t, ts, w)} | Saturated(t, ts, w) && axiom in t :: c <= t
  }

  // ---------------------------------------------------------------------------
  // Invariants of the engine's fields.

  /** `index_left[c]` holds exactly the children of processed Pop items whose parent is `c`. */
  ghost predicate LeftIndexed(il: map<Config, set<Config>>, s: set<Item>, w: nat)
  {
    forall c, g :: g in Lookup(il, c) <==> Item(Some(c), g) in s && IsPop(Item(Some(c), g), w)
  }

  /** `index_right[c]` holds exactly the parents of processed Push items whose child is `c`. */
  ghost predicate RightIndexed(ir: map<Config, set<Option<Config>>>, s: set<Item>, w: nat)
  {
    forall c, p :: p in Lookup(ir, c) <==> Item(p, c) in s && IsPush(Item(p, c), w)
  }

  /** Every backpointer antecedent is a node of the run graph. */
  ghost predicate AntecedentsShown(bp: map<Config, set<Config>>, nodes: set<Config>)
  {
    forall k, a | a in Lookup(bp, k) :: a in nodes
  }

  /** Every transition applied to a processed item left a backpointer to that item's node. */
  ghost predicate StepRecorded(s: set<Item>, bp: map<Config, set<Config>>, ts: seq<PdaTransition>, w: nat)
  {
    forall a, i {:trigger Matches(ts[i].lhs, a.child)} | a in s && 0 <= i < |ts| && IsStep(a, w) && Matches(ts[i].lhs, a.child) ::
      Display(a) in Lookup(bp, Display(Item(a.parent, Apply(ts[i], a.child))))
  }

  /**
   * `r` links every Step item's node to the node of each sister it yields, and passes the
   * links into a Push or Pop item's node on to the node of every item the rule derives from it.
   */
  ghost predicate LinksClosed(r: iset<(Config, Config)>, s: set<Item>, ts: seq<PdaTransition>, w: nat)
  {
    && (forall a, i {:trigger Matches(ts[i].lhs, a.child)} | a in s && 0 <= i < |ts| && IsStep(a, w) && Matches(ts[i].lhs, a.child) ::
          (Display(a), Display(Item(a.parent, Apply(ts[i], a.child)))) in r)
    && (forall a, n | a in s && IsPush(a, w) && (n, Display(a)) in r ::
          (n, Display(Item(Some(a.child), Shrink(a.child)))) in r)
    && (forall a, b, n | a in s && b in s && IsPush(a, w) && IsPop(b, w) && b.parent == Some(a.child) && (n, Display(a)) in r ::
          (n, Display(Combine(a, b))) in r)
    && (forall a, b, n | a in s && b in s && IsPush(a, w) && IsPop(b, w) && b.parent == Some(a.child) && (n, Display(b)) in r ::
          (n, Display(Combine(a, b))) in r)
  }

  /** Every backpointer lies in every relation that is closed over the processed items: the least one is an upper bound. */
  ghost predicate Linked(bp: map<Config, set<Config>>, s: set<Item>, ts: seq<PdaTransition>, w: nat)
  {
    forall r {:trigger LinksClosed(r, s, ts, w)} | LinksClosed(r, s, ts, w) ::
      forall k, n | n in Lookup(bp, k) :: (n, k) in r
  }

  /** Every charted item's parent is recorded in `index_right`: some processed Push item has it as its child. */
  ghost predicate ParentsRecorded(chart: set<Item>, ir: map<Config, set<Option<Config>>>)
  {
    forall it | it in chart && it.parent.Some? :: Lookup(ir, it.parent.value) != {}
  }

  /** The run's nodes are exactly the displayed forms of the processed Step items. */
  ghost predicate NodesOf(nodes: set<Config>, s: set<Item>, w: nat)
  {
    && (forall a | a in s && IsStep(a, w) :: Display(a) in nodes)
    && (forall n | n in nodes :: exists a :: a in s && IsStep(a, w) && Display(a) == n)
  }

  /** The accept nodes are exactly the displayed forms of the processed items whose child accepts. */
  ghost predicate AcceptsOf(accepts: set<Config>, s: set<Item>, m: Automaton)
  {
    && (forall a | a in s && Accepting(m, a.child) :: Display(a) in accepts)
    && (forall n | n in accepts :: exists a :: a in s && Accepting(m, a.child) && Display(a) == n)
  }

  /** Bookkeeping shared by the worklist: what is charted is processed or pending, and well formed. */
  ghost predicate Pending(agenda: seq<Item>, chart: set<Item>, s: set<Item>, axiom: Item, w: nat)
  {
    && (forall k | 0 <= k < |agenda| :: agenda[k] in chart || agenda[k] == axiom)
    && (forall it | it in chart :: it in s || it in agenda)
    && s <= chart + {axiom}
    && (axiom in s || axiom in agenda)
    && (forall it | it in chart :: WfItem(it, w))
    && WfItem(axiom, w)
  }

  /** The nodes the items of `s` are shown as. */
  function Displays(s: set<Item>): set<Config>
  {
    set it | it in s :: Display(it)
  }

  /** `a1` is `a0` followed by the items of `added`, each exactly once, in some order. */
  ghost predicate Appended(a0: seq<Item>, a1: seq<Item>, added: set<Item>)
  {
    |a0| <= |a1| && a1[..|a0|] == a0 && multiset(a1[|a0|..]) == multiset(added)
  }

  /** The backpointers of every node in `keys` gained `ants`; nothing else changed. */
  ghost predicate Copied(bp0: map<Config, set<Config>>, bp1: map<Config, set<Config>>, keys: set<Config>, ants: set<Config>)
  {
    forall k {:trigger Lookup(bp1, k)} :: Lookup(bp1, k) == Lookup(bp0, k) + (if k in keys then ants else {})
  }

  /** `bp` with `ants` added to the backpointers of every node in `keys`. */
  function CopyTo(bp: map<Config, set<Config>>, keys: set<Config>, ants: set<Config>): map<Config, set<Config>>
  {
    map k | k in bp.Keys + keys :: Lookup(bp, k) + (if k in keys then ants else {})
  }

  lemma CopyToCopied(bp: map<Config, set<Config>>, keys: set<Config>, ants: set<Config>)
    ensures Copied(bp, CopyTo(bp, keys, ants), keys, ants)
  {
  }

  /** Copying to one more node. */
  lemma CopyToOne(bp: map<Config, set<Config>>, keys: set<Config>, ants: set<Config>, d: Config)
    ensures CopyTo(bp, keys, ants)[d := Lookup(CopyTo(bp, keys, ants), d) + ants] == CopyTo(bp, keys + {d}, ants)
  {
    var c := CopyTo(bp, keys, ants);
    var l, r := c[d := Lookup(c, d) + ants], CopyTo(bp, keys + {d}, ants);
    assert l.Keys == r.Keys;
    forall k | k in r.Keys ensures l[k] == r[k] {
      if k != d {
        assert l[k] == c[k];
      }
    }
  }

  /** Copying to two sets of nodes in turn. */
  lemma CopyToTwice(bp: map<Config, set<Config>>, k1: set<Config>, k2: set<Config>, ants: set<Config>)
    ensures CopyTo(CopyTo(bp, k1, ants), k2, ants) == CopyTo(bp, k1 + k2, ants)
  {
    var c := CopyTo(bp, k1, ants);
    var l, r := CopyTo(c, k2, ants), CopyTo(bp, k1 + k2, ants);
    assert l.Keys == r.Keys;
    forall k | k in r.Keys ensures l[k] == r[k] {
      assert Lookup(c, k) == Lookup(bp, k) + (if k in k1 then ants else {});
    }
  }

  /**
   * The effect of adding the items `derived`, each with the antecedents `ants`: the chart
   * gains them, the agenda gains those that are new, and their nodes gain `ants`.
   */
  ghost predicate Progress(
    c0: set<Item>, a0: seq<Item>, bp0: map<Config, set<Config>>, ants: set<Config>, derived: set<Item>,
    c1: set<Item>, a1: seq<Item>, bp1: map<Config, set<Config>>)
  {
    && c1 == c0 + derived
    && Appended(a0, a1, derived - c0)
    && bp1 == CopyTo(bp0, Displays(derived), ants)
  }

  lemma ProgressNone(c: set<Item>, a: seq<Item>, bp: map<Config, set<Config>>, ants: set<Config>)
    ensures Progress(c, a, bp, ants, {}, c, a, bp)
  {
    assert Displays({}) == {};
  }

  /** One more `add` followed by copying `ants` to the new item's node. */
  lemma ProgressStep(
    c0: set<Item>, a0: seq<Item>, bp0: map<Config, set<Config>>, ants: set<Config>, derived: set<Item>,
    c1: set<Item>, a1: seq<Item>, bp1: map<Config, set<Config>>, it: Item)
    requires Progress(c0, a0, bp0, ants, derived, c1, a1, bp1)
    ensures Progress(c0, a0, bp0, ants, derived + {it}, c1 + {it}, if it in c1 then a1 else a1 + [it],
                     bp1[Display(it) := Lookup(bp1, Display(it)) + ants])
  {
    var a2 := if it in c1 then a1 else a1 + [it];
    if it !in c1 {
      assert a2[..|a1|] == a1;
      assert a2[|a0|..] == a1[|a0|..] + [it];
      assert (derived + {it}) - c0 == (derived - c0) + {it};
      MultisetAddNew(derived - c0, it);
    } else {
      assert (derived + {it}) - c0 == derived - c0;
    }
    assert Displays(derived + {it}) == Displays(derived) + {Display(it)};
    CopyToOne(bp0, Displays(derived), ants, Display(it));
  }

  /** One more `add`: the chart gains the item, and the agenda gains it if it is new. */
  lemma AddAppended(c0: set<Item>, a0: seq<Item>, done: set<Item>, c1: set<Item>, a1: seq<Item>, it: Item,
                    c2: set<Item>, a2: seq<Item>)
    requires c1 == c0 + done && Appended(a0, a1, done - c0)
    requires c2 == c1 + {it} && a2 == if it in c1 then a1 else a1 + [it]
    ensures c2 == c0 + (done + {it}) && Appended(a0, a2, (done + {it}) - c0)
  {
    if it !in c1 {
      assert a2[..|a1|] == a1;
      assert a2[|a0|..] == a1[|a0|..] + [it];
      assert (done + {it}) - c0 == (done - c0) + {it};
      MultisetAddNew(done - c0, it);
    } else {
      assert (done + {it}) - c0 == done - c0;
    }
  }

  lemma MultisetAddNew<T>(s: set<T>, x: T)
    requires x !in s
    ensures multiset(s + {x}) == multiset(s) + multiset{x}
  {
  }

  lemma MultisetUnion<T>(s: set<T>, t: set<T>)
    requires s !! t
    ensures multiset(s + t) == multiset(s) + multiset(t)
  {
  }

  /** Two rounds of additions with the same antecedents make one. */
  lemma ProgressThen(
    c0: set<Item>, a0: seq<Item>, bp0: map<Config, set<Config>>, ants: set<Config>, d1: set<Item>,
    c1: set<Item>, a1: seq<Item>, bp1: map<Config, set<Config>>, d2: set<Item>,
    c2: set<Item>, a2: seq<Item>, bp2: map<Config, set<Config>>)
    requires Progress(c0, a0, bp0, ants, d1, c1, a1, bp1)
    requires Progress(c1, a1, bp1, ants, d2, c2, a2, bp2)
    ensures Progress(c0, a0, bp0, ants, d1 + d2, c2, a2, bp2)
  {
    assert a2[..|a0|] == a1[..|a0|];
    assert a2[|a0|..] == a1[|a0|..] + a2[|a1|..];
    assert (d1 + d2) - c0 == (d1 - c0) + (d2 - c1);
    MultisetUnion(d1 - c0, d2 - c1);
    assert Displays(d1 + d2) == Displays(d1) + Displays(d2);
    CopyToTwice(bp0, Displays(d1), Displays(d2), ants);
  }

  /** `ProgressThen` when each round copies the antecedents that node `src` has when it starts. */
  lemma ProgressFrom(
    c0: set<Item>, a0: seq<Item>, bp0: map<Config, set<Config>>, src: Config, d1: set<Item>,
    c1: set<Item>, a1: seq<Item>, bp1: map<Config, set<Config>>, d2: set<Item>,
    c2: set<Item>, a2: seq<Item>, bp2: map<Config, set<Config>>)
    requires Progress(c0, a0, bp0, Lookup(bp0, src), d1, c1, a1, bp1)
    requires Progress(c1, a1, bp1, Lookup(bp1, src), d2, c2, a2, bp2)
    ensures Progress(c0, a0, bp0, Lookup(bp0, src), d1 + d2, c2, a2, bp2)
  {
    CopyToCopied(bp0, Displays(d1), Lookup(bp0, src));
    assert Lookup(bp1, src) == Lookup(bp0, src);
    ProgressThen(c0, a0, bp0, Lookup(bp0, src), d1, c1, a1, bp1, d2, c2, a2, bp2);
  }

  /** What the Push rule derives from `x`: the grandchild, and one aunt per Pop item indexed under `x`'s child. */
  function PushItems(x: Item, il: map<Config, set<Config>>): set<Item>
    requires Depth(x.child) > 0
  {
    {Item(Some(x.child), Shrink(x.child))} + Combined(x.parent, Lookup(il, x.child), Last(x.child))
  }

  /** The items of `c` below each parent in `gps`. */
  function Aunts(gps: set<Option<Config>>, c: Config): set<Item>
  {
    set gp | gp in gps :: Item(gp, c)
  }

  /** The items below `parent` whose children are those of `cs` with `y` revealed. */
  function Combined(parent: Option<Config>, cs: set<Config>, y: Symbol): set<Item>
  {
    set g | g in cs :: Item(parent, Extend(g, y))
  }

  /** What the Pop rule derives from `x`: the aunt, once under each grandparent indexed under `x`'s parent. */
  function PopItems(x: Item, ir: map<Config, set<Option<Config>>>): set<Item>
    requires x.parent.Some? && Depth(x.parent.value) > 0
  {
    Aunts(Lookup(ir, x.parent.value), Extend(x.child, Last(x.parent.value)))
  }

  /** What the Step rule derives from `x`: one sister per transition of `ts` that matches. */
  function StepItems(x: Item, ts: seq<PdaTransition>): set<Item>
    decreases |ts|
  {
    if ts == [] then {}
    else
      var t := ts[|ts| - 1];
      StepItems(x, ts[..|ts| - 1]) + (if Matches(t.lhs, x.child) then {Item(x.parent, Apply(t, x.child))} else {})
  }

  /** Looking at one more transition adds its sister if it matches. */
  lemma StepItemsNext(x: Item, ts: seq<PdaTransition>, i: nat)
    requires i < |ts|
    ensures Matches(ts[i].lhs, x.child) ==> StepItems(x, ts[..i + 1]) == StepItems(x, ts[..i]) + {Item(x.parent, Apply(ts[i], x.child))}
    ensures !Matches(ts[i].lhs, x.child) ==> StepItems(x, ts[..i + 1]) == StepItems(x, ts[..i])
  {
    assert ts[..i + 1][..i] == ts[..i];
  }

  lemma WholeSlice<T>(s: seq<T>)
    ensures s[..|s|] == s
  {
  }

  /** The sisters are exactly the results of the matching transitions, and keep the parent. */
  lemma {:induction false} StepItemsExactly(x: Item, ts: seq<PdaTransition>)
    ensures forall i | 0 <= i < |ts| && Matches(ts[i].lhs, x.child) :: Item(x.parent, Apply(ts[i], x.child)) in StepItems(x, ts)
    ensures forall it | it in StepItems(x, ts) ::
      it.parent == x.parent && exists i | 0 <= i < |ts| :: Matches(ts[i].lhs, x.child) && it.child == Apply(ts[i], x.child)
    decreases |ts|
  {
    if ts != [] {
      var init := ts[..|ts| - 1];
      StepItemsExactly(x, init);
      assert forall i | 0 <= i < |init| :: init[i] == ts[i];
    }
  }

  /** The accept nodes after the accept check of `x`. */
  function Accepted(m: Automaton, x: Item, accepts: set<Config>): set<Config>
  {
    if Accepting(m, x.child) then accepts + {Display(x)} else accepts
  }

  /** The values of the engine's fields at one moment. */
  datatype Snapshot = Snapshot(
    agenda: seq<Item>,
    chart: set<Item>,
    indexLeft: map<Config, set<Config>>,
    indexRight: map<Config, set<Option<Config>>>,
    backpointers: map<Config, set<Config>>,
    configs: set<Config>,
    accepts: set<Config>,
    processed: set<Item>)

  /** The state once the agenda's head is taken off, checked for acceptance and marked processed. */
  ghost function Triggered(m: Automaton, s: Snapshot): Snapshot
    requires s.agenda != []
  {
    var x := s.agenda[0];
    s.(agenda := s.agenda[1..], accepts := Accepted(m, x, s.accepts), processed := s.processed + {x})
  }

  /** The worklist invariant of the cubic algorithm. */
  ghost predicate Inv(m: Automaton, w: nat, axiom: Item, s: Snapshot)
  {
    && axiom.parent.None?
    && Pending(s.agenda, s.chart, s.processed, axiom, w)
    && LeftIndexed(s.indexLeft, s.processed, w)
    && RightIndexed(s.indexRight, s.processed, w)
    && PushClosed(s.processed, s.chart, w)
    && PopClosed(s.processed, s.chart, w)
    && StepClosed(s.processed, s.chart, m.transitions, w)
    && StepRecorded(s.processed, s.backpointers, m.transitions, w)
    && AntecedentsShown(s.backpointers, s.configs)
    && Linked(s.backpointers, s.processed, m.transitions, w)
    && ParentsRecorded(s.chart, s.indexRight)
    && NodesOf(s.configs, s.processed, w)
    && AcceptsOf(s.accepts, s.processed, m)
    && Derivable(s.chart, m.transitions, w, axiom)
  }

  /** The agenda's head is charted or is the axiom, so it is well formed. */
  lemma HeadCharted(m: Automaton, w: nat, axiom: Item, s: Snapshot)
    requires Inv(m, w, axiom, s) && s.agenda != []
    ensures s.agenda[0] in s.chart || s.agenda[0] == axiom
    ensures WfItem(s.agenda[0], w)
  {
    assert s.agenda[0] in s.chart || s.agenda[0] == axiom;
  }

  /**
   * When a Pop item is taken off the agenda, some Push item has already been processed with
   * its parent as child, so `index_right[parent]` is not empty.
   */
  lemma PopParentRecorded(m: Automaton, w: nat, axiom: Item, s: Snapshot)
    requires Inv(m, w, axiom, s) && s.agenda != [] && IsPop(s.agenda[0], w)
    ensures Lookup(s.indexRight, s.agenda[0].parent.value) != {}
  {
    HeadCharted(m, w, axiom, s);
  }

  /** Taking the head off the agenda and adding well-formed items keeps the bookkeeping. */
  lemma PendingKept(a0: seq<Item>, c0: set<Item>, p0: set<Item>, axiom: Item, w: nat,
                    derived: set<Item>, a1: seq<Item>, c1: set<Item>)
    requires Pending(a0, c0, p0, axiom, w) && a0 != []
    requires c1 == c0 + derived && Appended(a0[1..], a1, derived - c0)
    requires forall it | it in derived :: WfItem(it, w)
    ensures Pending(a1, c1, p0 + {a0[0]}, axiom, w)
  {
    var rest := a0[1..];
    assert forall k | 0 <= k < |rest| :: rest[k] == a0[k + 1];
    assert a1[..|rest|] == rest;
    var d := a1[|rest|..];
    forall k | 0 <= k < |a1| ensures a1[k] in c1 || a1[k] == axiom {
      if k < |rest| {
        assert a1[k] == rest[k];
      } else {
        assert a1[k] == d[k - |rest|];
        assert a1[k] in multiset(d);
      }
    }
    forall it | it in c1 ensures it in p0 + {a0[0]} || it in a1 {
      if it in c0 && it !in p0 && it != a0[0] {
        var k :| 0 <= k < |a0| && a0[k] == it;
        assert rest[k - 1] == it;
        assert a1[k - 1] == it;
      } else if it !in c0 {
        assert it in multiset(derived - c0);
        assert it in d;
        var k :| 0 <= k < |d| && d[k] == it;
        assert a1[|rest| + k] == it;
      }
    }
    if axiom !in p0 && axiom != a0[0] {
      var k :| 0 <= k < |a0| && a0[k] == axiom;
      assert a1[k - 1] == axiom;
    }
  }

  /** Copying antecedents that are nodes keeps every antecedent a node. */
  lemma ShownKept(bp0: map<Config, set<Config>>, bp1: map<Config, set<Config>>, keys: set<Config>, ants: set<Config>,
                  n0: set<Config>, n1: set<Config>)
    requires AntecedentsShown(bp0, n0) && bp1 == CopyTo(bp0, keys, ants)
    requires n0 <= n1 && ants <= n1
    ensures AntecedentsShown(bp1, n1)
  {
    CopyToCopied(bp0, keys, ants);
    forall k, a | a in Lookup(bp1, k) ensures a in n1 {
      assert a in Lookup(bp0, k) || a in ants;
    }
  }

  /**
   * Backpointers only grow, so what was recorded stays recorded; a Step item's own
   * backpointers must have been given.
   */
  lemma RecordedKept(s: set<Item>, x: Item, bp0: map<Config, set<Config>>, bp1: map<Config, set<Config>>,
                     keys: set<Config>, ants: set<Config>, ts: seq<PdaTransition>, w: nat)
    requires StepRecorded(s, bp0, ts, w) && bp1 == CopyTo(bp0, keys, ants)
    requires IsStep(x, w) ==> forall i | 0 <= i < |ts| && Matches(ts[i].lhs, x.child) ::
      Display(x) in Lookup(bp1, Display(Item(x.parent, Apply(ts[i], x.child))))
    ensures StepRecorded(s + {x}, bp1, ts, w)
  {
    CopyToCopied(bp0, keys, ants);
    forall a, i | a in s + {x} && 0 <= i < |ts| && IsStep(a, w) && Matches(ts[i].lhs, a.child)
      ensures Display(a) in Lookup(bp1, Display(Item(a.parent, Apply(ts[i], a.child))))
    {
      if a != x {
        assert Display(a) in Lookup(bp0, Display(Item(a.parent, Apply(ts[i], a.child))));
      }
    }
  }

  /** The accept check keeps the accept nodes exact. */
  lemma AcceptsKept(m: Automaton, x: Item, p0: set<Item>, acc0: set<Config>)
    requires AcceptsOf(acc0, p0, m)
    ensures AcceptsOf(Accepted(m, x, acc0), p0 + {x}, m)
  {
    var acc1 := Accepted(m, x, acc0);
    forall n | n in acc1 ensures exists a :: a in p0 + {x} && Accepting(m, a.child) && Display(a) == n {
      if n !in acc0 {
        assert x in p0 + {x} && Accepting(m, x.child) && Display(x) == n;
      } else {
        var a :| a in p0 && Accepting(m, a.child) && Display(a) == n;
        assert a in p0 + {x};
      }
    }
  }

  /** A Push item or a Pop item does not change the run's nodes. */
  lemma NodesKept(configs: set<Config>, p0: set<Item>, x: Item, w: nat)
    requires NodesOf(configs, p0, w) && !IsStep(x, w)
    ensures NodesOf(configs, p0 + {x}, w)
  {
    forall n | n in configs ensures exists a :: a in p0 + {x} && IsStep(a, w) && Display(a) == n {
      var a :| a in p0 && IsStep(a, w) && Display(a) == n;
      assert a in p0 + {x};
    }
  }

  // ---------------------------------------------------------------------------
  // One worklist step keeps the invariant: one group of lemmas per rule.

  /** Recording a Push item keeps both indices exact. */
  lemma PushIndexed(il: map<Config, set<Config>>, ir: map<Config, set<Option<Config>>>, p0: set<Item>, x: Item, w: nat)
    requires LeftIndexed(il, p0, w) && RightIndexed(ir, p0, w) && IsPush(x, w)
    ensures LeftIndexed(il, p0 + {x}, w)
    ensures RightIndexed(ir[x.child := Lookup(ir, x.child) + {x.parent}], p0 + {x}, w)
  {
  }

  /** A Step item is neither a Push nor a Pop item, so the indices stay exact. */
  lemma StepIndexed(il: map<Config, set<Config>>, ir: map<Config, set<Option<Config>>>, p0: set<Item>, x: Item, w: nat)
    requires LeftIndexed(il, p0, w) && RightIndexed(ir, p0, w) && IsStep(x, w)
    ensures LeftIndexed(il, p0 + {x}, w) && RightIndexed(ir, p0 + {x}, w)
  {
  }

  /** The Push rule closes the processed items with `x` added, given the Pop items indexed so far. */
  lemma PushClosures(p0: set<Item>, c0: set<Item>, il: map<Config, set<Config>>, ts: seq<PdaTransition>, w: nat,
                     x: Item, c1: set<Item>)
    requires LeftIndexed(il, p0, w) && IsPush(x, w)
    requires PushClosed(p0, c0, w) && PopClosed(p0, c0, w) && StepClosed(p0, c0, ts, w)
    requires c1 == c0 + PushItems(x, il)
    ensures PushClosed(p0 + {x}, c1, w) && PopClosed(p0 + {x}, c1, w) && StepClosed(p0 + {x}, c1, ts, w)
  {
    forall a, b | a in p0 + {x} && b in p0 + {x} && IsPush(a, w) && IsPop(b, w) && b.parent == Some(a.child)
      ensures Combine(a, b) in c1
    {
      if a == x {
        assert b.child in Lookup(il, x.child);
        assert Combine(a, b) in Combined(x.parent, Lookup(il, x.child), Last(x.child));
      }
    }
  }

  /** The items the Push rule derives lie in every closed set that holds the axiom. */
  lemma PushDerivable(p0: set<Item>, c0: set<Item>, il: map<Config, set<Config>>, ts: seq<PdaTransition>, w: nat,
                      axiom: Item, x: Item, c1: set<Item>)
    requires Derivable(c0, ts, w, axiom) && LeftIndexed(il, p0, w) && IsPush(x, w)
    requires p0 <= c0 + {axiom} && (x in c0 || x == axiom)
    requires c1 == c0 + PushItems(x, il)
    ensures Derivable(c1, ts, w, axiom)
  {
    forall t | Saturated(t, ts, w) && axiom in t ensures c1 <= t {
      assert c0 <= t;
      forall it | it in PushItems(x, il) ensures it in t {
        if it != Item(Some(x.child), Shrink(x.child)) {
          var g :| g in Lookup(il, x.child) && it == Item(x.parent, Extend(g, Last(x.child)));
          var b := Item(Some(x.child), g);
          assert b in p0 && IsPop(b, w);
          assert Combine(x, b) == it;
        }
      }
    }
  }

  /** Recording a Pop item keeps both indices exact. */
  lemma PopIndexed(il: map<Config, set<Config>>, ir: map<Config, set<Option<Config>>>, p0: set<Item>, x: Item, w: nat)
    requires LeftIndexed(il, p0, w) && RightIndexed(ir, p0, w) && IsPop(x, w)
    ensures LeftIndexed(il[x.parent.value := Lookup(il, x.parent.value) + {x.child}], p0 + {x}, w)
    ensures RightIndexed(ir, p0 + {x}, w)
  {
  }

  /** The items the Pop rule derives are well formed: their parents are parents of processed Push items. */
  lemma PopWellFormed(p0: set<Item>, c0: set<Item>, ir: map<Config, set<Option<Config>>>, axiom: Item, w: nat, x: Item)
    requires RightIndexed(ir, p0, w) && p0 <= c0 + {axiom}
    requires (forall it | it in c0 :: WfItem(it, w)) && WfItem(axiom, w)
    requires x.parent.Some? && Depth(x.parent.value) > 0
    ensures forall it | it in PopItems(x, ir) :: WfItem(it, w)
  {
    forall it | it in PopItems(x, ir) ensures WfItem(it, w) {
      assert WfItem(Item(it.parent, x.parent.value), w);
    }
  }

  /** The grandchild is below `x`'s child and the Combined items keep `x`'s parent, so they are as well formed as `x`. */
  lemma PushWellFormed(x: Item, il: map<Config, set<Config>>, w: nat)
    requires WfItem(x, w) && IsPush(x, w)
    ensures forall it | it in PushItems(x, il) :: WfItem(it, w)
  {
    forall it | it in PushItems(x, il) ensures WfItem(it, w) {
      if it != Item(Some(x.child), Shrink(x.child)) {
        var g :| g in Lookup(il, x.child) && it == Item(x.parent, Extend(g, Last(x.child)));
      }
    }
  }

  /** The Pop rule closes the processed items with `x` added, given the Push items indexed so far. */
  lemma PopClosures(p0: set<Item>, c0: set<Item>, ir: map<Config, set<Option<Config>>>, ts: seq<PdaTransition>, w: nat,
                    x: Item, c1: set<Item>)
    requires RightIndexed(ir, p0, w) && IsPop(x, w) && Depth(x.parent.value) > 0
    requires PushClosed(p0, c0, w) && PopClosed(p0, c0, w) && StepClosed(p0, c0, ts, w)
    requires c1 == c0 + PopItems(x, ir)
    ensures PushClosed(p0 + {x}, c1, w) && PopClosed(p0 + {x}, c1, w) && StepClosed(p0 + {x}, c1, ts, w)
  {
    forall a, b | a in p0 + {x} && b in p0 + {x} && IsPush(a, w) && IsPop(b, w) && b.parent == Some(a.child)
      ensures Combine(a, b) in c1
    {
      if b == x {
        assert a.parent in Lookup(ir, x.parent.value);
        assert Combine(a, b) in Aunts(Lookup(ir, x.parent.value), Extend(x.child, Last(x.parent.value)));
      }
    }
  }

  /** The items the Pop rule derives lie in every closed set that holds the axiom. */
  lemma PopDerivable(p0: set<Item>, c0: set<Item>, ir: map<Config, set<Option<Config>>>, ts: seq<PdaTransition>, w: nat,
                     axiom: Item, x: Item, c1: set<Item>)
    requires Derivable(c0, ts, w, axiom) && RightIndexed(ir, p0, w) && IsPop(x, w) && Depth(x.parent.value) > 0
    requires p0 <= c0 + {axiom} && (x in c0 || x == axiom)
    requires c1 == c0 + PopItems(x, ir)
    ensures Derivable(c1, ts, w, axiom)
  {
    forall t | Saturated(t, ts, w) && axiom in t ensures c1 <= t {
      assert c0 <= t;
      forall it | it in PopItems(x, ir) ensures it in t {
        var a := Item(it.parent, x.parent.value);
        assert a in p0 && IsPush(a, w);
        assert Combine(a, x) == it;
      }
    }
  }

  /** The Step rule closes the processed items with `x` added. */
  lemma StepClosures(p0: set<Item>, c0: set<Item>, ts: seq<PdaTransition>, w: nat, x: Item, c1: set<Item>)
    requires IsStep(x, w)
    requires PushClosed(p0, c0, w) && PopClosed(p0, c0, w) && StepClosed(p0, c0, ts, w)
    requires c1 == c0 + StepItems(x, ts)
    ensures PushClosed(p0 + {x}, c1, w) && PopClosed(p0 + {x}, c1, w) && StepClosed(p0 + {x}, c1, ts, w)
  {
    StepItemsExactly(x, ts);
  }

  /** The items the Step rule derives lie in every closed set that holds the axiom. */
  lemma StepDerivable(c0: set<Item>, ts: seq<PdaTransition>, w: nat, axiom: Item, x: Item, c1: set<Item>)
    requires Derivable(c0, ts, w, axiom) && IsStep(x, w) && (x in c0 || x == axiom)
    requires c1 == c0 + StepItems(x, ts)
    ensures Derivable(c1, ts, w, axiom)
  {
    StepItemsExactly(x, ts);
    forall t | Saturated(t, ts, w) && axiom in t ensures c1 <= t {
      assert c0 <= t;
      forall it | it in StepItems(x, ts) ensures it in t {
        var i :| 0 <= i < |ts| && Matches(ts[i].lhs, x.child) && it.child == Apply(ts[i], x.child);
      }
    }
  }

  /** A relation closed over more processed items is closed over fewer. */
  lemma LinksMono(r: iset<(Config, Config)>, s0: set<Item>, s1: set<Item>, ts: seq<PdaTransition>, w: nat)
    requires s0 <= s1 && LinksClosed(r, s1, ts, w)
    ensures LinksClosed(r, s0, ts, w)
  {
  }

  /** The antecedents the Push rule copies are links passed on from `x`'s node. */
  lemma PushLinked(p0: set<Item>, x: Item, il: map<Config, set<Config>>, bp0: map<Config, set<Config>>,
                   bp1: map<Config, set<Config>>, ts: seq<PdaTransition>, w: nat)
    requires Linked(bp0, p0, ts, w) && LeftIndexed(il, p0, w) && IsPush(x, w)
    requires bp1 == CopyTo(bp0, Displays(PushItems(x, il)), Lookup(bp0, Display(x)))
    ensures Linked(bp1, p0 + {x}, ts, w)
  {
    CopyToCopied(bp0, Displays(PushItems(x, il)), Lookup(bp0, Display(x)));
    forall r | LinksClosed(r, p0 + {x}, ts, w) ensures forall k, n | n in Lookup(bp1, k) :: (n, k) in r {
      LinksMono(r, p0, p0 + {x}, ts, w);
      forall k, n | n in Lookup(bp1, k) ensures (n, k) in r {
        if n !in Lookup(bp0, k) {
          assert (n, Display(x)) in r;
          var d :| d in PushItems(x, il) && Display(d) == k;
          if d != Item(Some(x.child), Shrink(x.child)) {
            var g :| g in Lookup(il, x.child) && d == Item(x.parent, Extend(g, Last(x.child)));
            var b := Item(Some(x.child), g);
            assert b in p0 && IsPop(b, w);
            assert Combine(x, b) == d;
          }
        }
      }
    }
  }

  /** The antecedents the Pop rule copies are links passed on from `x`'s node. */
  lemma PopLinked(p0: set<Item>, x: Item, ir: map<Config, set<Option<Config>>>, bp0: map<Config, set<Config>>,
                  bp1: map<Config, set<Config>>, ts: seq<PdaTransition>, w: nat)
    requires Linked(bp0, p0, ts, w) && RightIndexed(ir, p0, w) && IsPop(x, w) && Depth(x.parent.value) > 0
    requires bp1 == CopyTo(bp0, Displays(PopItems(x, ir)), Lookup(bp0, Display(x)))
    ensures Linked(bp1, p0 + {x}, ts, w)
  {
    CopyToCopied(bp0, Displays(PopItems(x, ir)), Lookup(bp0, Display(x)));
    forall r | LinksClosed(r, p0 + {x}, ts, w) ensures forall k, n | n in Lookup(bp1, k) :: (n, k) in r {
      LinksMono(r, p0, p0 + {x}, ts, w);
      forall k, n | n in Lookup(bp1, k) ensures (n, k) in r {
        if n !in Lookup(bp0, k) {
          assert (n, Display(x)) in r;
          var d :| d in PopItems(x, ir) && Display(d) == k;
          var a := Item(d.parent, x.parent.value);
          assert a in p0 && IsPush(a, w);
          assert Combine(a, x) == d;
        }
      }
    }
  }

  /** The backpointers the Step rule records are direct links from `x`'s node. */
  lemma StepLinks(p0: set<Item>, x: Item, bp0: map<Config, set<Config>>, bp1: map<Config, set<Config>>,
                  ts: seq<PdaTransition>, w: nat)
    requires Linked(bp0, p0, ts, w) && IsStep(x, w)
    requires bp1 == CopyTo(bp0, Displays(StepItems(x, ts)), {Display(x)})
    ensures Linked(bp1, p0 + {x}, ts, w)
  {
    CopyToCopied(bp0, Displays(StepItems(x, ts)), {Display(x)});
    StepItemsExactly(x, ts);
    forall r | LinksClosed(r, p0 + {x}, ts, w) ensures forall k, n | n in Lookup(bp1, k) :: (n, k) in r {
      LinksMono(r, p0, p0 + {x}, ts, w);
      forall k, n | n in Lookup(bp1, k) ensures (n, k) in r {
        if n !in Lookup(bp0, k) {
          var d :| d in StepItems(x, ts) && Display(d) == k;
          var i :| 0 <= i < |ts| && Matches(ts[i].lhs, x.child) && d.child == Apply(ts[i], x.child);
          assert d == Item(x.parent, Apply(ts[i], x.child));
        }
      }
    }
  }

  /** The Push rule records its item's parent under its child, the one parent its grandchild has. */
  lemma PushParents(c0: set<Item>, ir: map<Config, set<Option<Config>>>, x: Item, il: map<Config, set<Config>>)
    requires ParentsRecorded(c0, ir) && (x.parent.Some? ==> x in c0) && Depth(x.child) > 0
    ensures ParentsRecorded(c0 + PushItems(x, il), ir[x.child := Lookup(ir, x.child) + {x.parent}])
  {
    var ir1 := ir[x.child := Lookup(ir, x.child) + {x.parent}];
    forall it | it in c0 + PushItems(x, il) && it.parent.Some? ensures Lookup(ir1, it.parent.value) != {} {
      if it !in c0 && it != Item(Some(x.child), Shrink(x.child)) {
        var g :| g in Lookup(il, x.child) && it == Item(x.parent, Extend(g, Last(x.child)));
      }
    }
  }

  /** The aunts' parents are parents of processed Push items, so they are recorded. */
  lemma PopParents(c0: set<Item>, ir: map<Config, set<Option<Config>>>, p0: set<Item>, axiom: Item, x: Item, w: nat)
    requires ParentsRecorded(c0, ir) && RightIndexed(ir, p0, w) && p0 <= c0 + {axiom} && axiom.parent.None?
    requires x.parent.Some? && Depth(x.parent.value) > 0
    ensures ParentsRecorded(c0 + PopItems(x, ir), ir)
  {
    forall it | it in PopItems(x, ir) && it.parent.Some? ensures Lookup(ir, it.parent.value) != {} {
      assert Item(it.parent, x.parent.value) in c0;
    }
  }

  /** The sisters keep the Step item's parent. */
  lemma StepParents(c0: set<Item>, ir: map<Config, set<Option<Config>>>, x: Item, ts: seq<PdaTransition>)
    requires ParentsRecorded(c0, ir) && (x.parent.Some? ==> x in c0)
    ensures ParentsRecorded(c0 + StepItems(x, ts), ir)
  {
    StepItemsExactly(x, ts);
  }

  /** Processing a Push item keeps the invariant. */
  lemma PushKeeps(m: Automaton, w: nat, axiom: Item, s0: Snapshot, x: Item, sm: Snapshot, s1: Snapshot)
    requires Inv(m, w, axiom, s0) && s0.agenda != [] && x == s0.agenda[0] && IsPush(x, w)
    requires sm == Triggered(m, s0)
    requires s1.indexLeft == sm.indexLeft && s1.configs == sm.configs
    requires s1.indexRight == sm.indexRight[x.child := Lookup(sm.indexRight, x.child) + {x.parent}]
    requires s1.accepts == sm.accepts && s1.processed == sm.processed
    requires Progress(sm.chart, sm.agenda, sm.backpointers, Lookup(sm.backpointers, Display(x)),
                      PushItems(x, s1.indexLeft), s1.chart, s1.agenda, s1.backpointers)
    ensures Inv(m, w, axiom, s1)
  {
    var p0, il, ts := s0.processed, s1.indexLeft, m.transitions;
    var derived := PushItems(x, il);
    HeadCharted(m, w, axiom, s0);
    PushWellFormed(x, il, w);
    PendingKept(s0.agenda, s0.chart, p0, axiom, w, derived, s1.agenda, s1.chart);
    ShownKept(s0.backpointers, s1.backpointers, Displays(derived), Lookup(s0.backpointers, Display(x)), s0.configs, s1.configs);
    RecordedKept(p0, x, s0.backpointers, s1.backpointers, Displays(derived), Lookup(s0.backpointers, Display(x)), ts, w);
    AcceptsKept(m, x, p0, s0.accepts);
    NodesKept(s0.configs, p0, x, w);
    PushIndexed(s0.indexLeft, s0.indexRight, p0, x, w);
    PushLinked(p0, x, il, s0.backpointers, s1.backpointers, ts, w);
    PushParents(s0.chart, s0.indexRight, x, il);
    PushClosures(p0, s0.chart, il, ts, w, x, s1.chart);
    PushDerivable(p0, s0.chart, il, ts, w, axiom, x, s1.chart);
  }

  /** Processing a Pop item keeps the invariant. */
  lemma PopKeeps(m: Automaton, w: nat, axiom: Item, s0: Snapshot, x: Item, sm: Snapshot, s1: Snapshot)
    requires Inv(m, w, axiom, s0) && s0.agenda != [] && x == s0.agenda[0] && IsPop(x, w)
    requires Depth(x.parent.value) > 0
    requires sm == Triggered(m, s0)
    requires s1.indexRight == sm.indexRight && s1.configs == sm.configs
    requires s1.indexLeft == sm.indexLeft[x.parent.value := Lookup(sm.indexLeft, x.parent.value) + {x.child}]
    requires s1.accepts == sm.accepts && s1.processed == sm.processed
    requires Progress(sm.chart, sm.agenda, sm.backpointers, Lookup(sm.backpointers, Display(x)),
                      PopItems(x, s1.indexRight), s1.chart, s1.agenda, s1.backpointers)
    ensures Inv(m, w, axiom, s1)
  {
    var p0, ir, ts := s0.processed, s1.indexRight, m.transitions;
    var derived := PopItems(x, ir);
    HeadCharted(m, w, axiom, s0);
    PopWellFormed(p0, s0.chart, ir, axiom, w, x);
    PendingKept(s0.agenda, s0.chart, p0, axiom, w, derived, s1.agenda, s1.chart);
    ShownKept(s0.backpointers, s1.backpointers, Displays(derived), Lookup(s0.backpointers, Display(x)), s0.configs, s1.configs);
    RecordedKept(p0, x, s0.backpointers, s1.backpointers, Displays(derived), Lookup(s0.backpointers, Display(x)), ts, w);
    AcceptsKept(m, x, p0, s0.accepts);
    NodesKept(s0.configs, p0, x, w);
    PopIndexed(s0.indexLeft, s0.indexRight, p0, x, w);
    PopLinked(p0, x, ir, s0.backpointers, s1.backpointers, ts, w);
    PopParents(s0.chart, ir, p0, axiom, x, w);
    PopClosures(p0, s0.chart, ir, ts, w, x, s1.chart);
    PopDerivable(p0, s0.chart, ir, ts, w, axiom, x, s1.chart);
  }

  /** Processing a Step item keeps the invariant. */
  lemma StepKeeps(m: Automaton, w: nat, axiom: Item, s0: Snapshot, x: Item, sm: Snapshot, s1: Snapshot)
    requires Inv(m, w, axiom, s0) && s0.agenda != [] && x == s0.agenda[0] && IsStep(x, w)
    requires sm == Triggered(m, s0)
    requires s1.indexLeft == sm.indexLeft && s1.indexRight == sm.indexRight
    requires s1.configs == sm.configs + {Display(x)}
    requires s1.accepts == sm.accepts && s1.processed == sm.processed
    requires Progress(sm.chart, sm.agenda, sm.backpointers, {Display(x)},
                      StepItems(x, m.transitions), s1.chart, s1.agenda, s1.backpointers)
    ensures Inv(m, w, axiom, s1)
  {
    var p0, ts := s0.processed, m.transitions;
    StepChart(s0.agenda, s0.chart, p0, ts, w, axiom, s1.agenda, s1.chart);
    StepBackpointers(p0, x, ts, w, s0.backpointers, s1.backpointers, s0.configs);
    AcceptsKept(m, x, p0, s0.accepts);
    StepNodes(s0.configs, p0, x, w);
    StepIndexed(s0.indexLeft, s0.indexRight, p0, x, w);
    StepLinks(p0, x, s0.backpointers, s1.backpointers, ts, w);
    StepParents(s0.chart, s0.indexRight, x, ts);
  }

  /** The sisters a Step item derives keep the agenda, the chart and their closure facts. */
  lemma StepChart(a0: seq<Item>, c0: set<Item>, p0: set<Item>, ts: seq<PdaTransition>, w: nat, axiom: Item,
                  a1: seq<Item>, c1: set<Item>)
    requires Pending(a0, c0, p0, axiom, w) && a0 != [] && IsStep(a0[0], w)
    requires PushClosed(p0, c0, w) && PopClosed(p0, c0, w) && StepClosed(p0, c0, ts, w)
    requires Derivable(c0, ts, w, axiom)
    requires c1 == c0 + StepItems(a0[0], ts) && Appended(a0[1..], a1, StepItems(a0[0], ts) - c0)
    ensures Pending(a1, c1, p0 + {a0[0]}, axiom, w)
    ensures PushClosed(p0 + {a0[0]}, c1, w) && PopClosed(p0 + {a0[0]}, c1, w) && StepClosed(p0 + {a0[0]}, c1, ts, w)
    ensures Derivable(c1, ts, w, axiom)
  {
    var x := a0[0];
    assert x in c0 || x == axiom;
    StepWellFormed(x, ts, w);
    PendingKept(a0, c0, p0, axiom, w, StepItems(x, ts), a1, c1);
    StepClosures(p0, c0, ts, w, x, c1);
    StepDerivable(c0, ts, w, axiom, x, c1);
  }

  /** A Step item's node and the backpointers to it keep the backpointer facts of the invariant. */
  lemma StepBackpointers(p0: set<Item>, x: Item, ts: seq<PdaTransition>, w: nat,
                         bp0: map<Config, set<Config>>, bp1: map<Config, set<Config>>, n0: set<Config>)
    requires StepRecorded(p0, bp0, ts, w) && AntecedentsShown(bp0, n0)
    requires bp1 == CopyTo(bp0, Displays(StepItems(x, ts)), {Display(x)})
    ensures StepRecorded(p0 + {x}, bp1, ts, w)
    ensures AntecedentsShown(bp1, n0 + {Display(x)})
  {
    ShownKept(bp0, bp1, Displays(StepItems(x, ts)), {Display(x)}, n0, n0 + {Display(x)});
    StepLinked(x, ts, bp0, bp1, {Display(x)});
    RecordedKept(p0, x, bp0, bp1, Displays(StepItems(x, ts)), {Display(x)}, ts, w);
  }

  /** The sisters keep the Step item's parent, so they are as well formed as it is. */
  lemma StepWellFormed(x: Item, ts: seq<PdaTransition>, w: nat)
    requires WfItem(x, w)
    ensures forall it | it in StepItems(x, ts) :: WfItem(it, w)
  {
    StepItemsExactly(x, ts);
  }

  /** Every sister's node receives a backpointer to the Step item's node. */
  lemma StepLinked(x: Item, ts: seq<PdaTransition>, bp0: map<Config, set<Config>>, bp1: map<Config, set<Config>>,
                   ants: set<Config>)
    requires bp1 == CopyTo(bp0, Displays(StepItems(x, ts)), ants) && Display(x) in ants
    ensures forall i | 0 <= i < |ts| && Matches(ts[i].lhs, x.child) ::
      Display(x) in Lookup(bp1, Display(Item(x.parent, Apply(ts[i], x.child))))
  {
    StepItemsExactly(x, ts);
    CopyToCopied(bp0, Displays(StepItems(x, ts)), ants);
    forall i | 0 <= i < |ts| && Matches(ts[i].lhs, x.child)
      ensures Display(x) in Lookup(bp1, Display(Item(x.parent, Apply(ts[i], x.child))))
    {
      assert Display(Item(x.parent, Apply(ts[i], x.child))) in Displays(StepItems(x, ts));
    }
  }

  /** A Step item becomes a node of the run. */
  lemma StepNodes(configs: set<Config>, p0: set<Item>, x: Item, w: nat)
    requires NodesOf(configs, p0, w) && IsStep(x, w)
    ensures NodesOf(configs + {Display(x)}, p0 + {x}, w)
  {
    forall n | n in configs + {Display(x)} ensures exists a :: a in p0 + {x} && IsStep(a, w) && Display(a) == n {
      if n != Display(x) {
        var a :| a in p0 && IsStep(a, w) && Display(a) == n;
        assert a in p0 + {x};
      }
    }
  }

  /** With the agenda empty, the processed items are closed and lie in every closed set holding the axiom. */
  lemma FixpointReached(m: Automaton, w: nat, axiom: Item, s: Snapshot)
    requires Inv(m, w, axiom, s) && s.agenda == []
    ensures axiom in s.processed
    ensures Saturated(s.processed, m.transitions, w)
    ensures Derivable(s.processed, m.transitions, w, axiom)
  {
    assert s.chart <= s.processed;
    forall t | Saturated(t, m.transitions, w) && axiom in t ensures s.processed <= t {
      assert s.chart <= t;
    }
  }

  // ---------------------------------------------------------------------------
  // What a finished run means.

  /** `s` is the least set of items that holds the axiom and is closed under the rules. */
  ghost predicate Least(s: set<Item>, ts: seq<PdaTransition>, w: nat, axiom: Item)
  {
    axiom in s && Saturated(s, ts, w) && Derivable(s, ts, w, axiom)
  }

  /** There is only one least closed set. */
  lemma LeastUnique(s1: set<Item>, s2: set<Item>, ts: seq<PdaTransition>, w: nat, axiom: Item)
    requires Least(s1, ts, w, axiom) && Least(s2, ts, w, axiom)
    ensures s1 == s2
  {
    assert s1 <= s2;
    assert s2 <= s1;
  }

  // ---------------------------------------------------------------------------
  // The automaton's own behaviour on whole stacks, and what the items promise about it.

  /** `c` with the symbols `h` below its stack: a configuration that `c` may stand for. */
  function Below(c: Config, h: seq<Symbol>): Config
  {
    c.(stack := c.stack.(values := c.stack.values + h))
  }

  /** `cs` holds the result of every transition that applies to one of its configurations. */
  ghost predicate StepsClosed(cs: iset<Config>, ts: seq<PdaTransition>)
  {
    forall c, i | c in cs && 0 <= i < |ts| && Matches(ts[i].lhs, c) :: Apply(ts[i], c) in cs
  }

  /** The automaton reaches `b` from `a`: `b` lies in every set that holds `a` and is closed under the transitions. */
  ghost predicate Leads(ts: seq<PdaTransition>, a: Config, b: Config)
  {
    forall cs: iset<Config> {:trigger StepsClosed(cs, ts)} | StepsClosed(cs, ts) && a in cs :: b in cs
  }

  lemma LeadsRefl(ts: seq<PdaTransition>, a: Config)
    ensures Leads(ts, a, a)
  {
  }

  lemma LeadsTrans(ts: seq<PdaTransition>, a: Config, b: Config, c: Config)
    requires Leads(ts, a, b) && Leads(ts, b, c)
    ensures Leads(ts, a, c)
  {
  }

  lemma LeadsApply(ts: seq<PdaTransition>, a: Config, b: Config, i: nat)
    requires Leads(ts, a, b) && i < |ts| && Matches(ts[i].lhs, b)
    ensures Leads(ts, a, Apply(ts[i], b))
  {
  }

  /** A transition reads only the top of the stack: what lies below the matched part is carried along. */
  lemma ApplyBelow(t: PdaTransition, c: Config, h: seq<Symbol>)
    requires Matches(t.lhs, c)
    ensures Matches(t.lhs, Below(c, h)) && Apply(t, Below(c, h)) == Below(Apply(t, c), h)
  {
    var v := c.stack.values;
    assert (v + h)[..|t.lhs.stack|] == v[..|t.lhs.stack|];
    assert (v + h)[|t.lhs.stack|..] == v[|t.lhs.stack|..] + h;
  }

  lemma BelowNil(c: Config)
    ensures Below(c, []) == c
  {
    assert c.stack.values + [] == c.stack.values;
  }

  lemma BelowBelow(c: Config, h1: seq<Symbol>, h2: seq<Symbol>)
    ensures Below(Below(c, h1), h2) == Below(c, h1 + h2)
  {
    assert c.stack.values + h1 + h2 == c.stack.values + (h1 + h2);
  }

  /** Revealing the elided symbol again gives back the configuration. */
  lemma ShrinkBelow(c: Config, h: seq<Symbol>)
    requires Depth(c) > 0
    ensures Below(Shrink(c), [Last(c)] + h) == Below(c, h)
  {
    var v := c.stack.values;
    assert v[..Depth(c) - 1] + ([Last(c)] + h) == v + h;
  }

  lemma ExtendBelow(c: Config, y: Symbol, h: seq<Symbol>)
    ensures Below(Extend(c, y), h) == Below(c, [y] + h)
  {
    assert c.stack.values + [y] + h == c.stack.values + ([y] + h);
  }

  /**
   * What an item promises about whole stacks. At the axiom level its child is reachable.
   * Below a parent `p`: some configuration that `p` stands for is reachable, and from each
   * configuration `p` stands for, with the rest `h` below it, the automaton reaches the child
   * with `p`'s deepest visible symbol and `h` below it.
   */
  ghost predicate ItemSound(ts: seq<PdaTransition>, init: Config, it: Item)
  {
    match it.parent
    case None => Leads(ts, init, it.child)
    case Some(p) =>
      && Depth(p) > 0
      && (exists h :: Leads(ts, init, Below(p, h)))
      && (forall h :: Leads(ts, Below(p, h), Below(it.child, [Last(p)] + h)))
  }

  /** The well-formed items of `s` that keep their promise. */
  ghost function SoundItems(s: set<Item>, ts: seq<PdaTransition>, w: nat, init: Config): set<Item>
  {
    set it | it in s && WfItem(it, w) && ItemSound(ts, init, it)
  }

  /** The axiom keeps its promise. */
  lemma AxiomSound(ts: seq<PdaTransition>, init: Config)
    ensures ItemSound(ts, init, Item(None, init))
  {
    LeadsRefl(ts, init);
  }

  /** Where an item's parent stands for a reachable configuration, so does the item's child, with something below it. */
  lemma ChildRealized(ts: seq<PdaTransition>, init: Config, it: Item) returns (h: seq<Symbol>)
    requires ItemSound(ts, init, it)
    ensures Leads(ts, init, Below(it.child, h))
    ensures it.parent.None? <==> h == []
  {
    match it.parent
    case None =>
      h := [];
      BelowNil(it.child);
    case Some(p) =>
      var h0 :| Leads(ts, init, Below(p, h0));
      h := [Last(p)] + h0;
      LeadsTrans(ts, init, Below(p, h0), Below(it.child, h));
  }

  /** The Push rule's grandchild keeps the promise: it stands for exactly the configurations its parent does. */
  lemma GrandchildSound(ts: seq<PdaTransition>, init: Config, a: Item, w: nat)
    requires WfItem(a, w) && ItemSound(ts, init, a) && IsPush(a, w)
    ensures WfItem(Item(Some(a.child), Shrink(a.child)), w) && ItemSound(ts, init, Item(Some(a.child), Shrink(a.child)))
  {
    var c := a.child;
    var h0 := ChildRealized(ts, init, a);
    forall h ensures Leads(ts, Below(c, h), Below(Shrink(c), [Last(c)] + h)) {
      ShrinkBelow(c, h);
      LeadsRefl(ts, Below(c, h));
    }
  }

  /** The Pop rule's combination keeps the promise: the two runs below and above `a`'s child compose. */
  lemma CombineSound(ts: seq<PdaTransition>, init: Config, a: Item, b: Item, w: nat)
    requires WfItem(a, w) && ItemSound(ts, init, a) && IsPush(a, w)
    requires ItemSound(ts, init, b) && b.parent == Some(a.child)
    ensures WfItem(Combine(a, b), w) && ItemSound(ts, init, Combine(a, b))
  {
    var c, g, y := a.child, b.child, Last(a.child);
    match a.parent
    case None =>
      BelowNil(c);
      BelowNil(Extend(g, y));
      ExtendBelow(g, y, []);
      assert Leads(ts, Below(c, []), Below(g, [y] + []));
      LeadsTrans(ts, init, c, Extend(g, y));
    case Some(q) =>
      forall h ensures Leads(ts, Below(q, h), Below(Extend(g, y), [Last(q)] + h)) {
        ExtendBelow(g, y, [Last(q)] + h);
        LeadsTrans(ts, Below(q, h), Below(c, [Last(q)] + h), Below(g, [y] + ([Last(q)] + h)));
      }
  }

  /** The Step rule's sister keeps the promise: one more transition, on the whole stack. */
  lemma SisterSound(ts: seq<PdaTransition>, init: Config, a: Item, i: nat)
    requires ItemSound(ts, init, a) && i < |ts| && Matches(ts[i].lhs, a.child)
    ensures ItemSound(ts, init, Item(a.parent, Apply(ts[i], a.child)))
  {
    var c := a.child;
    match a.parent
    case None =>
      LeadsApply(ts, init, c, i);
    case Some(p) =>
      forall h ensures Leads(ts, Below(p, h), Below(Apply(ts[i], c), [Last(p)] + h)) {
        ApplyBelow(ts[i], c, [Last(p)] + h);
        LeadsApply(ts, Below(p, h), Below(c, [Last(p)] + h), i);
      }
  }

  /** The sound items of a closed set are closed as well. */
  lemma SoundSaturated(s: set<Item>, ts: seq<PdaTransition>, w: nat, init: Config)
    requires Saturated(s, ts, w)
    ensures Saturated(SoundItems(s, ts, w, init), ts, w)
  {
    var t := SoundItems(s, ts, w, init);
    forall a | a in t && IsPush(a, w) ensures Item(Some(a.child), Shrink(a.child)) in t {
      GrandchildSound(ts, init, a, w);
    }
    forall a, b | a in t && b in t && IsPush(a, w) && IsPop(b, w) && b.parent == Some(a.child)
      ensures Combine(a, b) in t
    {
      CombineSound(ts, init, a, b, w);
    }
    forall a, i | a in t && 0 <= i < |ts| && IsStep(a, w) && Matches(ts[i].lhs, a.child)
      ensures Item(a.parent, Apply(ts[i], a.child)) in t
    {
      SisterSound(ts, init, a, i);
    }
  }

  /** Every item of the least closed set keeps its promise. */
  lemma LeastSound(s: set<Item>, ts: seq<PdaTransition>, w: nat, init: Config)
    requires Least(s, ts, w, Item(None, init))
    ensures forall it | it in s :: WfItem(it, w) && ItemSound(ts, init, it)
  {
    SoundSaturated(s, ts, w, init);
    AxiomSound(ts, init);
    assert Item(None, init) in SoundItems(s, ts, w, init);
    assert s <= SoundItems(s, ts, w, init);
  }

  /** What the run shows of a configuration: a stack of at most `w` symbols whole, a longer one cut to `w` symbols and the marker. */
  function View(c: Config, w: nat): (r: Config)
  {
    if Depth(c) <= w then c
    else c.(stack := c.stack.(values := c.stack.values[..w] + [Marker]))
  }

  /** An item's node is the view, at its child's depth, of every configuration its child stands for. */
  lemma DisplayView(it: Item, h: seq<Symbol>)
    requires it.parent.None? <==> h == []
    ensures Display(it) == View(Below(it.child, h), Depth(it.child))
  {
    var v := it.child.stack.values;
    if h == [] {
      BelowNil(it.child);
    } else {
      assert (v + h)[..|v|] == v;
    }
  }

  /** A configuration that matches an accept configuration still does with more symbols below its stack. */
  lemma AcceptingBelow(m: Automaton, c: Config, h: seq<Symbol>)
    requires Accepting(m, c)
    ensures Accepting(m, Below(c, h))
  {
    var j :| 0 <= j < |m.acceptConfigs| && Matches(m.acceptConfigs[j], c);
    assert (c.stack.values + h)[..|m.acceptConfigs[j].stack|] == c.stack.values[..|m.acceptConfigs[j].stack|];
  }

  /**
   * The run agrees with the automaton's behaviour on whole stacks: every node is the window's
   * view of a reachable configuration, and every accept node shows a reachable configuration
   * that matches an accept configuration.
   */
  ghost predicate Sound(m: Automaton, w: nat, tokens: seq<Symbol>, run: Run)
  {
    && (forall n | n in run.configs :: exists c :: Leads(m.transitions, Initial(m, tokens), c) && n == View(c, w))
    && (forall n | n in run.accepts :: exists c, k: nat :: Leads(m.transitions, Initial(m, tokens), c) && Accepting(m, c) && n == View(c, k))
  }

  /**
   * The edges join nodes; every transition from a node's item to a sister that is itself a
   * node gives an edge between the two; and every edge lies in every relation that holds
   * those direct links and passes links on through the Push and Pop rules.
   */
  ghost predicate EdgesOf(edges: set<(Config, Config)>, nodes: set<Config>, s: set<Item>, ts: seq<PdaTransition>, w: nat)
  {
    && (forall c1, c2 | (c1, c2) in edges :: c1 in nodes && c2 in nodes)
    && (forall r {:trigger LinksClosed(r, s, ts, w)} | LinksClosed(r, s, ts, w) :: forall e | e in edges :: e in r)
    && (forall a, i {:trigger Matches(ts[i].lhs, a.child)} |
          a in s && 0 <= i < |ts| && IsStep(a, w) && Matches(ts[i].lhs, a.child) && IsStep(Item(a.parent, Apply(ts[i], a.child)), w) ::
          (Display(a), Display(Item(a.parent, Apply(ts[i], a.child)))) in edges)
  }

  /** The run of `m` on `tokens` with window `w` is the graph of the least closed set of items. */
  ghost predicate Explains(m: Automaton, w: nat, tokens: seq<Symbol>, run: Run)
  {
    && run.start == Initial(m, tokens)
    && exists s ::
         && Least(s, m.transitions, w, Item(None, Initial(m, tokens)))
         && NodesOf(run.configs, s, w)
         && AcceptsOf(run.accepts, s, m)
         && EdgesOf(run.edges, run.configs, s, m.transitions, w)
  }

  /** The backpointer facts of the invariant give the edges of the run. */
  lemma EdgesExplained(s: set<Item>, bp: map<Config, set<Config>>, nodes: set<Config>,
                       edges: set<(Config, Config)>, ts: seq<PdaTransition>, w: nat)
    requires Saturated(s, ts, w) && NodesOf(nodes, s, w)
    requires StepRecorded(s, bp, ts, w) && AntecedentsShown(bp, nodes) && Linked(bp, s, ts, w)
    requires forall c1, c2 :: (c1, c2) in edges <==> c2 in nodes && c1 in Lookup(bp, c2)
    ensures EdgesOf(edges, nodes, s, ts, w)
  {
    forall r | LinksClosed(r, s, ts, w) ensures forall e | e in edges :: e in r {
      forall e | e in edges ensures e in r {
        assert e.0 in Lookup(bp, e.1);
      }
    }
    forall a, i | a in s && 0 <= i < |ts| && IsStep(a, w) && Matches(ts[i].lhs, a.child)
                  && IsStep(Item(a.parent, Apply(ts[i], a.child)), w)
      ensures (Display(a), Display(Item(a.parent, Apply(ts[i], a.child)))) in edges
    {
      var sister := Item(a.parent, Apply(ts[i], a.child));
      assert sister in s;
      assert Display(sister) in nodes;
    }
  }

  /** A node at which some transition applies: the node of a Step item whose child a transition matches. */
  ghost predicate SourceNode(n: Config, s: set<Item>, ts: seq<PdaTransition>, w: nat)
  {
    exists a, i :: a in s && IsStep(a, w) && 0 <= i < |ts| && Matches(ts[i].lhs, a.child) && Display(a) == n
  }

  /** The pairs that leave a source node. */
  ghost function FromSources(s: set<Item>, ts: seq<PdaTransition>, w: nat): iset<(Config, Config)>
  {
    iset e: (Config, Config) | SourceNode(e.0, s, ts, w)
  }

  /** The pairs that leave a source node are closed over the items: copying keeps a link's first node. */
  lemma SourcesClosed(s: set<Item>, ts: seq<PdaTransition>, w: nat)
    ensures LinksClosed(FromSources(s, ts, w), s, ts, w)
  {
  }

  /** A transition that matches a Step item's child matches its node too. */
  lemma SourceMatches(n: Config, s: set<Item>, ts: seq<PdaTransition>, w: nat)
    requires SourceNode(n, s, ts, w)
    ensures exists i | 0 <= i < |ts| :: Matches(ts[i].lhs, n)
  {
    var a, i :| a in s && IsStep(a, w) && 0 <= i < |ts| && Matches(ts[i].lhs, a.child) && Display(a) == n;
    if a.parent.Some? {
      assert Display(a) == Below(a.child, [Marker]);
      ApplyBelow(ts[i], a.child, [Marker]);
    }
  }

  /** Every edge leaves a node at which some transition of the automaton applies. */
  lemma EdgesFromSteps(m: Automaton, w: nat, tokens: seq<Symbol>, run: Run)
    requires Explains(m, w, tokens, run)
    ensures forall e | e in run.edges :: e.0 in run.configs && exists i | 0 <= i < |m.transitions| :: Matches(m.transitions[i].lhs, e.0)
  {
    var ts := m.transitions;
    var s :| && Least(s, ts, w, Item(None, Initial(m, tokens)))
             && NodesOf(run.configs, s, w) && AcceptsOf(run.accepts, s, m) && EdgesOf(run.edges, run.configs, s, ts, w);
    SourcesClosed(s, ts, w);
    forall e | e in run.edges ensures exists i | 0 <= i < |ts| :: Matches(ts[i].lhs, e.0) {
      assert e in FromSources(s, ts, w);
      SourceMatches(e.0, s, ts, w);
    }
  }

  /** A finished run agrees with the automaton's own behaviour; in particular an accept node means that the automaton accepts. */
  lemma RunSound(m: Automaton, w: nat, tokens: seq<Symbol>, run: Run)
    requires Explains(m, w, tokens, run)
    ensures Sound(m, w, tokens, run)
    ensures run.accepts != {} ==> exists c :: Leads(m.transitions, Initial(m, tokens), c) && Accepting(m, c)
  {
    var ts, init := m.transitions, Initial(m, tokens);
    var s :| && Least(s, ts, w, Item(None, init))
             && NodesOf(run.configs, s, w) && AcceptsOf(run.accepts, s, m) && EdgesOf(run.edges, run.configs, s, ts, w);
    LeastSound(s, ts, w, init);
    forall n | n in run.configs ensures exists c :: Leads(ts, init, c) && n == View(c, w) {
      var a :| a in s && IsStep(a, w) && Display(a) == n;
      var h := ChildRealized(ts, init, a);
      DisplayView(a, h);
      if a.parent.None? {
        BelowNil(a.child);
      }
      assert n == View(Below(a.child, h), w);
    }
    forall n | n in run.accepts ensures exists c, k: nat :: Leads(ts, init, c) && Accepting(m, c) && n == View(c, k) {
      var a: Item :| a in s && Accepting(m, a.child) && Display(a) == n;
      var h := ChildRealized(ts, init, a);
      DisplayView(a, h);
      AcceptingBelow(m, a.child, h);
      assert n == View(Below(a.child, h), Depth(a.child));
    }
    if run.accepts != {} {
      var n :| n in run.accepts;
      var c, k: nat :| Leads(ts, init, c) && Accepting(m, c) && n == View(c, k);
    }
  }

  /**
   * The Pop rule's copy of the antecedents as the source writes it: after the loop over
   * `index_right[parent]`, only to the aunt's node under the one `grandparent` the loop
   * leaves bound.
   */
  function PopCopyAsWritten(bp: map<Config, set<Config>>, x: Item, grandparent: Option<Config>): map<Config, set<Config>>
    requires x.parent.Some? && Depth(x.parent.value) > 0
  {
    var key := Display(Item(grandparent, Extend(x.child, Last(x.parent.value))));
    bp[key := Lookup(bp, key) + Lookup(bp, Display(x))]
  }

  /** The Pop rule's copy as intended: to the aunt's node under every grandparent. */
  function PopCopy(bp: map<Config, set<Config>>, x: Item, ir: map<Config, set<Option<Config>>>): map<Config, set<Config>>
    requires x.parent.Some? && Depth(x.parent.value) > 0
  {
    CopyTo(bp, Displays(PopItems(x, ir)), Lookup(bp, Display(x)))
  }

  // The run of `s → r ⊢ CD`, `s → q ⊢ AB`, `r, C → q ⊢ AB`, `q, A → f ⊢ ε` with window 1
  // reaches a Pop item below the parent `(q, AB)` after both `None` and `(r, CD)` have been
  // recorded in `index_right` under that parent.
  const PopParent := Config("q", Store([], 0), Store(["A", "B"], 0))
  const OtherParent := Config("r", Store([], 0), Store(["C", "D"], 0))
  const PopExample := Item(Some(PopParent), Config("f", Store([], 0), Store([], 0)))
  const PopAunt := Config("f", Store([], 0), Store(["B"], 0))
  const PopRight := map[PopParent := {None, Some(OtherParent)}]
  /** The node of the Step item `(q, AB) => (q, A)`, the antecedent of the Pop item's node. */
  const PopAntecedent := Config("q", Store([], 0), Store(["A", Marker], 0))
  const PopBackpointers := map[Display(PopExample) := {PopAntecedent}]

  lemma ExampleAunts()
    ensures PopItems(PopExample, PopRight) == {Item(None, PopAunt), Item(Some(OtherParent), PopAunt)}
    ensures Displays(PopItems(PopExample, PopRight)) == {Display(Item(None, PopAunt)), Display(Item(Some(OtherParent), PopAunt))}
  {
    assert Last(PopParent) == "B";
    assert Extend(PopExample.child, Last(PopParent)) == PopAunt;
    assert Lookup(PopRight, PopParent) == {None, Some(OtherParent)};
  }

  /** The two aunts have different nodes, neither of which is the Pop item's node. */
  lemma ExampleNodes()
    ensures Display(Item(None, PopAunt)) != Display(Item(Some(OtherParent), PopAunt))
    ensures Display(PopExample) !in {Display(Item(None, PopAunt)), Display(Item(Some(OtherParent), PopAunt))}
    ensures Lookup(PopBackpointers, Display(PopExample)) == {PopAntecedent}
  {
    assert Display(Item(None, PopAunt)).stack.values == ["B"];
    assert Display(Item(Some(OtherParent), PopAunt)).stack.values == ["B", Marker];
    assert Display(PopExample).stack.values == [Marker];
  }

  /** The intended copy gives both aunts' nodes the Pop item's antecedent. */
  lemma PopCopyReaches()
    ensures forall it | it in PopItems(PopExample, PopRight) :: PopAntecedent in Lookup(PopCopy(PopBackpointers, PopExample, PopRight), Display(it))
  {
    ExampleAunts();
    ExampleNodes();
    CopyToCopied(PopBackpointers, Displays(PopItems(PopExample, PopRight)), {PopAntecedent});
  }

  /**
   * With `index_right[parent]` holding both `None` and a configuration, the copy as
   * written, whichever grandparent the loop leaves bound, leaves one aunt's node without
   * the antecedent.
   */
  lemma PopCopyMissed()
    ensures forall g | g in Lookup(PopRight, PopParent) :: exists it | it in PopItems(PopExample, PopRight) ::
              PopAntecedent !in Lookup(PopCopyAsWritten(PopBackpointers, PopExample, g), Display(it))
  {
    ExampleAunts();
    ExampleNodes();
    var top, below := Item(None, PopAunt), Item(Some(OtherParent), PopAunt);
    assert Extend(PopExample.child, Last(PopParent)) == PopAunt;
    forall g | g in Lookup(PopRight, PopParent)
      ensures exists it | it in PopItems(PopExample, PopRight) :: PopAntecedent !in Lookup(PopCopyAsWritten(PopBackpointers, PopExample, g), Display(it))
    {
      if g == None {
        assert PopAntecedent !in Lookup(PopCopyAsWritten(PopBackpointers, PopExample, g), Display(below));
      } else {
        assert PopAntecedent !in Lookup(PopCopyAsWritten(PopBackpointers, PopExample, g), Display(top));
      }
    }
  }

  /** The simulation context of one call of `run_pda`: the worklist, the chart, the indices and the run. */
  class Engine {
    const m: Automaton
    const window: nat
    const axiom: Item
    var agenda: seq<Item>
    var chart: set<Item>
    var indexLeft: map<Config, set<Config>>
    var indexRight: map<Config, set<Option<Config>>>
    var backpointers: map<Config, set<Config>>
    var configs: set<Config>
    var accepts: set<Config>
    /** The items taken off the agenda so far. */
    ghost var processed: set<Item>

    ghost function State(): Snapshot
      reads this
    {
      Snapshot(agenda, chart, indexLeft, indexRight, backpointers, configs, accepts, processed)
    }

    ghost predicate Valid()
      reads this
    {
      Inv(m, window, axiom, State())
    }

    /** The axiom is enqueued but not put in the chart. */
    constructor (m: Automaton, window: nat, start: Config)
      ensures this.m == m && this.window == window && axiom == Item(None, start)
      ensures agenda == [axiom] && chart == {} && processed == {}
      ensures indexLeft == map[] && indexRight == map[] && backpointers == map[]
      ensures configs == {} && accepts == {}
      ensures Valid()
    {
      this.m := m;
      this.window := window;
      axiom := Item(None, start);
      agenda := [Item(None, start)];
      chart := {};
      indexLeft, indexRight, backpointers := map[], map[], map[];
      configs, accepts := {}, {};
      processed := {};
    }

    /** `add`: a new item enters the chart and the agenda once; a known one changes nothing. */
    method Add(it: Item)
      modifies this`chart, this`agenda
      ensures chart == old(chart) + {it}
      ensures agenda == if it in old(chart) then old(agenda) else old(agenda) + [it]
    {
      if it !in chart {
        chart := chart + {it};
        agenda := agenda + [it];
      }
    }

    /** `add` every item of `items`, in the set's unspecified order. */
    method AddAll(items: set<Item>)
      modifies this`chart, this`agenda
      ensures chart == old(chart) + items && Appended(old(agenda), agenda, items - old(chart))
    {
      ghost var c0, a0 := chart, agenda;
      var todo := items;
      ghost var done: set<Item> := {};
      assert a0[..|a0|] == a0 && a0[|a0|..] == [];
      while todo != {}
        invariant todo <= items && done == items - todo
        invariant chart == c0 + done && Appended(a0, agenda, done - c0)
        decreases |todo|
      {
        var it :| it in todo;
        ghost var c1, a1 := chart, agenda;
        Add(it);
        AddAppended(c0, a0, done, c1, a1, it, chart, agenda);
        done := done + {it};
        todo := todo - {it};
      }
    }

    /** `add` an item, then give the item's node the antecedents `ants`. */
    method Derive(it: Item, ants: set<Config>)
      modifies this`chart, this`agenda, this`backpointers
      ensures Progress(old(chart), old(agenda), old(backpointers), ants, {it}, chart, agenda, backpointers)
    {
      ProgressNone(chart, agenda, backpointers, ants);
      ProgressStep(chart, agenda, backpointers, ants, {}, chart, agenda, backpointers, it);
      Add(it);
      var key := Display(it);
      backpointers := backpointers[key := Lookup(backpointers, key) + ants];
    }

    /**
     * `add` every item of `items`, each followed by a copy of the antecedents of node `src`
     * to the item's node. The source visits a set, so the order is left open.
     */
    method DeriveAll(items: set<Item>, src: Config)
      modifies this`chart, this`agenda, this`backpointers
      ensures Progress(old(chart), old(agenda), old(backpointers), Lookup(old(backpointers), src),
                       items, chart, agenda, backpointers)
    {
      ghost var c0, a0, bp0 := chart, agenda, backpointers;
      var todo := items;
      ghost var done: set<Item> := {};
      ProgressNone(c0, a0, bp0, Lookup(bp0, src));
      while todo != {}
        invariant todo <= items && done == items - todo
        invariant Progress(c0, a0, bp0, Lookup(bp0, src), done, chart, agenda, backpointers)
        decreases |todo|
      {
        var it :| it in todo;
        ghost var c1, a1, bp1 := chart, agenda, backpointers;
        Derive(it, Lookup(backpointers, src));
        ProgressFrom(c0, a0, bp0, src, done, c1, a1, bp1, {it}, chart, agenda, backpointers);
        done := done + {it};
        todo := todo - {it};
      }
      assert done == items;
    }

    /**
     * Push: elide the deepest visible symbol into a new item, remember the parent in
     * `index_right`, and combine with every Pop item already recorded in `index_left`.
     * Each derived item's node receives the antecedents of `x`'s node.
     */
    method PushRule(x: Item)
      requires IsPush(x, window)
      modifies this`chart, this`agenda, this`indexRight, this`backpointers
      ensures indexRight == old(indexRight)[x.child := Lookup(old(indexRight), x.child) + {x.parent}]
      ensures Progress(old(chart), old(agenda), old(backpointers), Lookup(old(backpointers), Display(x)),
                       PushItems(x, indexLeft), chart, agenda, backpointers)
    {
      ghost var c0, a0, bp0 := chart, agenda, backpointers;
      var grandchild := Shrink(x.child);
      Derive(Item(Some(x.child), grandchild), Lookup(backpointers, Display(x)));
      indexRight := indexRight[x.child := Lookup(indexRight, x.child) + {x.parent}];
      ghost var c1, a1, bp1 := chart, agenda, backpointers;
      // This item can also be the left antecedent of the Pop rule.
      DeriveAll(Combined(x.parent, Lookup(indexLeft, x.child), Last(x.child)), Display(x));
      ProgressFrom(c0, a0, bp0, Display(x), {Item(Some(x.child), grandchild)}, c1, a1, bp1,
                   Combined(x.parent, Lookup(indexLeft, x.child), Last(x.child)), chart, agenda, backpointers);
    }

    /**
     * Pop: reveal the parent's deepest visible symbol below the child, remember the
     * child in `index_left`, and combine with every Push item already recorded in
     * `index_right`. Each derived item's node receives the antecedents of `x`'s node.
     */
    method PopRule(x: Item)
      requires x.parent.Some? && Depth(x.parent.value) > 0
      modifies this`chart, this`agenda, this`indexLeft, this`backpointers
      ensures indexLeft == old(indexLeft)[x.parent.value := Lookup(old(indexLeft), x.parent.value) + {x.child}]
      ensures Progress(old(chart), old(agenda), old(backpointers), Lookup(old(backpointers), Display(x)),
                       PopItems(x, indexRight), chart, agenda, backpointers)
    {
      var parent := x.parent.value;
      var aunt := Extend(x.child, Last(parent));
      indexLeft := indexLeft[parent := Lookup(indexLeft, parent) + {x.child}];
      DeriveAll(Aunts(Lookup(indexRight, parent), aunt), Display(x));
    }

    /**
     * The Pop rule as the source writes it: every aunt is added, but the antecedents are
     * copied once, after the loop, under the `grandparent` the loop leaves bound, which is
     * one element of `index_right[parent]` in the set's unspecified order.
     */
    method PopRuleAsWritten(x: Item) returns (grandparent: Option<Config>)
      requires x.parent.Some? && Depth(x.parent.value) > 0 && Lookup(indexRight, x.parent.value) != {}
      modifies this`chart, this`agenda, this`indexLeft, this`backpointers
      ensures indexLeft == old(indexLeft)[x.parent.value := Lookup(old(indexLeft), x.parent.value) + {x.child}]
      ensures grandparent in Lookup(indexRight, x.parent.value)
      ensures chart == old(chart) + PopItems(x, indexRight)
      ensures Appended(old(agenda), agenda, PopItems(x, indexRight) - old(chart))
      ensures backpointers == PopCopyAsWritten(old(backpointers), x, grandparent)
    {
      var parent := x.parent.value;
      var aunt := Extend(x.child, Last(parent));
      indexLeft := indexLeft[parent := Lookup(indexLeft, parent) + {x.child}];
      AddAll(Aunts(Lookup(indexRight, parent), aunt));
      grandparent :| grandparent in Lookup(indexRight, parent);
      var key := Simplify(grandparent, aunt);
      backpointers := backpointers[key := Lookup(backpointers, key) + Lookup(backpointers, Simplify(x.parent, x.child))];
    }

    /**
     * Step: the item becomes a node of the run, and every matching transition yields a
     * sister item whose node receives a backpointer to this item's node.
     */
    method StepRule(x: Item)
      modifies this`chart, this`agenda, this`configs, this`backpointers
      ensures configs == old(configs) + {Display(x)}
      ensures Progress(old(chart), old(agenda), old(backpointers), {Display(x)},
                       StepItems(x, m.transitions), chart, agenda, backpointers)
    {
      ghost var c0, a0, bp0 := chart, agenda, backpointers;
      configs := configs + {Display(x)};
      var ts, ants := m.transitions, {Display(x)};
      ProgressNone(c0, a0, bp0, ants);
      for i := 0 to |ts|
        modifies this`chart, this`agenda, this`backpointers
        invariant Progress(c0, a0, bp0, ants, StepItems(x, ts[..i]), chart, agenda, backpointers)
      {
        StepItemsNext(x, ts, i);
        if Matches(ts[i].lhs, x.child) {
          var sister := Item(x.parent, Apply(ts[i], x.child));
          ghost var c1, a1, bp1 := chart, agenda, backpointers;
          Derive(sister, ants);
          ProgressThen(c0, a0, bp0, ants, StepItems(x, ts[..i]), c1, a1, bp1, {sister}, chart, agenda, backpointers);
        }
      }
      WholeSlice(ts);
    }

    /** Take the first item off the agenda and record it as accepting if its child matches an accept configuration. */
    method Trigger() returns (x: Item)
      requires agenda != []
      modifies this`agenda, this`accepts
      ensures x == old(agenda)[0] && agenda == old(agenda)[1..]
      ensures accepts == Accepted(m, x, old(accepts))
    {
      x := agenda[0];
      agenda := agenda[1..];
      if Accepting(m, x.child) {
        accepts := accepts + {Simplify(x.parent, x.child)};
      }
    }

    /** One turn of the worklist loop for an item whose stack shows too many symbols. */
    method ProcessPush()
      requires Valid() && agenda != [] && IsPush(agenda[0], window)
      modifies this`agenda, this`chart, this`indexRight, this`backpointers, this`accepts, this`processed
      ensures Valid()
      ensures processed == old(processed) + {old(agenda)[0]}
    {
      ghost var s0 := State();
      var x := Trigger();
      processed := processed + {x};
      ghost var sm := State();
      PushRule(x);
      PushKeeps(m, window, axiom, s0, x, sm, State());
    }

    /** One turn of the worklist loop for an item whose stack shows too few symbols. */
    method ProcessPop()
      requires Valid() && agenda != [] && IsPop(agenda[0], window)
      modifies this`agenda, this`chart, this`indexLeft, this`backpointers, this`accepts, this`processed
      ensures Valid()
      ensures processed == old(processed) + {old(agenda)[0]}
    {
      ghost var s0 := State();
      HeadCharted(m, window, axiom, s0);
      var x := Trigger();
      // The source's `assert False` for a parent with an empty stack cannot be reached,
      // and `index_right[parent]` is never empty, so the loop always binds `grandparent`.
      assert Depth(x.parent.value) > 0;
      PopParentRecorded(m, window, axiom, s0);
      processed := processed + {x};
      ghost var sm := State();
      PopRule(x);
      PopKeeps(m, window, axiom, s0, x, sm, State());
    }

    /** One turn of the worklist loop for an item whose stack is just right. */
    method ProcessStep()
      requires Valid() && agenda != [] && IsStep(agenda[0], window)
      modifies this`agenda, this`chart, this`configs, this`backpointers, this`accepts, this`processed
      ensures Valid()
      ensures processed == old(processed) + {old(agenda)[0]}
    {
      ghost var s0 := State();
      var x := Trigger();
      processed := processed + {x};
      ghost var sm := State();
      StepRule(x);
      StepKeeps(m, window, axiom, s0, x, sm, State());
    }

    /**
     * One turn of the worklist loop: take the first item off the agenda, record it as
     * accepting if its child matches an accept configuration, and apply the one rule
     * that fits its stack.
     */
    method Process()
      requires Valid() && agenda != []
      modifies this`agenda, this`chart, this`indexLeft, this`indexRight, this`backpointers,
               this`configs, this`accepts, this`processed
      ensures Valid()
      ensures processed == old(processed) + {old(agenda)[0]}
    {
      var x := agenda[0];
      if Depth(x.child) > window {
        ProcessPush();
      } else if x.parent.Some? && Depth(x.child) < window {
        ProcessPop();
      } else {
        ProcessStep();
      }
    }

    /**
     * The worklist loop, for at most `fuel` items. When the agenda empties, the items
     * processed are exactly the least set that holds the axiom and is closed under the
     * rules.
     */
    method Saturate(fuel: nat) returns (done: bool)
      requires Valid()
      modifies this`agenda, this`chart, this`indexLeft, this`indexRight, this`backpointers,
               this`configs, this`accepts, this`processed
      ensures Valid()
      ensures done <==> agenda == []
      ensures done ==> axiom in processed && Saturated(processed, m.transitions, window)
                       && Derivable(processed, m.transitions, window, axiom)
    {
      var n := fuel;
      while agenda != [] && n > 0
        invariant Valid()
        decreases n
      {
        Process();
        n := n - 1;
      }
      done := agenda == [];
      if done {
        FixpointReached(m, window, axiom, State());
      }
    }

    /** The run's edges: one from every backpointer antecedent into every node. */
    method Edges() returns (edges: set<(Config, Config)>)
      ensures forall c1, c2 :: (c1, c2) in edges <==> c2 in configs && c1 in Lookup(backpointers, c2)
    {
      edges := {};
      var todo := configs;
      while todo != {}
        invariant todo <= configs
        invariant forall c1, c2 :: (c1, c2) in edges <==> c2 in configs - todo && c1 in Lookup(backpointers, c2)
        decreases |todo|
      {
        var c2 :| c2 in todo;
        var ants := Lookup(backpointers, c2);
        while ants != {}
          invariant ants <= Lookup(backpointers, c2)
          invariant forall c1, c3 :: (c1, c3) in edges <==>
            (c3 in configs - todo && c1 in Lookup(backpointers, c3)) || (c3 == c2 && c1 in Lookup(backpointers, c2) - ants)
          decreases |ants|
        {
          var c1 :| c1 in ants;
          edges := edges + {(c1, c2)};
          ants := ants - {c1};
        }
        todo := todo - {c2};
      }
    }
  }

  /**
   * `run_pda`: check that store 2 is a stack, fix the window, saturate the chart from
   * the axiom, and read off the run graph. `fuel` bounds the worklist loop.
   */
  method RunPda(m: Automaton, tokens: seq<Symbol>, showStack: nat, fuel: nat) returns (r: Result<Run, PdaError>)
    ensures !m.hasStack ==> r == Failure(NotAStack)
    ensures m.hasStack && Window(m, showStack).Failure? ==> r == Failure(EmptyMax)
    ensures r.Failure? ==> r.error == NotAStack || r.error == EmptyMax || r.error == FuelExhausted
    ensures r.Failure? && r.error == FuelExhausted ==> m.hasStack && Window(m, showStack).Success?
    ensures r.Success? ==> m.hasStack && Window(m, showStack).Success?
                           && Explains(m, Window(m, showStack).value, tokens, r.value)
                           && Sound(m, Window(m, showStack).value, tokens, r.value)
  {
    if !m.hasStack {
      return Failure(NotAStack);
    }
    var w :- Window(m, showStack);
    var e := new Engine(m, w, Initial(m, tokens));
    var done := e.Saturate(fuel);
    if !done {
      return Failure(FuelExhausted);
    }
    var edges := e.Edges();
    EdgesExplained(e.processed, e.backpointers, e.configs, edges, m.transitions, w);
    r := Success(Run(Initial(m, tokens), e.configs, edges, e.accepts));
    assert Least(e.processed, m.transitions, w, Item(None, Initial(m, tokens)));
    RunSound(m, w, tokens, r.value);
  }
}
