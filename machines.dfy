/**
 * A minimal stand-in for the automaton types of the `machines` module, which is not
 * part of this model: stores, pushdown configurations and transitions, and the
 * multi-track transitions that the grammar and table conversions read and build.
 */
module Machines {

  type Symbol = string

  /** A store: its symbols and a cursor (how much of the input has been consumed). */
  datatype Store = Store(values: seq<Symbol>, position: nat)

  /**
   * A pushdown configuration: store 0 is the state, store 1 the input, store 2 the
   * stack. The top of the stack is `stack.values[0]`; the last value is the deepest
   * symbol that is still visible.
   */
  datatype Config = Config(state: Symbol, input: Store, stack: Store)

  /** The left-hand side of a pushdown transition, also used for accept configurations. */
  datatype Pattern = Pattern(state: Symbol, input: seq<Symbol>, stack: seq<Symbol>)

  /** (state, input prefix, stack-top prefix) -> (state, stack replacement). */
  datatype PdaTransition = PdaTransition(lhs: Pattern, target: Symbol, push: seq<Symbol>)

  /** A multi-track transition: one pattern per store on the left, one value per store on the right. */
  datatype Transition = Transition(lhs: seq<seq<Symbol>>, rhs: seq<seq<Symbol>>)

  /** A machine as built by `from_transitions` and read by the table and grammar conversions. */
  datatype Machine = Machine(start: Symbol, accept: set<Symbol>, transitions: seq<Transition>)

  function Depth(c: Config): nat
  {
    |c.stack.values|
  }

  /** `p.match(c)`: the state is equal and each of input and stack begins with the pattern. */
  predicate Matches(p: Pattern, c: Config)
  {
    && c.state == p.state
    && c.input.position + |p.input| <= |c.input.values|
    && c.input.values[c.input.position..c.input.position + |p.input|] == p.input
    && |p.stack| <= |c.stack.values|
    && c.stack.values[..|p.stack|] == p.stack
  }

  /** `t.apply(c)`: consume the matched input, replace the matched stack top by `t.push`. */
  function Apply(t: PdaTransition, c: Config): (r: Config)
    requires Matches(t.lhs, c)
    ensures r.state == t.target
    ensures r.input.values == c.input.values
    ensures r.input.position == c.input.position + |t.lhs.input| <= |r.input.values|
    ensures r.stack.position == c.stack.position
    ensures |r.stack.values| == |c.stack.values| - |t.lhs.stack| + |t.push|
    ensures r.stack.values[..|t.push|] == t.push
    ensures r.stack.values[|t.push|..] == c.stack.values[|t.lhs.stack|..]
  {
    Config(t.target,
           Store(c.input.values, c.input.position + |t.lhs.input|),
           Store(t.push + c.stack.values[|t.lhs.stack|..], c.stack.position))
  }

  /** The states a machine mentions: its start and accept states and every transition's state track. */
  function States(m: Machine): (r: set<Symbol>)
    ensures m.start in r && m.accept <= r
    ensures forall i, k | 0 <= i < |m.transitions| && 0 < |m.transitions[i].lhs| && 0 <= k < |m.transitions[i].lhs[0]| ::
              m.transitions[i].lhs[0][k] in r
    ensures forall i, k | 0 <= i < |m.transitions| && 0 < |m.transitions[i].rhs| && 0 <= k < |m.transitions[i].rhs[0]| ::
              m.transitions[i].rhs[0][k] in r
  {
    {m.start} + m.accept
      + (set i, k | 0 <= i < |m.transitions| && 0 < |m.transitions[i].lhs| && 0 <= k < |m.transitions[i].lhs[0]| ::
           m.transitions[i].lhs[0][k])
      + (set i, k | 0 <= i < |m.transitions| && 0 < |m.transitions[i].rhs| && 0 <= k < |m.transitions[i].rhs[0]| ::
           m.transitions[i].rhs[0][k])
  }

  /** A pushdown automaton as the grammar conversions read and build it. */
  datatype Pda = Pda(start: Symbol, accepts: set<Symbol>, transitions: seq<PdaTransition>)

  /** `m.states`: the start state, the accept states and every state a transition reads or enters. */
  function PdaStates(m: Pda): (r: set<Symbol>)
    ensures m.start in r && m.accepts <= r
    ensures forall i | 0 <= i < |m.transitions| :: m.transitions[i].lhs.state in r && m.transitions[i].target in r
    ensures forall q | q in r :: q == m.start || q in m.accepts ||
              exists i | 0 <= i < |m.transitions| :: q == m.transitions[i].lhs.state || q == m.transitions[i].target
  {
    {m.start} + m.accepts
      + (set i | 0 <= i < |m.transitions| :: m.transitions[i].lhs.state)
      + (set i | 0 <= i < |m.transitions| :: m.transitions[i].target)
  }
}
