# tock core in Dafny

This project models the core of tock, a Python toolkit for automata theory, and proves facts about the model. The core has three parts:

- **Simulating a pushdown automaton** (`run_pda`, `tock/pda.py`). The automaton may be nondeterministic. The simulation is Lang's cubic chart-parsing algorithm. An item (parent, child) stands for a configuration. Its stack is cut down to a window of visible symbols, and the hidden rest is recovered from the parent one level at a time. A worklist closes the set of items under three rules:
  - Push: elide the deepest visible symbol;
  - Pop: reveal the parent's deepest symbol again;
  - Step: apply a transition when the window is just right.
  
  From the closed set it reads off a run graph: the start configuration, the nodes, the accept nodes and the edges.
- **Grammar conversions** (`tock/grammars.py`):
  - the `Grammar` object, with `add_nonterminal`, `add_rule` and `is_contextfree`;
  - `remove_useless`, which runs two worklist fixpoints, reachability and then productivity;
  - the name helpers `zero_pad` and `fresh`;
  - `from_grammar_topdown`, the predict/match automaton of a grammar;
  - `to_grammar`, the textbook construction of a context-free grammar from a pushdown automaton that pushes or pops exactly one symbol per transition. In it, the nonterminal A_pq derives what the automaton reads between states p and q, ending with the stack back where it was.
- **Transition tables** (`tock/tables.py`):
  - `from_table` reads a machine from a table of strings: a header row of conditions, then one row per state;
  - `to_table` writes a machine as such a table;
  - `configs_to_string` writes one cell.

## How the model is laid out

| file | contents |
|---|---|
| `wrappers.dfy` | `Option` and `Result` |
| `machines.dfy` | The stores, configurations, transitions and machines the core reads and builds. The `machines` module they come from is not part of this model. |
| `pda.dfy` | The class `Pda.Engine`, with the fields of `run_pda`'s local state: agenda, chart, `index_left`, `index_right`, backpointers, run nodes and accept nodes. Its methods are the loop bodies. |
| `grammars.dfy` | The class `Grammars.Grammar`, the two fixpoints of `remove_useless` as loops proved to compute least closed sets, `fresh` and `zero_pad` |
| `topdown.dfy` | `from_grammar_topdown` |
| `togrammar.dfy` | `to_grammar`, as loops that add rules to a `Grammar` object |
| `tables.dfy` | `from_table`, `to_table` and `configs_to_string` |
| `sorting.dfy` | Python's order on strings and on lists, and `sorted` |
| `text.dfy` | `str.join` and the decimal form of a natural number |

Each loop of the source is a `method` with a `while` or `for` loop, proved against a specification function or predicate. The lemmas beside it state what the source promises of that specification.

Sets are iterated in an order Python leaves unspecified. The model picks the next element with `:|`, so each contract holds for every iteration order.

## Model

| member | source | states |
|---|---|---|
| Pda.Max | tock/pda.py:62-64 | The result bounds every element of the non-empty sequence and is one of them. |
| Pda.Window | tock/pda.py:61-64 | Fails (`EmptyMax`, Python's `max` on an empty sequence) exactly when there are no transitions or no accept configurations. Otherwise the window bounds the caller's minimum, every transition's stack pattern and every accept configuration's stack, and equals one of them. |
| Pda.Shrink | tock/pda.py:108-111 | The grandchild shows one stack symbol fewer. |
| Pda.Extend | tock/pda.py:126-130 | The aunt shows one symbol more, and its deepest visible symbol is the one revealed. |
| Pda.ShrinkExtend | tock/pda.py:108-130 | Pop undoes Push: revealing a symbol and eliding it again gives back the configuration, and the other way round. |
| Pda.Simplify | tock/pda.py:72-80 | At the axiom level the node is the child. One level down, it is the child with the marker `...` after its visible stack, and nothing else changes. |
| Pda.SimplifyInjective | tock/pda.py:72-80 | Below the axiom level two items with the same node have the same child, so a node determines the configuration it shows. |
| Pda.StepItemsExactly | tock/pda.py:142-146 | The sisters of a Step item are exactly the results of the transitions that match its child, and they keep its parent. |
| Pda.HeadCharted | tock/pda.py:82-100 | The item taken off the agenda is the axiom or has been charted, and it is well formed: every parent shows more than the window. |
| Pda.PopParentRecorded | tock/pda.py:124-137 | When a Pop item is processed, some Push item with its parent as child has been processed before. So `index_right[parent]` is not empty, and the loop always binds `grandparent`. |
| Pda.PushLinked | tock/pda.py:113-122 | The antecedents the Push rule copies lie in every link relation closed over the processed items (see `Pda.EdgesExplained`). |
| Pda.PopLinked | tock/pda.py:136-137 | The same for the antecedents the Pop rule copies. |
| Pda.StepLinks | tock/pda.py:142-146 | The backpointers the Step rule records are direct links, from the item's node to each sister's node. |
| Pda.PushParents | tock/pda.py:108-122 | After the Push rule, every charted item's parent is still recorded in `index_right`, including the grandchild's parent. |
| Pda.PopParents | tock/pda.py:131-134 | After the Pop rule, every charted item's parent is still recorded in `index_right`. |
| Pda.StepParents | tock/pda.py:140-146 | After the Step rule, every charted item's parent is still recorded in `index_right`. |
| Pda.PushKeeps | tock/pda.py:107-122 | Processing a Push item keeps the worklist invariant. That invariant has these parts. The indices are exact. The processed items are closed and derivable. Every charted item's parent is recorded in `index_right`. The nodes and accept nodes are those of the processed items. The backpointers include every direct Step link, and every backpointer lies in every link relation closed over the processed items. |
| Pda.PopKeeps | tock/pda.py:124-137 | Processing a Pop item keeps the same invariant. |
| Pda.StepKeeps | tock/pda.py:139-146 | Processing a Step item keeps the same invariant, and its node becomes a node of the run. |
| Pda.FixpointReached | tock/pda.py:99-146 | Once the agenda is empty, the processed items contain the axiom, are closed under Push, Pop and Step, and lie in every closed set that contains the axiom. |
| Pda.LeastUnique | tock/pda.py:26-43 | The least closed set of items is unique. So the automaton, the window and the input determine the run's nodes and accept nodes. |
| Pda.ApplyBelow | tock/pda.py:142-144 | A transition reads only the top of the stack. It still matches with more symbols below, and it carries them along unchanged. |
| Pda.ChildRealized | tock/pda.py:20-24 | If an item keeps its promise, its child, with some symbols below it, is a configuration the automaton reaches from the start. The symbols below are empty exactly at the axiom level. |
| Pda.GrandchildSound | tock/pda.py:32-36 | The Push rule's grandchild keeps its promise: it stands for exactly the configurations its parent stands for. |
| Pda.CombineSound | tock/pda.py:38-42 | The Pop rule's combination keeps its promise: the run below the Push item's child and the run above it compose. |
| Pda.SisterSound | tock/pda.py:142-146 | The Step rule's sister keeps its promise: the transition applies to the whole stack as well. |
| Pda.SoundSaturated | tock/pda.py:26-42 | The well-formed items of a closed set that keep their promise form a closed set again. |
| Pda.LeastSound | tock/pda.py:20-42 | Every item of the least closed set keeps its promise. At the axiom level its child is reachable from the start configuration. Below a parent p, some configuration p stands for is reachable. From each configuration p stands for, the automaton reaches the child, with p's deepest visible symbol and the rest of the stack below it. |
| Pda.DisplayView | tock/pda.py:72-80 | An item's node is the view, cut at the child's depth and marked `...`, of every configuration the item stands for. |
| Pda.AcceptingBelow | tock/pda.py:103-105 | A configuration that matches an accept configuration still matches with more symbols below its stack. |
| Pda.RunSound | tock/pda.py:99-152 | The run agrees with the automaton on whole stacks. Every node is the window's view of a configuration reachable from the start, and every accept node shows a reachable configuration that matches an accept configuration. So if the run has an accept node, some reachable configuration accepts. |
| Pda.SourcesClosed | tock/pda.py:113-146 | The pairs that start at a Step item's node with a matching transition form a link relation closed over the items. Copying antecedents never changes an edge's first node. |
| Pda.SourceMatches | tock/pda.py:142-146 | A transition that matches a Step item's child also matches its node. |
| Pda.EdgesFromSteps | tock/pda.py:146-152 | Every edge starts at a node of the run at which some transition of the automaton applies. |
| Pda.EdgesExplained | tock/pda.py:113-152 | It bounds the edges read from the backpointers from both sides. Edges join nodes of the run. Every transition from a node's item to a sister that is itself a node gives an edge (lower bound). Every edge lies in every relation that holds those direct links and passes a link into a Push or Pop item's node on to the nodes of the items the rule derives from it (upper bound). |
| Pda.Engine.constructor | tock/pda.py:47-83 | Only the axiom is on the agenda; the chart, the indices, the backpointers and the run are empty. |
| Pda.Engine.Add | tock/pda.py:91-97 | The chart gains the item. The agenda gains it at the end only if it was not charted before. |
| Pda.Engine.AddAll | tock/pda.py:133-134 | Every item of the set is added to the chart, and the new ones are appended to the agenda, whatever the order of the set. |
| Pda.Engine.Derive | tock/pda.py:113-122 | `add`, then the new item's node receives the given antecedents. |
| Pda.Engine.DeriveAll | tock/pda.py:117-122 | Every item of the set is added, and each node receives the antecedents the source node had, whatever the order of the set. |
| Pda.Engine.PushRule | tock/pda.py:108-122 | The derived items are the grandchild and one aunt per Pop item indexed under the child. The parent is recorded in `index_right` under the child. |
| Pda.Engine.PopRule | tock/pda.py:125-137 | The corrected Pop rule. The derived items are the aunt once under each grandparent indexed under the parent, and each aunt's node receives the Pop item's antecedents. The child is recorded in `index_left` under the parent. |
| Pda.Engine.PopRuleAsWritten | tock/pda.py:125-137 | The Pop rule as written. Every aunt is added and the child is recorded in `index_left`. The antecedents go only to the aunt's node under the one `grandparent` the loop leaves bound, an element of `index_right[parent]`. |
| Pda.ExampleAunts | tock/pda.py:126-134 | In the example run, the Pop item's aunts are (f, B) under `None` and under (r, CD). |
| Pda.ExampleNodes | tock/pda.py:72-80 | The two aunts have different nodes, and neither is the Pop item's node. |
| Pda.PopCopyReaches | tock/pda.py:133-137 | The corrected copy gives both aunts' nodes the Pop item's antecedent. |
| Pda.PopCopyMissed | tock/pda.py:133-137 | The copy as written leaves one of the two aunts' nodes without that antecedent, whichever grandparent the loop leaves bound. |
| Pda.Engine.StepRule | tock/pda.py:140-146 | The item's node becomes a node of the run. Each matching transition's sister is added, and its node receives a backpointer to this node. |
| Pda.Engine.Trigger | tock/pda.py:100-105 | The head of the agenda is taken off. Its node becomes an accept node exactly when its child matches an accept configuration. |
| Pda.Engine.ProcessPush | tock/pda.py:107-122 | One loop turn for a Push item keeps `Valid` and marks the item processed. |
| Pda.Engine.ProcessPop | tock/pda.py:124-137 | One loop turn for a Pop item keeps `Valid` and marks the item processed. The source's `assert False` branch cannot be reached, and `index_right[parent]` is not empty. |
| Pda.Engine.ProcessStep | tock/pda.py:139-146 | One loop turn for a Step item keeps `Valid` and marks the item processed. |
| Pda.Engine.Process | tock/pda.py:99-146 | One loop turn applies the one rule that fits the item's stack, keeps `Valid` and marks the item processed. |
| Pda.Engine.Saturate | tock/pda.py:99-146 | The loop reports done exactly when the agenda is empty; under the fuel bound it may stop before. When done, the processed items hold the axiom and are saturated and derivable. |
| Pda.Engine.Edges | tock/pda.py:150-152 | An edge (c1, c2) exists exactly when c2 is a node and c1 is one of its backpointers. |
| Pda.RunPda | tock/pda.py:7-154 | Raises `NotAStack` when store 2 is not a stack, and `EmptyMax` when the window cannot be computed. On success, the run's start, nodes and accept nodes are exactly those of the least set of items that holds the axiom and is closed under the rules. Its edges are bounded below and above as `Pda.EdgesExplained` states. The run is sound for the automaton's own behaviour, as `Pda.RunSound` states. |
| Machines.Apply | tock/pda.py:142-144 | A matching transition enters its target state and consumes its input. It replaces the matched stack top by its push string and keeps the rest of the stack. |
| Machines.PdaStates | tock/grammars.py:197-204 | `m.states` holds the start state, the accept states and every state a transition leaves or enters, and nothing else. |
| Grammars.ContextFree | tock/grammars.py:37-44 | True exactly when every rule's left side is one declared nonterminal. |
| Grammars.Grammar.constructor | tock/grammars.py:8-12 | The start symbol is the only nonterminal, and there are no rules. |
| Grammars.Grammar.AddNonterminal | tock/grammars.py:14-15 | The symbol joins the nonterminals. |
| Grammars.Grammar.AddNonterminals | tock/grammars.py:14-15 | Every symbol of the set joins the nonterminals. |
| Grammars.Grammar.AddRule | tock/grammars.py:17-18 | The rule is appended to the rules. |
| Grammars.Index | tock/grammars.py:50-56 | `by_lhs[x]` holds exactly the rules with left side x, with a key for each such x. `by_rhs[y]` holds exactly the rules whose right side mentions the nonterminal y. |
| Grammars.Successors | tock/grammars.py:64-67 | The symbols appended are exactly the right-side symbols of the rules that have rules of their own. |
| Grammars.Reachable | tock/grammars.py:58-67 | The reachable symbols are the least set that holds the start symbol and is closed under "appears on the right side of a rule of a reachable symbol and has rules". |
| Grammars.ReachPop | tock/grammars.py:60-67 | Popping a new symbol and appending its successors keeps the worklist sound (everything done or pending is reachable) and complete (what done symbols lead to is done or pending). |
| Grammars.ReachDone | tock/grammars.py:60 | With the agenda empty, the done symbols are the least closed set. |
| Grammars.ReachUnique | tock/grammars.py:58-67 | The set of reachable symbols is unique. |
| Grammars.Enabled | tock/grammars.py:71-80 | The symbols appended are exactly the left sides of the rules whose right-side nonterminals are all productive. |
| Grammars.ProdSeed | tock/grammars.py:69-73 | The rules without nonterminals seed a sound and complete worklist. |
| Grammars.ProdPop | tock/grammars.py:74-80 | Popping a new symbol and appending the left sides of the rules it completes keeps the worklist sound and complete. |
| Grammars.ProdDone | tock/grammars.py:74 | With the agenda empty, the done symbols are the least productive set. |
| Grammars.Productive | tock/grammars.py:69-80 | The productive symbols are the least set that holds the left side of every rule whose right-side nonterminals it all holds. |
| Grammars.ProdUnique | tock/grammars.py:69-80 | The set of productive symbols is unique. |
| Grammars.UsefulSymbols | tock/grammars.py:50-80 | The useful symbols are the reachable ones that are also productive. |
| Grammars.KeepMeaning | tock/grammars.py:84-87 | A rule is kept exactly when it is a rule of the grammar, its left side is useful, and every nonterminal on its right side is useful. |
| Grammars.KeepAppend | tock/grammars.py:84-87 | The kept rules stay in their original order. |
| Grammars.KeptContextFree | tock/grammars.py:82-88 | The kept rules are context-free once the useful nonterminals are declared next to the start symbol. |
| Grammars.KeptRoles | tock/grammars.py:82-88 | With those nonterminals declared, a symbol of a kept rule is a nonterminal exactly when it was one before. |
| Grammars.Grammar.CopyUseful | tock/grammars.py:84-87 | The new grammar's rules gain exactly the useful rules, in order. |
| Grammars.Grammar.RemoveUselessAsWritten | tock/grammars.py:46-88 | Raises exactly when the grammar is not context-free. Otherwise it returns a new grammar with the same start symbol and the useful rules in order, whose only nonterminal is the start symbol. |
| Grammars.RemoveUselessAsWrittenNotContextFree | tock/grammars.py:82-88 | On the context-free grammar S -> A, A -> a, the grammar built as written is not context-free. |
| Grammars.Grammar.RemoveUseless | tock/grammars.py:46-88 | Raises exactly when the grammar is not context-free. Otherwise: the same start symbol, the useful rules in order, the useful nonterminals declared, and a context-free result. |
| Grammars.Fresh | tock/grammars.py:93-96 | The name is not in the alphabet. It is `s` followed by the fewest primes that leave the alphabet, and it is `s` itself when `s` is not in the alphabet. |
| Grammars.FreshUnique | tock/grammars.py:93-96 | Only one name meets that description, so `fresh` is a function of its arguments. |
| Grammars.FreshPrefix | tock/grammars.py:93-96 | A fresh name begins with the name it was made from. |
| Grammars.ZeroPadValue | tock/grammars.py:90-91 | The padded form is all digits and reads back as `i`. Its length is the greater of the lengths of `str(i)` and `str(n)`. |
| Text.DecimalValue | tock/grammars.py:90-91 | `str(n)` reads back as n, and begins with `0` only for zero. |
| Text.ZerosValue | tock/grammars.py:90-91 | Leading zeros do not change the value, as `zfill` relies on. |
| Text.SplitJoin | tock/grammars.py:152-153 | Joining with a separator that no part contains can be undone by splitting. |
| TopDown.ChainFrom | tock/grammars.py:150-159 | The last k links of a rule's chain are k transitions. |
| TopDown.RuleTransitions | tock/grammars.py:145-159 | A rule gives one transition per right-side symbol, or one pop for an empty right side. |
| TopDown.Matchers | tock/grammars.py:164-165 | One matcher per terminal listed. |
| TopDown.LhsFirst | tock/grammars.py:139-142 | The start symbol is one of the left sides. |
| TopDown.RuleChain | tock/grammars.py:145-159 | The inner loop produces the rule's transitions: the links for si = n - 1 down to 0, or the pop for an empty right side. |
| TopDown.MatchAll | tock/grammars.py:164-165 | The last loop adds one matcher per terminal, each once, in some order. |
| TopDown.AllRules | tock/grammars.py:139-159 | The rule loop appends each rule's transitions in rule order. It collects as nonterminals the start symbol and the left sides, and as symbols the left and right sides. |
| TopDown.FromGrammarTopdown | tock/grammars.py:124-167 | Fails exactly when there are no rules. Otherwise: start state `start`, accept state `accept`, and the transitions are the header, each rule's chain in order, the accepting pop of `$`, then one matcher per terminal, each once. |
| TopDown.ChainRest | tock/grammars.py:148-159 | The last k links of a chain push the first k right-side symbols on top of what is already pushed, and end in `loop`. |
| TopDown.ChainExpands | tock/grammars.py:148-159 | A rule's chain, run from `loop` with the left side on top, replaces it by the right side, leftmost symbol on top. It consumes no input and returns to `loop`. |
| TopDown.RuleExpands | tock/grammars.py:145-159 | Expanding any rule, empty right side included, replaces its left side on the stack by its right side without consuming input. |
| TopDown.MatcherConsumes | tock/grammars.py:164-165 | A matcher consumes its terminal from the input and from the top of the stack. |
| TopDown.LabelDigits | tock/grammars.py:152-153 | A chain state is two zero-padded numbers joined by `.`, and neither contains a `.`. |
| TopDown.LabelInjective | tock/grammars.py:152-153 | Distinct (rule, position) pairs get distinct states, so no two chains share an intermediate state. |
| TopDown.LabelNotNamed | tock/grammars.py:134-155 | No chain state is `start`, `loop` or `accept`. |
| TopDown.FirstLabelFresh | tock/grammars.py:134-137 | The state between the two opening transitions is none of the chain states, because its first number is 0 and every chain's is a rule number plus one. It is also not `start`, `loop` or `accept`. |
| PdaToGrammar.Classify | tock/grammars.py:179-194 | Raises exactly when some transition pushes or pops several symbols, or both or neither, with the error of the first such transition. Otherwise `push[u]` and `pop[u]` hold exactly the moves that push or pop u, and the stack alphabet is every symbol pushed or popped. |
| PdaToGrammar.Emit | tock/grammars.py:218-219 | `add_nonterminal` then `add_rule`: the rule is appended and its left side declared. |
| PdaToGrammar.DrainAccepts | tock/grammars.py:205-206 | The pops from every accept state into the drain target are added. |
| PdaToGrammar.DrainSymbol | tock/grammars.py:204-207 | `pop[x]` gains the pops from the accept states and from `empty`, into `accept` for the bottom marker and into `empty` otherwise. |
| PdaToGrammar.AddDrains | tock/grammars.py:203-207 | Every stack symbol gets those draining pops. |
| PdaToGrammar.PushLink | tock/grammars.py:197-200 | After the bottom push is added, `push[u]` is the automaton's pushes of u plus the push of the bottom marker from the new start state. |
| PdaToGrammar.PopLink | tock/grammars.py:202-207 | After draining, `pop[u]` is the automaton's pops of u plus the draining pops. |
| PdaToGrammar.PairLink | tock/grammars.py:212-219 | The pair rules built from those tables are exactly A_pq -> a A_rs b for a push (p, a, r) and a pop (s, b, q) of the same symbol. |
| PdaToGrammar.AddRow | tock/grammars.py:217-219 | The rules for one push and every pop of the same symbol are added. |
| PdaToGrammar.AddBlock | tock/grammars.py:216-219 | The rules for every push and every pop of one stack symbol are added. |
| PdaToGrammar.AddPairRules | tock/grammars.py:215-219 | The pair rules for every stack symbol are added. |
| PdaToGrammar.AddConcatTo | tock/grammars.py:224-226 | A_pq -> A_pr A_rq is added for every r. |
| PdaToGrammar.AddConcatFrom | tock/grammars.py:223-226 | A_pq -> A_pr A_rq is added for every q and r. |
| PdaToGrammar.AddConcatRules | tock/grammars.py:222-226 | A_pq -> A_pr A_rq is added for every p, q and r. |
| PdaToGrammar.AddEpsRules | tock/grammars.py:229-231 | A_pp -> ε is added for every p. |
| PdaToGrammar.DeclaredContextFree | tock/grammars.py:210-231 | A grammar whose rules each have one left-side symbol, declared as a nonterminal, is context-free. |
| PdaToGrammar.Assemble | tock/grammars.py:210-231 | A new grammar with start A_(start, accept) whose rules, as a set, are exactly the pair, concatenation and ε rules, with every left side declared. |
| PdaToGrammar.Construct | tock/grammars.py:175-233 | Raises exactly when some transition is defective, with the first defect. Otherwise the new names are chosen by `fresh`, and the grammar's rules, as a set, are exactly the expected rules. |
| PdaToGrammar.ToGrammarAsWritten | tock/grammars.py:175-233 | As `Construct`, with the concatenation and ε rules ranging over `m.states`; the result is context-free. |
| PdaToGrammar.ToGrammar | tock/grammars.py:175-233 | As `Construct`, with the concatenation and ε rules ranging over `m.states` and the new states; the result is context-free. |
| PdaToGrammar.NamesApart | tock/grammars.py:197-204 | The new start, accept and empty states are not states of the automaton and are pairwise distinct. The bottom marker is a new stack symbol. |
| PdaToGrammar.PairNotConcat | tock/grammars.py:215-226 | No pair rule is a concatenation rule. |
| PdaToGrammar.ConcatMembership | tock/grammars.py:222-226 | A_pq -> A_pr A_rq is a rule exactly when p, q and r are among the states the rules range over. |
| PdaToGrammar.EpsMembership | tock/grammars.py:229-231 | A_pp -> ε is a rule exactly when p is among those states. |
| PdaToGrammar.WidenedAddsRules | tock/grammars.py:222-231 | Including the new states only adds rules. |
| PdaToGrammar.ExampleMissingRule | tock/grammars.py:222-231 | For a machine that accepts `abc` with symbols left on the stack, the rule A_(q0,empty) -> A_(q0,q1) A_(q1,empty) is missing as written and present once the new states are included. That `abc` is then underivable is argued, not proved. |
| Tables.NonBlankAppend | tock/tables.py:44-48 | Dropping blank rows distributes over concatenation. |
| Tables.BlankIgnored | tock/tables.py:44-48 | A blank row anywhere is dropped. |
| Tables.NonBlankMeaning | tock/tables.py:44-48 | A row survives exactly when it is a row of the table with a character `strip` keeps. |
| Tables.KeepRows | tock/tables.py:44-48 | The blank-row loop keeps exactly the non-blank rows, in order. |
| Tables.ReadAll | tock/tables.py:56-62 | The header reads exactly when every cell reads, and then gives one condition per cell. |
| Tables.ReadHeader | tock/tables.py:56-62 | The header loop reads the conditions of the columns after the first. |
| Tables.Expand | tock/tables.py:84-85 | One transition per right-hand side of the cell, each from the row's state under the column's condition. |
| Tables.CellTransitions | tock/tables.py:82-88 | A row's cells give transitions exactly when every cell can be read. |
| Tables.AppendAll | tock/tables.py:84-85 | The innermost loop appends the cell's transitions. |
| Tables.ReadCells | tock/tables.py:82-88 | The cell loop appends the row's transitions, or fails when a cell cannot be read. |
| Tables.ReadRow | tock/tables.py:64-88 | One body row: the state cell (a second start state raises), then the cell count, then the cells. |
| Tables.FromTable | tock/tables.py:42-93 | The loops compute `from_table`'s result on the table. |
| Tables.RowYields | tock/tables.py:82-88 | A row adds exactly the transitions its cells yield. |
| Tables.RowsSucceed | tock/tables.py:64-88 | After the row loop succeeds: every row has one more cell than the header; at most one row is marked start and it gives the start state; the accept states are the rows marked accepting; the transitions are those the cells yield. |
| Tables.BlankRowsIgnored | tock/tables.py:44-48 | Blank rows may appear anywhere without changing the result. |
| Tables.EmptyTableMeaning | tock/tables.py:44-56 | The table is rejected as empty exactly when every row is blank. |
| Tables.BodyRead | tock/tables.py:42-93 | A table that is read has a header, and its machine is what the row loop accumulates. |
| Tables.OneStart | tock/tables.py:67-71 | A table that is read has exactly one row marked as start, and it names the start state. |
| Tables.RowsAligned | tock/tables.py:80-81 | In a table that is read, every body row has as many cells as the header row. |
| Tables.AcceptRows | tock/tables.py:72-73 | The accept states are exactly the states of the rows marked accepting. |
| Tables.TransitionCells | tock/tables.py:82-88 | The transitions are exactly those the body cells yield under the header's conditions. |
| Tables.ConfigsToString | tock/tables.py:162-175 | The loop writes the cell text of `configs_to_string`. |
| Tables.ConfigsOrderFree | tock/tables.py:162-175 | A cell does not depend on the order in which the transitions are listed. |
| Tables.ConfigsShape | tock/tables.py:162-175 | An empty list of configurations gives an empty cell, and several configurations are written in braces. |
| Tables.Sources | tock/tables.py:131-138 | The sources are exactly the states some transition leaves from. |
| Tables.Conditions | tock/tables.py:131-139 | The conditions are exactly the other-store patterns of the transitions. |
| Tables.Cell | tock/tables.py:140 | A cell lists exactly the right-hand sides of the transitions from its state under its condition. |
| Tables.HeaderCells | tock/tables.py:143-147 | One header cell per condition, each the condition's stores joined by commas. |
| Tables.RowCells | tock/tables.py:157-158 | One cell per condition, each the configurations listed under the state and that condition. |
| Tables.StateRows | tock/tables.py:149-159 | One row per state, each its label followed by its cells. |
| Tables.Enumerate | tock/tables.py:143-149 | Iterating a set lists each element once. |
| Tables.Collect | tock/tables.py:131-140 | Raises exactly when some transition does not fit a table, with the first such transition's error. Otherwise it gives the sources, the conditions and exactly the cells. |
| Tables.WriteHeader | tock/tables.py:143-147 | The header row: an empty corner, then each condition's cell. |
| Tables.WriteRow | tock/tables.py:150-159 | A state's row: its label, then its cells. |
| Tables.WriteRows | tock/tables.py:149-159 | The rows of the sorted states, in order. |
| Tables.ToTableWith | tock/tables.py:121-160 | Raises exactly when a transition does not fit, with the first one's error. Otherwise it writes the table of the sorted states that get a row and the sorted conditions. |
| Tables.ToTableAsWritten | tock/tables.py:121-160 | `to_table` as written: the states that get a row are the sources and the accept states. |
| Tables.ToTable | tock/tables.py:121-160 | `to_table` with the start state always given a row. |
| Tables.RenderVisible | tock/tables.py:44-48 | A written table with a visible condition and visible states has no blank row. |
| Tables.HeaderReadBack | tock/tables.py:56-62 | The header of a written table reads back as its conditions. |
| Tables.RenderShape | tock/tables.py:42-64 | Reading a written table back takes its first row as the header and the state rows as the body. |
| Tables.ReadRowsBack | tock/tables.py:64-91 | The state rows of a table written with the start state read back as the machine's start state, accept states and transitions. |
| Tables.RoundTrip | tock/tables.py:42-160 | Writing a machine with the start state given a row, then reading the table back, gives the same start state, accept states and set of transitions. |
| Tables.StartLost | tock/tables.py:141 | As written, a start state with no outgoing transitions that is not accepting gets no row, and reading the table back raises `missing start state`. |
| Tables.ExampleStartLost | tock/tables.py:141 | A one-state machine without transitions is written as a lone blank row, which reads back as an empty table. |
| Tables.ExampleBlankHeader | tock/tables.py:143-147 | A machine without transitions has a blank header even with the start state given a row, so reading it back fails. |
| Sorting.LexTotal | tock/tables.py:143 | Comparing lists element by element under a strict total order is again a strict total order. |
| Sorting.OrdersTotal | tock/tables.py:143-149 | Python's orders on strings, on lists of symbols and on lists of stores are strict total orders. |
| Sorting.Sort | tock/tables.py:143-149 | `sorted` returns a permutation of its input, in ascending order. |
| Sorting.SortedUnique | tock/tables.py:143-149 | Two sorted permutations of the same elements are equal. |
| Sorting.SortPermutation | tock/tables.py:169 | Sorting depends only on the multiset of elements. |
| Sorting.SortSet | tock/tables.py:143-149 | Sorting the elements of a set gives each element once, in strictly ascending order. |

## Left out

- I/O: `read_csv` and `read_excel` (tock/tables.py:95-119) read a file into a table. The model starts from the table.
- Trace printing in `run_pda` (`trace=True`) only prints.
- The `syntax` module is not part of this model. It supplies the readers `string_to_state`, `string_to_config` and `string_to_configs`, the lexer, and `str` on stores. These become parameters: `Tables.Readers`, the `show` function, and the already-lexed tokens of `Pda.RunPda`.
- The `machines` module is not part of this model:
  - `from_transitions` (tock/tables.py:93) is modelled as building the machine record directly;
  - `has_stack(2)` is a field of `Pda.Automaton`;
  - the 0-based index `m.state` of the state store is taken to be 0 (tock/tables.py:135);
  - `m.states`, read by `to_grammar`, is taken to be the start state, the accept states and every state a transition leaves or enters (`Machines.PdaStates`).
- Pda.RunPda: the worklist loop runs on a fuel bound, and it may end with `FuelExhausted`. The source's loop terminates because the set of items over a fixed window is finite. That argument is not made here.
- Pda.RunPda: the run is proved sound for the automaton's behaviour on whole stacks (`Pda.RunSound`), not complete. The model does not prove three things. It does not prove that every reachable configuration's view is a node. It does not prove that the run has an accept node exactly when the automaton accepts. It does not prove that acceptance is independent of the window.
- Pda.RunPda: the edges are bounded from below and from above, not given exactly. An antecedent that reaches a Push or Pop item's node after that item was processed is not passed on (tock/pda.py:113-114, 121-122, 136-137). So the exact edge set can depend on the processing order.
- The engine uses the corrected `Pda.Engine.PopRule` (see "## Findings"). `Pda.Engine.PopRuleAsWritten` models the source's copy under the leaked `grandparent`. Nothing proved about the worklist invariant is claimed for that version.
- The axiom is put on the agenda without being charted (tock/pda.py:82), so it may be processed twice. The model keeps this; the invariant allows it.
- Error messages and cell coordinates are not modelled, only which error is raised:
  - `ValueError` and `NotImplementedError` become `TableError` and `GrammarError` values;
  - the `IndexError` of `etable[0]` on a blank table becomes `EmptyTable`;
  - a row with too few cells raises before its cells are read (`WrongCells`).
- Tables.ReadRow: the `except` blocks at tock/tables.py:60-62, 75-77 and 86-88 read `e.message` before re-raising. Python 3 exceptions have no `message` attribute. So, as written, the duplicate start of line 70 raises `AttributeError` in the handler at line 76, not the `ValueError`. A reader exception without `message` does the same at lines 61, 76 and 87. The model returns the error the handlers mean to re-raise: `DuplicateStart` and `BadCell`. `WrongCells` (line 81) and `MissingStart` (line 91) are raised outside any handler and are as written.
- Tables.FromTable: the same as `Tables.ReadRow` for the header cells (tock/tables.py:60-62). A failing reader gives `BadCell`, where the source may raise `AttributeError`.
- PdaToGrammar.Assemble, PdaToGrammar.Construct, PdaToGrammar.ToGrammarAsWritten, PdaToGrammar.ToGrammar: the grammar's rules are given as a set (`Elems(g.rules)`), not as the list the source builds. The list order (pair rules, then concatenation rules, then ε rules, as at tock/grammars.py:215-231) and any duplicates are not modelled. Two stack symbols can give the same pair rule A_pq -> a A_rs b. Neither changes the language.
- The `TypeError` of `to_grammar` for a machine that is not a pushdown automaton (tock/grammars.py:176-177) is left out. So is the unpacking error for a transition of the wrong shape (tock/grammars.py:183-184). `PdaToGrammar` takes a pushdown automaton whose transitions have that shape by type.
- `_read_rules` (tock/grammars.py:108-122) parses the rules with the `syntax` module. `TopDown.FromGrammarTopdown` takes the rules already parsed. The `IndexError` on an empty rule list becomes `NoRules`.
- `from_grammar` (tock/grammars.py:98-106) only dispatches to `from_grammar_topdown`.
- HTML and text rendering are left out: `Grammar.__str__`, `Grammar._repr_html_`, `Table._repr_html_` and `Tuple`. `Tuple` is the nonterminal A_pq, modelled as `Grammars.Pair`.
- Tables.RoundTrip: it assumes readers that undo the writing, some condition cell that is not blank, and state names that are not blank. A machine without transitions has no conditions, so its header row is blank and is skipped, even by the corrected `ToTable` (`Tables.ExampleBlankHeader`).
- Sorting.Sort: it stands for Python's `sorted` under a strict total order. Python's comparison of stores and of mixed types is not modelled beyond strings and lists of them.

## Findings

| source | as written | input that shows it | evidently intended | confidence | as-written member | corrected member |
|---|---|---|---|---|---|---|
| tock/grammars.py:82-88 | `remove_useless` builds `Grammar(self.start)` and adds only the kept rules, so the only declared nonterminal is the start symbol | the context-free grammar S -> A, A -> a: both rules are kept, but A is no longer a nonterminal, so the result is not context-free | the useful nonterminals are declared in the new grammar as well, so the result is again context-free | not executed | Grammars.Grammar.RemoveUselessAsWritten, Grammars.RemoveUselessAsWrittenNotContextFree | Grammars.Grammar.RemoveUseless |
| tock/grammars.py:222-231 | the rules A_pq -> A_pr A_rq and A_pp -> ε range over `m.states` only, not over the added states `start`, `accept` and `empty` | q0 reads a and pushes u; q1 reads b and pops u; q1 reads c and pushes v; q2 accepts. Deriving `abc` needs A_(q0,empty) -> A_(q0,q1) A_(q1,empty). That rule is missing (proved). Without it `abc` cannot be derived (argued by hand, not proved) | the concatenation and ε rules also range over the added states | not executed | PdaToGrammar.ToGrammarAsWritten, PdaToGrammar.ExampleMissingRule | PdaToGrammar.ToGrammar |
| tock/tables.py:141 | only the sources of transitions and the accept states get a row | a start state with no outgoing transitions that is not accepting: its table has no row marked `>`, and `from_table` raises `missing start state` | the start state always gets a row, so reading the table back gives the machine's start state, accept states and transitions | not executed | Tables.ToTableAsWritten, Tables.StartLost | Tables.ToTable, Tables.RoundTrip |
| tock/pda.py:133-137 | the Pop rule copies the antecedents after its loop over `index_right[parent]`, to `simplify(grandparent, aunt)` for the `grandparent` the loop leaves bound, so only one aunt's node receives them | window 1, input empty, start state s with an empty stack, transitions s → r pushing CD, s → q pushing AB, r popping C → q pushing AB, q popping A → f, accepting in f. Both `None` and (r, CD) are recorded in `index_right[(q, AB)]` before the Pop item (q, AB) ⇒ (f, ε) is processed. Its aunts' nodes are (f, B) and (f, B, ...), and one of them gets no edge from (q, A, ...) | the copy is inside the loop, so every aunt's node receives the antecedents | not executed; the run was traced by hand, and the copy is proved on the state it reaches | Pda.Engine.PopRuleAsWritten, Pda.PopCopyMissed | Pda.Engine.PopRule, Pda.PopCopyReaches |
