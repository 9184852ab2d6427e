# Elkhound, modelled and proved

Elkhound is a generator of GLR parsers with a run-time library. This project models its three
connected parts in Dafny and proves what they are for:

* **The GLR engine** (`elkhound/glr.cc`): the graph-structured stack, the priority worklist of
  reductions, the shift phase, the deterministic fast path ("mini-LR"), the determinism depths and the
  end of the parse. Against a nondeterministic LR machine and parse trees it is proved that after every
  token the graph spells exactly the machine's stacks, that each enabled path is reduced exactly once,
  that every link derives exactly the tokens it spans, that the worklist terminates for every grammar,
  that yield-then-merge never happens for an acyclic grammar, and that then the tree returned stands for
  exactly the parse trees of the input. Whatever conflict resolution has dropped, it stands for exactly the
  trees that the machine of the tables builds, and whatever the user cancels, it has only nodes that were kept.
* **Grammar analysis** (`elkhound/gramanl.cc`, `TerminalSet` of `elkhound/grammar.cc`): the derivability
  matrix, First sets, item closure, the LALR(1) construction, the nonterminal order, the numbering of the
  states, conflict resolution, table filling, the shortest left context and sample inputs.
* **Parse tables** (`elkhound/parsetables.cc`): cell encoding, error bitmap, graph colouring, merging of
  columns and rows, and the way back through queries and decoders, as the parser reads them.

`ParserGenerator.Recognize` puts the first two together, from a grammar and its declarations through the
generated tables to the parser; `PackedGenerator.GeneratePacked` joins the third to them.

## How it is organised

| files | content |
|---|---|
| `Grammars`, `LrMachine`, `ValuedMachine`, `Rewriting`, `Language` | grammars and parse trees, the nondeterministic LR machine without and with trees, sentential forms, what the machine reads |
| `Gss`, `PathQueue`, `Worklist` | the graph-structured stack and one step of the worklist, as functions on values |
| `ExactlyOnce`, `Derivations`, `Stacks`, `YieldThenMerge`, `CompleteForest`, `AllTrees`, `Phase` | what every step of the worklist keeps, and what holds when it is empty |
| `LinkHistory`, `BuiltTrees`, `MachineTrees` | what comes onto each link in which order, what the user keeps, which trees the tables allow |
| `ShiftPhase`, `DeterminDepth`, `MiniLr`, `Acceptance` | shifting, depths, the fast path, the end of input |
| `StackLoops`, `FastPathLoops`, `HiddenLeftRecursion`, `CyclicTrees` | when the fast path runs forever; why cycles have no complete forest |
| `GlrParser` | the classes `ReductionPathQueue` and `GLR`, whose methods change the graph and the queue in place |
| `Derivability`, `DerivabilityMatrix`, `NontermOrder`, `TerminalSets`, `FirstSets` | the analyses of the grammar |
| `ItemClosure`, `LrItemSets`, `LrConstruction`, `LrAutomaton` | item sets, their construction, what they mean |
| `ConflictResolution`, `NonassocConflict`, `TableBuilding`, `StateNumbering` | declarations, the tables, the numbers of the states |
| `DeclaredCells`, `OperatorTrees` | what the declarations make of a cell, and of the trees |
| `RealLookaheads`, `FastPath`, `ParserGenerator` | what generated tables guarantee to the fast path; everything together |
| `LeftContext`, `SampleInput` | shortest left contexts and sample inputs |
| `GraphColoring`, `ErrorBitmap`, `TableCompression`, `TableEncoding`, `TablePacking`, `PackedGenerator`, `FiniteSets` | the tables' encoding and compression |

Methods of the classes are specified by functions on values (`Worklist.Step` is one turn of the worklist
loop, `ShiftPhase.ShiftedFrom` the result of the shift phase), and the theorems are lemmas about these.

## What turned out to be false

* `computeWhatCanDeriveWhat` does not count `A => empty` as a change, so it can stop too early. The loop is
  kept as it is; `DerivabilityMatrix.EarlyStop` is a grammar on which it stops too early, and the relation is
  complete if and only if `StopsEarly` does not hold, a condition on the order of the productions that can be
  read off the grammar. The parser generated from such a relation still accepts sentences only.
* The fast path can run forever on a token that the full algorithm would deal with.
  `HiddenLeftRecursion.FastPathCanHang` is a grammar without cycles, with the tables that a declared
  precedence leaves of its automaton, on which it hangs on the first token of a sentence. For any tables it
  can hang on a token if and only if the tables have a loop under that token (`FastPathLoops.HangsExactly`):
  a state that reductions replace until it is back, or one that they stack upon itself. Both are seen from at
  most two states, without an input. Tables of an acyclic grammar with nothing dropped have no loop
  (`FastPath.FastPathHalts`), and where there is one, a token that can be read does no harm.
* The tree returned stands for parse trees only, but for all of them only if yield-then-merge does not happen:
  if a parse tree of the input has a node that takes part in a cycle, no finite forest has all parse trees
  (`CyclicTrees.NoForestForCycles`).
* A nonassociative token need not make its cell an error. `resolveConflicts` compares the shift with one
  reduction after the other and stops at the first that removes it, so what is left can depend on the order in
  which the items of the state are listed: `NonassocConflict.NonassocLeavesOne` has a grammar whose cell is one
  of two different reductions, and never an error. The order makes no difference if and only if whatever is
  spared in this way is outranked by another reduction all the same (`ConflictResolution.OrderMatters`);
  without maximal munch, and on a token that is not nonassociative, it never does.
* The loop that repairs the determinism depths is guarded against 1000 sweeps; two always suffice
  (`DeterminDepth.RepairDepths`), because the frontier is in creation order and first links point backwards.
* An entry (A, A) is preset in the derivability matrix, so a production A -> A never makes A `cyclic`; a flag
  is set exactly if another nonterminal and A derive each other. Acyclicity below means the real thing.

## Model

| member | source | states |
|---|---|---|
| Gss.EnumExact | elkhound/glr.cc:2274-2308 | the recursive search with a required link finds a path if and only if the path has the right length, ends where asked and contains the link |
| Gss.EnumDistinct | elkhound/glr.cc:92-95 | the search finds no path twice |
| PathQueue.InsertSorted | elkhound/glr.cc:1836-1870 | inserting keeps the queue in priority order |
| PathQueue.InsertCounts | elkhound/glr.cc:1836-1870 | inserting adds exactly the one path and loses none |
| Worklist.EnqueuedAllExact | elkhound/glr.cc:2003-2012 | revisiting the frontier enqueues, each once, exactly the enabled paths that use the required link |
| Worklist.YieldKeepsLinks | elkhound/glr.cc:1946-1978 | yielding changes no link value, and marks exactly the links on the path as yielded |
| GlrParser.ReductionPathQueue.InsertPathCopy | elkhound/glr.cc:1836-1870 | walking past the paths that go before the new one is the ordered insertion |
| GlrParser.ReductionPathQueue.Dequeue | elkhound/glr.cc:1898-1903 | takes the first path and leaves the rest |
| GlrParser.GLR.FindTopmostParser | elkhound/glr.cc:1627-1646 | finds the topmost parser in a state, none if there is none |
| GlrParser.GLR.GetLinkTo | elkhound/glr.cc:506-521 | a link is found if and only if the two nodes are linked |
| GlrParser.GLR.AddSiblingLink | elkhound/glr.cc:417-481 | the new link, its value, and the depth: one more than the sibling for a first link, zero for a further one |
| GlrParser.GLR.MakeStackNode | elkhound/glr.cc:351-364 | a new node without links, of depth one, in the current column |
| GlrParser.GLR.RwlRecursiveEnqueue | elkhound/glr.cc:2257-2308 | enqueues exactly the enumerated paths with the required link, in order of discovery |
| GlrParser.GLR.RwlCollectPathLink | elkhound/glr.cc:2257-2272 | goes on along the link, requiring it no longer once taken |
| GlrParser.GLR.RwlEnqueueReductions | elkhound/glr.cc:2209-2253 | enqueues the paths of all reductions of the entry, for an ambiguous one all of its actions; returns the number of actions |
| GlrParser.GLR.HasReferrer | elkhound/glr.cc:2141-2144 | tells whether some node ever created points at the node, which decides whether depths are repaired; a node that none points at needs no repair |
| GlrParser.GLR.RwlShiftNonterminal | elkhound/glr.cc:2031-2194 | drops, merges, links or pushes as the specification of a step says; a link is returned exactly if one was added between existing nodes; depths stay right |
| GlrParser.GLR.YieldValues | elkhound/glr.cc:1946-1978 | passes on the values of the links along the path, left to right, and counts each as yielded once more |
| GlrParser.GLR.ProcessPath | elkhound/glr.cc:1918-2016 | one turn of the worklist loop: the step of the specification, and if the user cancels the reduction, nothing but its path leaves the queue: no node, parser or link comes or goes |
| GlrParser.GLR.RwlProcessWorklist | elkhound/glr.cc:1913-2018 | terminates with an empty queue; keeps all invariants of the phase; has reduced exactly the enabled paths; counts no yield-then-merge when the order is exact, and in any case one for each step of the run that gives another value to a link whose value was handed out |
| PathQueue.InsertAt | elkhound/glr.cc:1836-1870 | a path comes behind all that it does not go before, those with equal keys included, and before the first that it goes before |
| ExactlyOnce.StepOnce | elkhound/glr.cc:86-95 | a step dequeues a path not reduced before; afterwards reduced and queued paths are still, without repetition, exactly the enabled ones |
| ExactlyOnce.EnabledByLink | elkhound/glr.cc:2121-2135 | the paths that a new link enables are exactly the ones through it |
| ExactlyOnce.EnabledByNode | elkhound/glr.cc:2178-2192 | the paths that a new node enables are exactly the ones that end in it |
| ExactlyOnce.StepTerminates | elkhound/glr.cc:1913-2018 | each step uses up room for a link or else shortens the queue, for every grammar |
| ExactlyOnce.StepShape | elkhound/glr.cc:30-46 | steps keep one parser per state, at most one link between two nodes, links that follow the tables |
| Derivations.ChainDerives | elkhound/glr.cc:1946-1985 | the values along a path derive, in order, exactly the tokens between its end columns |
| Derivations.StepDerives | elkhound/glr.cc:2031-2194 | every link value, merged ones included, derives exactly the tokens between the columns of its nodes |
| ShiftPhase.ShiftDerives | elkhound/glr.cc:2395-2409 | a shifted token derives itself |
| Stacks.StepSound | elkhound/glr.cc:1913-2018 | a step adds no stack that the machine could not reach by reductions |
| Stacks.StepComplete | elkhound/glr.cc:1913-2018 | a step loses no stack, and a kept reduction is on the graph for good |
| Stacks.ReducedStacks | elkhound/glr.cc:1451-1453 | when the worklist is empty the graph spells exactly the stacks the machine reaches by reductions |
| ShiftPhase.ShiftStacks | elkhound/glr.cc:2313-2419 | shifting turns the spelled stacks into exactly the machine stacks after the shift |
| ShiftPhase.FrontierAfterShift | elkhound/glr.cc:30-46 | after shifting, the parsers have distinct states, nothing links to them, nothing is yielded yet, and the graph is well formed |
| Phase.EndPhase | elkhound/glr.cc:1451-1456 | at the end of the reductions: no stack too many; exactly the reachable stacks when nothing is cancelled; with an exact order also a complete forest |
| YieldThenMerge.PathAfterItsLinks | elkhound/glr.cc:2197-2206 | any path through a link added during this token has a key strictly after the key of the link, if the order is exact |
| YieldThenMerge.NewPathNotBefore | elkhound/glr.cc:2185-2187 | a path enqueued later, onto a node that existed when a path was dequeued, does not go before that path |
| YieldThenMerge.StepHistory | elkhound/glr.cc:1782-1786 | the record of dequeued keys stays valid although the sequence of keys is not monotone |
| YieldThenMerge.StepNeverMergesYielded | elkhound/glr.cc:98-101 | with an exact order no step merges into a link that has been yielded |
| YieldThenMerge.StepCountsLate | elkhound/glr.cc:2090-2108 | a step counts one yield-then-merge exactly if it gives another value to a link whose value was handed out, however often |
| LinkHistory.StepArrives | elkhound/glr.cc:2031-2194 | a step appends the reduced value to the alternatives of one link, the one from the goto parser to the left end of the path, unless it was there and its parser has no action; no other link changes its alternatives |
| LinkHistory.RunArrives | elkhound/glr.cc:2090-2108 | after any number of steps a link holds what it held before and then exactly the values reduced onto it, each once, in the order of the reductions |
| CompleteForest.StepForest | elkhound/glr.cc:2090-2108 | without yield-then-merge every reduction done so far, computed from the final link values, is among the alternatives of its link |
| Language.EveryTreeIsBuilt | elkhound/glr.cc:823-1044 | without dropped actions the machine with trees builds every parse tree of the input |
| AllTrees.ChosenProduces | elkhound/glr.cc:2090-2108 | whatever alternatives are chosen in a tree with merges, the result is a parse tree of the same tokens |
| AllTrees.StepKeepsTrees | elkhound/glr.cc:1913-2018 | a step of the worklist loses no stack, and every link still offers every tree it offered |
| AllTrees.RunCovered | elkhound/glr.cc:2090-2108 | when all reductions are done without yield-then-merge, every stack with trees that the machine can build and that has an action on the token is spelled by a path whose links offer these trees |
| AllTrees.FullAlgorithmFollows | elkhound/glr.cc:1425-1467 | so every stack with trees that the machine holds after the token is offered by the graph after the token |
| AllTrees.DetReduceRemains | elkhound/glr.cc:1106-1356 | a fast reduction loses none of them |
| AllTrees.TopOffers | elkhound/glr.cc:1543-1583 | the tree put together at the end offers every tree that the machine builds |
| BuiltTrees.StepBuilds | elkhound/glr.cc:1985-1999 | after a step still every value on a link, with all its alternatives, is one that the machine of the tables can build there from values the user keeps |
| BuiltTrees.DetReduceBuilds | elkhound/glr.cc:1278-1326 | so is it after a fast reduction that the user keeps |
| BuiltTrees.ReductionBuilt | elkhound/glr.cc:1946-1985 | the value of an enabled path can be built before the current token, if the user keeps it, and leads to the goto state |
| BuiltTrees.VetoedStep | elkhound/glr.cc:1993-1996 | a reduction that the user cancels changes no node, no parser, no link and no value, and takes only its own path out of the queue |
| BuiltTrees.BuiltIsKept | elkhound/glr.cc:1985-1999 | every node of a tree that can be built, under merges too, is one that the user keeps |
| MachineTrees.ChosenIsRead | elkhound/glr.cc:823-1044 | whatever alternatives are chosen in the tree returned, the machine of the tables, as conflict resolution left them, builds the result on the whole input |
| CyclicTrees.NoForestForCycles | elkhound/glr.cc:98-101 | if a parse tree of the input has a node of a nonterminal that derives itself, no tree with merges stands for all parse trees |
| DeterminDepth.ShallowPathIsUnique | elkhound/glr.cc:1111-1111 | a reduction no longer than the depth has one path to pop, the one along first links |
| DeterminDepth.DeeperIsAmbiguous | elkhound/glr.cc:417-481 | and the depth is the greatest such number: one link further there are two paths, unless the bottom of the stack is in between |
| DeterminDepth.RepairDepths | elkhound/glr.cc:2141-2163 | repairing the topmost parsers alone makes every depth right, within two sweeps |
| DeterminDepth.DepthOfOthers | elkhound/glr.cc:2137-2147 | a link added to a node that nothing points at changes no other depth |
| MiniLr.PoppedIsOnlyPath | elkhound/glr.cc:1111-1190 | the path the fast path pops is the only one the full algorithm would find, and its goto exists |
| MiniLr.DetReduceRefines | elkhound/glr.cc:1106-1356 | a fast reduction changes nothing about the stacks after the token |
| MiniLr.DetShiftRefines | elkhound/glr.cc:1368-1405 | where the fast path shifts, no reduction was possible |
| MiniLr.DetErrorRefines | elkhound/glr.cc:1092-1097 | where the fast path gives up at once, no stack survives the token |
| MiniLr.DetReduceDerives | elkhound/glr.cc:1278-1326 | fast reductions keep every link deriving its tokens |
| MiniLr.ViableTokenHalts | elkhound/glr.cc:1074-1416 | on a token that some stack survives the fast path stops |
| RealLookaheads.LookaheadsAreRealised | elkhound/gramanl.cc:2562-2831 | every state is reached, and every lookahead of every item comes up on a stack that can go on to shift it |
| RealLookaheads.GetsToShift | elkhound/gramanl.cc:1862-1866 | if what follows the dot begins with a terminal, the machine can get to shift that terminal |
| FastPath.FollowToPop | elkhound/glr.cc:1074-1088 | above a state the fast path follows the machine's run, whatever is below, until it halts or pops that state |
| FastPath.RankFalls | elkhound/gramanl.cc:1298-1328 | without cycles, a nonterminal that replaces a symbol alone is derived by strictly fewer nonterminals |
| FastPath.FastPathHalts | elkhound/glr.cc:1074-1416 | with tables generated from an acyclic grammar the fast path halts on every stack and token |
| StackLoops.LoopsExactly | elkhound/glr.cc:1074-1416 | some stack along the tables is reduced forever under a token if and only if some state is replaced until it is back or stacked upon itself, which can be read off the tables |
| StackLoops.AlwaysHaltsExactly | elkhound/glr.cc:1074-1416 | reductions end on every stack under every token if and only if there is no such loop |
| FastPathLoops.HangsExactly | elkhound/glr.cc:1074-1416 | when the user keeps every value, the fast path hangs on some graph under a token, where no stack survives it, if and only if the tables have a loop under the token |
| FastPathLoops.NoLoopHalts | elkhound/glr.cc:1074-1416 | without a loop under the token the fast path stops on every graph at rest |
| HiddenLeftRecursion.FastPathCanHang | elkhound/glr.cc:1074-1416 | a grammar without cycles, its automaton, and tables whose cells are what conflict resolution leaves: the fast path hangs in the start state on the first token of a sentence |
| GlrParser.GLR.DeterministicParseToken | elkhound/glr.cc:1057-1420 | terminates, asking only that a token with a loop can be read; fails only at an error or at a reduction that the user cancels, and without cancelling only if no stack survives the token; leaves to the full algorithm only several parsers, several actions, too long a reduction or an error it cannot be sure of, with the stacks after the token, and the trees they can carry, as they were; success gives exactly these |
| GlrParser.GLR.StartParse | elkhound/glr.cc:933-939 | one node in the start state, no links, column zero |
| GlrParser.GLR.PopNodes | elkhound/glr.cc:1184-1269 | the values along the popped nodes, left to right, and the node left on top |
| GlrParser.GLR.PushDeterministic | elkhound/glr.cc:1278-1326 | the only stack with the popped part replaced by the goto state |
| GlrParser.GLR.ShiftDeterministic | elkhound/glr.cc:1368-1405 | the same result as the shift phase with this one parser |
| GlrParser.GLR.RwlShiftTerminals | elkhound/glr.cc:2313-2419 | the column advances and all parsers that can have shifted, merged by state, each link carrying the token |
| GlrParser.GLR.NondeterministicParseToken | elkhound/glr.cc:1425-1467 | one token: exactly the machine's stacks (no others when reductions are cancelled); failure exactly if no parser is left; no yield-then-merge with an exact order |
| GlrParser.GLR.ParseToken | elkhound/glr.cc:998-1016 | the fast path with its fallback: exactly the stacks of the machine after the token, and every tree it can build, whichever path is taken |
| GlrParser.GLR.ReadAll | elkhound/glr.cc:950-1033 | token by token up to the end of input: the stacks of the machine, every tree it can build, and at the end one topmost parser |
| GlrParser.GLR.CleanupAfterParse | elkhound/glr.cc:1543-1583 | both unique-link assertions hold, and the value returned is a parse tree of the whole input |
| GlrParser.GLR.GlrParse | elkhound/glr.cc:823-1044 | accepts exactly if the machine reads the input; the tree derives the input from the start symbol, the user has kept every node of it below the root, and the machine of the tables can build it; with an exact order it offers every tree that the machine builds; no yield-then-merge with an exact order |
| Acceptance.FinalTopIsUnique | elkhound/glr.cc:499-503 | when end of input occurs only in the start production, one parser is left and it and its sibling have one link each |
| Acceptance.AugmentedGivesEofShape | elkhound/glr.cc:1555-1563 | an automaton of such a grammar shifts end of input only in the state after the start symbol |
| LrMachine.SoundAutomatonGivesValidTables | elkhound/gramanl.cc:3505-3664 | tables taken from a sound automaton are valid: every path into a state that reduces by a production spells its right-hand side, and the goto exists |
| Language.ReadingDerives | elkhound/glr.cc:823-1044 | whatever the machine reads to the end is generated by the grammar |
| Language.LanguageIsRead | elkhound/glr.cc:823-1044 | whatever the grammar generates is read by the machine of a complete automaton |
| Language.MachineReadsLanguage | elkhound/glr.cc:823-1044 | without conflict resolution the machine reads exactly the language |
| Derivability.SettledIsComplete | elkhound/gramanl.cc:1700-1832 | a relation that no production and no closure step adds to contains every derivation |
| Derivability.SoundByProduction | elkhound/gramanl.cc:1744-1776 | an entry made because the other symbols of a production vanish is a derivation |
| Rewriting.DerivesAloneMeans | elkhound/gramanl.cc:1298-1302 | a chain of unit steps from A to B exists if and only if A =>* B on sentential forms |
| Rewriting.NullableMeans | elkhound/gramanl.cc:1360-1363 | a symbol has an empty parse tree if and only if it rewrites to the empty form |
| Rewriting.FirstMeans | elkhound/gramanl.cc:1862-1866 | a form begins with a terminal, by productions and nullable prefixes, if and only if it rewrites to a form starting with it |
| DerivabilityMatrix.Analysis.AddDerivable | elkhound/gramanl.cc:1296-1328 | adds the entry and no other, reports whether it was missing, flags the nonterminal when it is said to derive itself |
| DerivabilityMatrix.Analysis.ScanProduction | elkhound/gramanl.cc:1723-1787 | adds each symbol that the others let the left side derive alone; reports no change exactly if nothing was new |
| DerivabilityMatrix.Analysis.CloseStep | elkhound/gramanl.cc:1802-1823 | adds compositions; reports no change exactly if the relation was closed |
| DerivabilityMatrix.Analysis.ComputeWhatCanDeriveWhat | elkhound/gramanl.cc:1698-1832 | terminates; every entry is a derivation; reflexive and closed; complete exactly if empty productions count as changes or the first sweep does not stop early; cyclic flags exactly the mutually deriving nonterminals |
| DerivabilityMatrix.EarlyStop | elkhound/gramanl.cc:1718-1720 | a grammar with a derivation that the loop as written misses |
| DerivabilityMatrix.CompleteIsSettled | elkhound/gramanl.cc:1700-1832 | a sound and complete relation is one that the analysis adds nothing to |
| DerivabilityMatrix.FlagsAndCycles | elkhound/gramanl.cc:1296-1328 | of an exact relation: a nonterminal derives itself in one step or more exactly if it and another derive each other, which is flagged, or it has a direct step to itself, which is not |
| DerivabilityMatrix.Analysis.ScanSymbol | elkhound/gramanl.cc:1736-1776 | one symbol: added exactly if the rest vanishes and it is new |
| DerivabilityMatrix.Analysis.CloseEdge | elkhound/gramanl.cc:1806-1822 | all edges out of one edge; flags a nonterminal on a way back to itself |
| NontermOrder.Topology.Place | elkhound/gramanl.cc:3754-3756 | the next lower ordinal goes to the nonterminal, later than everything that derives it |
| NontermOrder.Topology.TopologicalSort | elkhound/gramanl.cc:3729-3757 | marks and places everything that derives the nonterminal and is not yet placed, the nonterminal last, each on its own ordinal |
| NontermOrder.Topology.SortAll | elkhound/gramanl.cc:3696-3705 | the ordinals are a permutation of 0 to n-1 and none is left; for a transitive relation the order respects it exactly if the relation is antisymmetric |
| NontermOrder.SortedOrderIsExact | elkhound/gramanl.cc:3740-3752 | the order the sort finds is exact if and only if the grammar is acyclic |
| TerminalSets.TerminalSet.Contains | elkhound/grammar.cc:474-478 | the bit test is membership |
| TerminalSets.TerminalSet.IsEqual | elkhound/grammar.cc:481-485 | equal bytes if and only if equal sets |
| TerminalSets.TerminalSet.Add | elkhound/grammar.cc:488-492 | adds one member and changes no other |
| TerminalSets.TerminalSet.Remove | elkhound/grammar.cc:495-499 | removes one member and changes no other |
| TerminalSets.TerminalSet.Merge | elkhound/grammar.cc:515-527 | union in place; reports a change exactly if the set grew |
| TerminalSets.TerminalSet.RemoveSet | elkhound/grammar.cc:530-543 | difference in place; reports a change exactly if the set shrank |
| TerminalSets.TerminalSet.Clear | elkhound/grammar.cc:502-505 | the empty set |
| TerminalSets.TerminalSet.Copy | elkhound/grammar.cc:508-512 | the same members as the other set |
| TerminalSets.BitsEqual | elkhound/grammar.cc:481-485 | two bitmaps of one length hold the same set if and only if they are equal |
| FirstSets.ClosedIsExact | elkhound/gramanl.cc:1862-1866 | sets that are sound and that no production adds to are First(N) = { x : N =>* x alpha }, if everything that vanishes is known to |
| FirstSets.SeqFirstExact | elkhound/gramanl.cc:1937-1964 | of exact sets, the set computed along a sequence is First of the sequence, if everything that vanishes is known to |
| FirstSets.FirstAnalysis.FirstOfIterSeq | elkhound/gramanl.cc:1937-1964 | adds to the destination exactly the set computed along the sequence |
| FirstSets.FirstAnalysis.AddProduction | elkhound/gramanl.cc:1884-1910 | one production: First of its right side goes to it and to the left side, and a change is reported exactly if the left side grew |
| FirstSets.FirstAnalysis.ComputeFirst | elkhound/gramanl.cc:1874-1922 | terminates with First sets that hold nothing else, and everything if everything that vanishes is known to |
| FirstSets.FirstAnalysis.IterSeqCanDeriveEmpty | elkhound/gramanl.cc:1372-1387 | true only if the sequence rewrites to nothing, and whenever it does if everything that vanishes is known to |
| FirstSets.FirstAnalysis.ComputeDProdFirsts | elkhound/gramanl.cc:1967-1985 | what every dotted production knows of its suffix is true, and all there is to know if everything that vanishes is known to |
| ParserGenerator.MakeDottedProductions | elkhound/gramanl.cc:1512-1541 | one dotted production for every production and dot position |
| ItemClosure.ClosureIsUnique | elkhound/gramanl.cc:2167-2250 | the least closed item set is unique |
| ItemClosure.OldClosureStarts | elkhound/gramanl.cc:2199-2208 | after kernel lookaheads have grown, the old nonkernel items are a valid start for closing again |
| ItemClosure.ClosureWork.AddLookahead | elkhound/gramanl.cc:2350-2415 | the item gets the lookahead joined to what it has; it is on the worklist exactly if a back pointer says so; nothing moves if nothing was new |
| ItemClosure.ClosureWork.SingleItemClosure | elkhound/gramanl.cc:2254-2421 | everything the item implies, less what is forbidden, is there afterwards, and nothing that is not needed |
| ItemClosure.ClosureWork.Pop | elkhound/gramanl.cc:2210-2219 | the last item leaves the worklist for the finished ones, its back pointer cleared |
| ItemClosure.ClosureWork.CloseKernel | elkhound/gramanl.cc:2199-2208 | the kernel items are closed into the worklist, the old nonkernel items are still closed |
| ItemClosure.ClosureWork.ItemSetClosure | elkhound/gramanl.cc:2167-2250 | terminates with the least closed item set, from scratch or from the old nonkernel items; worklist and back pointers are empty |
| LrItemSets.SameCoreSameItems | elkhound/gramanl.cc:631-649 | closures of kernels with the same core have the same items, whatever the lookaheads |
| LrItemSets.MergeBuilt | elkhound/gramanl.cc:2718-2767 | merging lookaheads into an existing state keeps the graph: distinct cores, exact transitions, nothing that is not needed |
| LrItemSets.NewBuilt | elkhound/gramanl.cc:2768-2790 | so does adding a state |
| LrConstruction.LrSets.MoveDotNoClosure | elkhound/gramanl.cc:2452-2515 | the items with the dot moved over the symbol, lookaheads unchanged |
| LrConstruction.LrSets.FindItemSet | elkhound/gramanl.cc:2521-2532 | finds the state with the given core, none only if no state has it |
| LrConstruction.LrSets.MergeLookaheadsInto | elkhound/gramanl.cc:788-817 | item by item union; reports a change exactly if something changed |
| LrConstruction.LrSets.SetTransition | elkhound/gramanl.cc:2696-2790 | one transition: merged into the state with that core, which is closed again and requeued when it grew, or a new pending state; all other states stay settled |
| LrConstruction.LrSets.ProcessItemSet | elkhound/gramanl.cc:2633-2812 | one state of the worklist: afterwards every state is closed and every finished state carries its lookaheads on |
| LrConstruction.LrSets.CloseMyself | elkhound/gramanl.cc:2805-2810 | after the postponed closure every state is settled again |
| LrConstruction.Progress | elkhound/gramanl.cc:2562-2831 | whenever the states change, cores still possible or lookaheads still possible become fewer |
| LrConstruction.LrSets.ConstructLRItemSets | elkhound/gramanl.cc:2562-2831 | terminates with distinct cores, a transition on every symbol after a dot to the state with exactly the moved core, closed states and lookaheads carried along every transition |
| LrAutomaton.FinishedIsSound | elkhound/gramanl.cc:2562-2831 | the finished states form a sound automaton, each state but the first entered by a transition |
| LrAutomaton.FinishedIsComplete | elkhound/gramanl.cc:2562-2831 | closure and transitions leave out nothing the grammar allows to follow, except before a production the terminals it forbids |
| LrAutomaton.LookaheadsAreLeastFixpoint | elkhound/gramanl.cc:2562-2831 | the item sets are the least family that closure and transitions add nothing to, despite requeued states and the postponed self-closure |
| LrAutomaton.GivesExactly | elkhound/gramanl.cc:2300-2340 | with exact First sets an item gives to a production for the nonterminal after its dot exactly the terminals that begin what follows, and its own lookahead if that vanishes, but none that the production forbids |
| LrAutomaton.NothingElseForbidden | elkhound/gramanl.cc:2300-2340 | so every state offers the production all of these |
| LrAutomaton.ClosureForbids | elkhound/gramanl.cc:2337-2339 | in a closed item set no item with the dot at the beginning has a lookahead that its production forbids |
| LrAutomaton.StatesForbid | elkhound/gramanl.cc:2337-2339 | nor has one in any state, wherever the dot is |
| ParserGenerator.NoneIsForbidden | elkhound/gramanl.cc:2337-2339 | so no cell of the tables reduces before a terminal that the production forbids |
| TableBuilding.FillCell | elkhound/gramanl.cc:3560-3611 | a cell holds what the declarations leave of the shift and the possible reductions, the shift first, each reduction once |
| TableBuilding.PossibleReductions | elkhound/gramanl.cc:740-785 | every production whose item is complete in the state with the token in its lookahead, each once, and no other |
| TableBuilding.ResolvedMeans | elkhound/gramanl.cc:3096-3260 | such a cell is well formed, holds possible actions only, all of them if nothing is declared, and one at most if no ambiguity is allowed |
| TableBuilding.FillActionRow | elkhound/gramanl.cc:3558-3614 | every cell of the row is resolved from its item set, earlier rows are kept |
| TableBuilding.FillGotoRow | elkhound/gramanl.cc:3639-3658 | a goto for every transition on a nonterminal and no other, earlier rows are kept |
| TableBuilding.StateSymbol | elkhound/gramanl.cc:559-569 | the symbol before the dot of a kernel item, none for the start state |
| TableBuilding.ComputeParseTables | elkhound/gramanl.cc:3505-3664 | every cell is what conflict resolution leaves of the item set; actions, gotos and state symbols are those of the automaton; none is dropped if nothing is declared |
| ConflictResolution.FindMaximal | elkhound/gramanl.cc:2952-2962 | the nearest nonterminal declared maximal, going from subset to superset |
| ConflictResolution.FindExtendingShift | elkhound/gramanl.cc:820-829 | true exactly if some item of the nonterminal can go on with the token |
| ConflictResolution.HandleShiftReduceConflict | elkhound/gramanl.cc:2943-3031 | the verdict on a shift and a reduction; `DeclaredCells.VerdictMeans` says when each of them stays |
| DeclaredCells.VerdictMeans | elkhound/gramanl.cc:2943-3031 | the shift goes exactly if the nearest maximal superset of the left side cannot grow by the token and the production has the higher precedence, or the same and the token is left or nonassociative; the reduction goes exactly if that superset can grow, or the token has the higher precedence, or the same and is right or nonassociative |
| ConflictResolution.ResolveShiftReduce | elkhound/gramanl.cc:3114-3153 | the shift against one reduction after the other, until one removes it: what is left of both |
| ConflictResolution.ResolveByPrecedence | elkhound/gramanl.cc:3155-3184 | keeps the reductions without precedence and those of the highest one |
| ConflictResolution.SubsetDirectiveResolution | elkhound/gramanl.cc:3284-3337 | removes exactly the reductions whose nonterminal has, among those of the list, one declared a subset of it |
| ConflictResolution.PreferFirst | elkhound/gramanl.cc:3237-3258 | of several reductions the one by the first production is left |
| ConflictResolution.ResolveConflicts | elkhound/gramanl.cc:3096-3260 | all declarations in turn, and one action at most if no ambiguity is allowed |
| ConflictResolution.OnlyRemoves | elkhound/gramanl.cc:3096-3260 | no action is added or doubled, whatever is declared |
| ConflictResolution.UndeclaredKeepsAll | elkhound/gramanl.cc:3096-3260 | without declarations that bear on a conflict nothing is removed |
| ConflictResolution.SurvivesShift | elkhound/gramanl.cc:3114-3153 | a reduction stays exactly if it does not lose to the shift or comes after one that removes it |
| ConflictResolution.OrderMatters | elkhound/gramanl.cc:3114-3184 | the reductions left by precedence are the same for every order of the list if and only if whatever loses to the shift, but is spared after another one has removed the shift, is outranked all the same |
| ConflictResolution.LeftAndRightNeedNoOrder | elkhound/gramanl.cc:2980-3030 | without maximal munch, and if the token is not nonassociative, the order never matters |
| DeclaredCells.ResolvedObeys | elkhound/gramanl.cc:3096-3260 | from declarations and item sets alone: the entry shifts exactly if there is a transition that no possible reduction removes; it reduces, where the order of the items does not matter, by exactly the productions that do not lose to the shift, are not outranked by one that does not either, and do not give way to a subset; by the first of them, or only the shift, if no ambiguity is allowed; and a reduction that loses to a shift that no other removes is gone |
| DeclaredCells.PrecedenceAndAssociativity | elkhound/gramanl.cc:2980-3030 | the entry of a table for a shift and one reduction with precedences: the reduction if it has the higher one, the shift if the token has; between equals the reduction for left, the shift for right, an error for nonassociative, both for the other kinds if ambiguity is allowed |
| OperatorTrees.TreesObey | elkhound/gramanl.cc:2980-3030 | in no tree that such tables build has an operator e -> e t e an operand with another operator, or itself, that precedence or associativity keeps from it: not on the right if the operator goes before the token, not on the left if the token goes before the operand |
| OperatorTrees.OtherOperator | elkhound/gramanl.cc:2943-3031 | where an operator has been read, the token of any other operator on the same nonterminal can be shifted, and is in the lookahead of the reduction unless that is forbidden |
| NonassocConflict.NonassocLeavesOne | elkhound/gramanl.cc:3007-3011 | a grammar and its automaton: the cell of a nonassociative token is one of two reductions, by the order of the items, and never an error |
| StateNumbering.RenumberStatesDiff | elkhound/gramanl.cc:3378-3460 | of different states entered by one symbol the one is before that, on the first symbol on which their transitions differ, has the only transition, or the one to the smaller number; in general negative, zero or positive by entering symbol, then transitions, then the given order |
| StateNumbering.FirstDifferenceDecides | elkhound/gramanl.cc:3411-3445 | the loops over terminals and nonterminals give the result at the first symbol on which the transitions differ, whose sign tells which state has the only transition or the one to the smaller number |
| StateNumbering.MergeSort | smbase/voidlist.cc:435-517 | the same states, none after one that it should be before, for any comparison that is antisymmetric |
| StateNumbering.RenumberStates | elkhound/gramanl.cc:3357-3375 | a permutation of the states in order, the start state first |
| StateNumbering.RenumberedIsFinished | elkhound/gramanl.cc:3357-3375 | under the new numbers the states are the same least family of closed item sets |
| StateNumbering.NumberStates | elkhound/gramanl.cc:3352-3375 | afterwards the start state is first, then states entered by terminals, then by nonterminals, each by number; and of any two states entered by one symbol, the first symbol on which their transitions differ decides |
| StateNumbering.FirstStates | elkhound/gramanl.cc:3510-3548 | the assertions about the order hold, and from the first state recorded for a symbol up to any state entered by it all states are entered by it |
| StateNumbering.DeltaInRun | elkhound/gramanl.cc:3352-3356 | the distance of a state from the first of its run is not negative and less than the number of states of the run |
| ParserGenerator.GenerateTables | elkhound/gramanl.cc:4330-4360 | for every grammar and all declarations: tables of a sound automaton, its states in runs; every cell obeys the declarations, and no cell reduces where that is forbidden; if the analysis is complete, an automaton that leaves out nothing but what is forbidden, and an order that is exact if and only if the grammar is acyclic; if nothing is dropped, a complete automaton, and no loop for an acyclic grammar |
| ParserGenerator.Parse | elkhound/glr.cc:823-1044 | with tables of any sound automaton: what is accepted is a sentence, and the tree stands for parse trees of it only, indeed only for trees that the machine of the tables builds, and with an exact order for exactly these, whatever was dropped; with a complete automaton and nothing dropped every sentence is accepted, and with an exact order the tree stands for all parse trees |
| ParserGenerator.Recognize | elkhound/glr.cc:823-1044 | generate and parse, whatever is declared: accepts sentences only, and the tree stands for parse trees only, in which no operator has an operand that precedence or associativity keeps from it; if nothing is dropped, accepts every sentence, and without cycles the tree stands for all parse trees; without cycles no yield-then-merge |
| LeftContext.TransitionGraph.ComputeBFSTree | elkhound/gramanl.cc:3036-3089 | parents form a tree of shortest ways from the start state, and every transition of a reached state is covered |
| LeftContext.TransitionGraph.Encounter | elkhound/gramanl.cc:3066-3087 | a target seen for the first time gets its parent and joins the queue; any other transition is skipped |
| LeftContext.TransitionGraph.InverseTransition | elkhound/gramanl.cc:2875-2894 | finds a symbol with a transition from the one state to the other whenever there is one |
| LeftContext.NothingShorter | elkhound/gramanl.cc:3036-3089 | no symbol string drives the start state to a state in fewer steps than its depth in the tree |
| LeftContext.TransitionGraph.LeftContextOf | elkhound/gramanl.cc:3797-3819 | terminates with a symbol string that drives the start state to the state, and no shorter one does |
| SampleInput.ProductiveCanRewrite | elkhound/gramanl.cc:3951-4019 | what can be derived at all can be derived without repeating a production on the stack |
| SampleInput.Rewriter.RewriteAsTerminals | elkhound/gramanl.cc:3865-3916 | succeeds exactly if some terminal string is derivable; then appends one; on failure the output is as before; the stack is restored; for a nonterminal with a production of terminals only, the string is the right-hand side of a shortest one |
| SampleInput.Rewriter.Candidates | elkhound/gramanl.cc:3955-3987 | exactly the productions of the nonterminal that do not mention it and are not on the stack, each once: first those that expand nothing again, and among alike ones by the number of nonterminals, then by length |
| SampleInput.OrderIsPreference | elkhound/gramanl.cc:3919-3946 | in a list sorted by the comparison no production that mentions the left side of one on the stack comes before one that does not; among those alike in this the numbers of nonterminals never fall, and among equal ones the lengths never do |
| SampleInput.PlainFirst | elkhound/gramanl.cc:3919-3946 | if there are productions of terminals only, a shortest of them is tried first |
| SampleInput.Rewriter.RewriteSingleNT | elkhound/gramanl.cc:3951-4019 | the same for one nonterminal and the productions not on the stack; terminates because no production is used twice; appends a shortest right-hand side of terminals only, if there is one |
| GraphColoring.Initialize | elkhound/parsetables.cc:941-962 | no vertex coloured or blocked, degrees counted |
| GraphColoring.AdjacentColors | elkhound/parsetables.cc:993-1002 | the colours of the coloured neighbours, as many as the blocked count says |
| GraphColoring.SortInts | elkhound/parsetables.cc:1005-1005 | ascending order of the same values, each as often as before |
| GraphColoring.LowestFree | elkhound/parsetables.cc:1007-1022 | the lowest colour not among the given ones |
| GraphColoring.ChooseVertex | elkhound/parsetables.cc:968-991 | an uncoloured vertex that is most constrained, and among those least constraining |
| GraphColoring.AssignKeeps | elkhound/parsetables.cc:1024-1036 | colouring a vertex keeps the colouring proper and dense, and blocked counts equal to the coloured neighbours |
| GraphColoring.ColorTheGraph | elkhound/parsetables.cc:933-1053 | a proper, dense colouring of all vertices with at most one colour more than the greatest degree, found greedily: each vertex in its turn has the most coloured neighbours, and of those with as many the fewest uncoloured ones, and gets the lowest colour that no earlier neighbour has; the assertions at the end hold |
| ErrorBitmap.SetBit | elkhound/parsetables.cc:501-503 | one more bit, all others unchanged |
| ErrorBitmap.FillInErrorBits | elkhound/parsetables.cc:493-507 | sets exactly the bits of the error cells, each in the row its state points to |
| ErrorBitmap.SameRowSameErrors | elkhound/parsetables.cc:459-465 | two rows of bytes are equal if and only if the states have the same errors |
| ErrorBitmap.ShareRows | elkhound/parsetables.cc:450-476 | states share a row exactly if they have the same errors, and rows are numbered without gaps |
| ErrorBitmap.ComputeErrorBits | elkhound/parsetables.cc:433-490 | the bit that a state and terminal lead to is set if and only if the action is an error |
| TableCompression.ColumnGraph | elkhound/parsetables.cc:526-552 | two columns are joined exactly if they clash, and the graph is symmetric |
| TableCompression.RowGraph | elkhound/parsetables.cc:617-643 | two rows are joined exactly if they clash, and the graph is symmetric |
| TableCompression.ClashingColumns | elkhound/parsetables.cc:526-552 | two columns clash exactly if no single column could stand for both |
| TableCompression.ClashingRows | elkhound/parsetables.cc:617-643 | two rows clash exactly if no single row could stand for both |
| TableCompression.MergeColumns | elkhound/parsetables.cc:510-600 | every non-error entry survives at the merged column, every merged entry comes from one; fails exactly if a column number does not fit |
| TableCompression.MergeRows | elkhound/parsetables.cc:607-706 | the same for rows, which always succeeds |
| TableCompression.MergeTable | elkhound/parsetables.cc:738-925 | every non-error entry is found through the row pointer and the column map |
| TableCompression.CompressedTables.ActionEntryIsError | elkhound/glr.cc:1092-1097 | of tables that agree with plain ones: true exactly if the plain entry is an error |
| TableCompression.CompressedTables.GetActionEntry | elkhound/glr.cc:1441-1442 | of tables that agree with plain ones: the plain entry |
| TableCompression.CompressedTables.GetGotoEntry | elkhound/glr.cc:1293-1294 | of tables that agree with plain ones: the plain entry, unless that is never asked for |
| TableCompression.CompressedTables.QueriesAgree | elkhound/parsetables.cc:433-925 | for every state and terminal the compressed tables give the original action, and every non-error goto |
| TableCompression.Compress | elkhound/parsetables.cc:433-925 | compression yields such tables, and succeeds if the index types are wide enough |
| TableEncoding.ReadsWhatIsWritten | elkhound/parsetables.cc:248-336 | in the plain scheme a cell decodes to an action exactly if it is what the encoders write for that action |
| TableEncoding.PlainCodesDiffer | elkhound/parsetables.cc:248-336 | the cells of different actions are different, and an action other than a set has only one cell |
| TableEncoding.PlainCellsLast | elkhound/parsetables.cc:331-336 | later ambiguous sets do not change what a plain cell means |
| TableEncoding.PlainEncoder.EncodeShift | elkhound/parsetables.cc:248-256 | the cell decodes to the shift; fails only if the number does not fit |
| TableEncoding.PlainEncoder.EncodeReduce | elkhound/parsetables.cc:259-292 | the cell decodes to the reduction; fails only if the number does not fit |
| TableEncoding.PlainEncoder.EncodeAmbig | elkhound/parsetables.cc:295-336 | the cell decodes to the set, and all earlier cells still decode as before |
| TableEncoding.MakeAE | elkhound/parsetables.cc:229-244 | kind and index can both be read back; fails exactly if the index needs more than six bits |
| TableEncoding.DeltaCellsLast | elkhound/parsetables.cc:259-359 | a delta-coded cell keeps its meaning whatever is encoded later |
| TableEncoding.DeltaEncoder.EncodeShift | elkhound/parsetables.cc:248-256 | the cell decodes to the shift; fails exactly if the state is not among the first 64 of its terminal |
| TableEncoding.DeltaEncoder.EncodeReduce | elkhound/parsetables.cc:259-292 | the cell decodes to the reduction; the list of the state grows only by a production not yet in it, and it fails only if the list is longer than 64 |
| TableEncoding.DeltaEncoder.CompareAmbig | elkhound/parsetables.cc:347-359 | true exactly if the table reads as the set at that position, aligned or not |
| TableEncoding.DeltaEncoder.EncodeAmbig | elkhound/parsetables.cc:295-336 | the cell decodes to the set, if the cells of the set are distinct; a set already readable in the list of the state is not stored again; fails only if the list of the state gets longer than 64 |
| TableEncoding.CountFits | elkhound/parsetables.cc:295-336 | a set of distinct cells has at most 129 of them, so its count fits in a byte |
| TableEncoding.DeltaEncoder.FinishTables | elkhound/parsetables.cc:409-429 | finished tables read like the unfinished ones |
| TableEncoding.EncodeGoto | elkhound/parsetables.cc:372-381 | the cell decodes to the state; fails exactly if the distance is negative, no byte, or the error byte |
| TablePacking.EncodeCell | elkhound/gramanl.cc:3577-3611 | a whole cell reads back as the action, earlier cells keep their meaning; fails only if the state does not fit its six-bit indexes |
| TablePacking.PackTables | elkhound/parsetables.cc:196-925 | encode, finish, compress: the compressed tables agree with plain ones that read as the actions and gotos; succeeds whenever the indexes fit |
| TablePacking.LookUpAction | elkhound/glr.cc:2335-2365 | query and decode: the action that the tables were made from |
| TablePacking.LookUpGoto | elkhound/glr.cc:2036-2038 | query and decode: the goto that the tables were made from |
| PackedGenerator.EnoughRoomFits | elkhound/gramanl.cc:3505-3664 | with the states in runs every index fits if no symbol enters too many states and no state has too many reductions or ambiguous actions |
| PackedGenerator.GeneratePacked | elkhound/gramanl.cc:4330-4360 | from a grammar to packed tables: what a query decodes to is the action, and the goto, of tables of a sound automaton, complete if nothing is dropped; refuses only where there is no room |

## Left out

- Object identity and memory: stack nodes, links and item sets are numbers or keys into a pool that only grows; reference counts, free lists, storage pools and flattening are not modelled.
- GlrParser.GLR.HasReferrer: counts nodes that the source has freed by then; more depths are repaired, to the same values.
- GlrParser.GLR.DeterministicParseToken: asks that a token under which the tables have a loop leaves some stack, since the fast path can hang otherwise; the unrolled code for short right-hand sides and the limit on their length are one loop here.
- GlrParser.GLR.ParseToken: asks the same.
- GlrParser.GLR.GlrParse: asks the same of every token when the fast path is used. Equality with the LR machine needs that the user keeps every value; with cancelled reductions no stack is too many, and the tree has only nodes that the user kept, but which stacks are left is not stated.
- ParserGenerator.Recognize: with the fast path, only where nothing is dropped and the grammar is acyclic or the input a sentence; `ParserGenerator.Parse` asks for no more than that tokens with a loop can be read.
- Semantic actions: values are terms that record the production and the values passed, merging is a binary node, duplicating is the identity and deleting does nothing; keeping is an arbitrary predicate.
- Source locations, token reclassification and saved multi-token buffers; the two token fields `type` and `internalType` are one.
- Error messages after a failed parse, tracing, statistics and dumps of the graph.
- Counting conflicts and warning about them; `superset` and `subsets` are both given, where the source computes one from the other, and a grammar in which a nonterminal is its own superset, on which the search for a maximal one would not end, is excluded (`SupersetsEnd`).
- Lookahead sets inside item closure and state construction are mathematical sets; the bitmap they use is proved separately in `TerminalSets`.
- Item lists are maps, visited in any order; a state is looked up by its core instead of by hash and CRC, and the scratch item list of unused kernel items is not modelled.
- StateNumbering.RenumberStatesDiff: states that agree on symbol and transitions are compared by a given antisymmetric function; the source compares their possible reductions.
- StateNumbering.MergeSort: returns a new list; the source relinks the nodes of the old one.
- TablePacking.PackTables: its condition for success counts ambiguous sets as if none were shared.
- The parser is run on plain tables; that the packed ones give the same action and goto for every query is `TablePacking.LookUpAction` and `TablePacking.LookUpGoto`.
- Flat arrays with computed offsets are two-dimensional arrays, row pointers are row numbers, and the four merge routines of the action and goto tables share one routine for columns and one for rows.
- Computing Follow sets, the SLR, LR(0) and LR(1) switches, the predictive table, reachability reports and unused-symbol warnings.
- SampleInput.Rewriter.RewriteAsTerminals: where no production has terminals only, says that a string is derived, not that it is a short one; candidates are tried in order of preference, ties in any order.
- Code emission for parsers and tables, the grammar file reader, the embedded-code scanners and everything under `ast/`.
