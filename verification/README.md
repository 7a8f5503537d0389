# Bunny-JIT in Dafny

A model of the middle end of Bunny-JIT, an SSA compiler backend, with proofs about it: the
builder that front ends drive, the expression parser and the code generation of one front end,
the control-flow analyses, the rewriting passes, the stack classes and edge shuffles of register
allocation, the hash table and the module loader.

## How it is built

- `Ir.dfy` holds the intermediate representation and the compiler state that the passes update
  in place (class `Proc`). The fields of the source's `Block` are one vector per field here
  (`comeFrom`, `dom`, `livein`, ...), indexed by block; ops, code and phi alternatives form one
  value, `Program`.
- `Digraph.dfy` is the theory of runs and dominance, on blocks and on program points alike.
  `Ssa.dfy` defines strict SSA and what a program does along a run of points: phis are assigned
  at once on entering a block, integer ops compute on 64-bit words (`Words.dfy`), and an
  arbitrary `Semantics` says what loads, effects and all other ops do. A property proved for
  every run covers every execution, because branches are left open.
- Passes are methods with the source's loops. Each is tied to a specification function or a
  relation, and lemmas about that relation say what it means: agreement with all paths for the
  analyses, equality along all runs for the rewriting passes.
- Order of reading: `Digraph`, `Ir`, `Cfg`, `DomTheory`, `Dominators`, `Ssa`, `Builder`,
  `Structured`, `CodeGen`, `CodeMeaning`; `Renaming`, `PhiElim`; `MemTags`, `MemSound`, `RenameMap`,
  `CodeMotion`, `Cse`, `LoadDiamond`; `Liveness`, `Scc`, `SccEdges`, `SccMeaning`, `StackClasses`; `Rewriting`, `UseCounts`, `ReassocTheory`, `ReassocRules`,
  `ReassocForm`, `Reassoc`; `ShuffleState`, `ShuffleSpec`, `SpillFlags`, `Shuffle`; `Probing`, `HashTable`;
  `Relocation`, `Loader`; `ParseState`, `Grammar`, `Printing`, `Recognition`, `FrontParser`.

The pieces fit together: code generation for structured statements goes through the builder
(`CodeGen.Generate`, `CodeMeaning.ProgramMeans`); the builder yields strict SSA
(`Builder.BuiltStrict`) with a slot for every phi (`Builder.BuiltSlots`), which is what phi elimination, elimination of common subexpressions and
reassociation need and keep; exact dominators (`Dominators.RebuildDom`) are what reassociation and
the search for a common dominator need; exact live-in lists (`Liveness.RebuildLivein`) are what
the stack classes need, as are predecessor lists without repetition (`StackClasses.RebuiltFlow`); they in turn leave a strict SSA program with the same values and effects
(`StackClasses.FindScc`, `SccMeaning.SccPreserves`); and the edge shuffle is proved for any state that register allocation may hand to it.

## What the proofs found

- `Shuffle.RenamesKeepAlts`, `Shuffle.OtherEdgeRenamed`: the shuffle renames the alternatives of all
  edges into its target, not only of its own. An alternative changes if and only if its value
  was wanted in a register that did not hold it, so a value that two edges share can be renamed
  to an op that only one of them executes.
- `ShuffleSpec.FlagIsLost`, `Shuffle.EdgeShuffle.Run`: recomputing a phi clears its spill flag
  even if it was reloaded for another register before, so that a slot is read that is never
  written. That happens if and only if a phi is wanted in two registers, cannot be recomputed for
  one of them and can for all later ones that need a restore; `ShuffleSpec.KeepsFlags` says this
  in terms of the registers, targets, operands and masks that the shuffle starts from, with the
  registers served by moves given by `ShuffleSpec.MoveEnd`.
- `Cse.PlaceFound`, `LoadDiamond.LoadEndsBehindJump`: a load that moves to the common dominator of two blocks is appended behind
  that block's jump and stays there, because the jump counts as having side effects. An op moves
  before the jump if and only if it has no memory version. Equal loads in the two arms of a branch
  are an input.
- `ParseState.EmptyCallExact`, `ParseState.EmptyCallRegroups`, `ParseState.EmptyCallInside`: the
  closing parenthesis of a call without arguments reduces everything that is still open, not
  only the call. The result is right if and only if nothing is open around the call: 1 + f() * 2
  is read as (1 + f()) * 2, and inside parentheses or a condition the parser fails. The two
  negations have no precedence and fail as soon as they would be reduced, as in !x + y
  (`ParseState.NegationFails`), and a comma outside all brackets reads the top of an empty stack, as
  in x, y (`ParseState.CommaFails`); `ParseState.StepBalanced` and `ParseState.RunBalanced` say when.
- `CodeGen.Gen`, `Structured.ElseMayNotDefine`: code generation meets its assertion on env sizes if
  and only if `Structured.Jumpable` fails: an else part leaves a variable behind, which the type check
  allows but the jump behind the else part does not, because env is cut down only after the label;
  or break or continue stands outside of loops.
- `SccEdges.EqualLabelsLoseAlternatives`: breaking both edges of a conditional jump with equal
  labels leaves the second new block without alternatives. With different labels none is lost.
- `Reassoc.NotCancelled`: the rules for (a + b) - (b + c) are written twice and those for
  (a + b) - (c + a) are missing, so this one term is not cancelled.
- `ShuffleState.StuckMeansFree`: the assertion that is commented out before the restores holds.
- The failure branch of `internalFind`, the missing-class assertion in `findSCC` and the final
  live-in assertion cannot be reached (`HashTable.Table.FindSlot`, `Scc.LiveInHasClass`,
  `Liveness.EntryListEmpty`).
- The comment on `Module` says that nothing is compiled while it is loaded; the code allows it
  and `patch` publishes it. The model follows the code.

## Model

| member | source | states |
|---|---|---|
| `Builder.Builder.constructor` | src/bjit.h:60-68 | one emitted block without phis and an empty env |
| `Builder.Builder.NewLabel` | src/bjit.h:113-132 | a label costs one phi per env entry, the k-th of which owns slot k, keeps all that was built, and leaves the current block alone |
| `Builder.Builder.EmitLabel` | src/bjit.h:134-147 | code goes on in the label's block and env becomes exactly its phis; a label is emitted once |
| `Builder.Builder.EmitOp` | src/bjit.h:569-576 | the op reads the env entries asked for, and the call is recorded at the end of the current block |
| `Builder.Builder.Jmp` | src/bjit.h:186-203 | every phi of the label gets, for this block, the env entry with its index as its alternative |
| `Builder.Builder.BranchZero` | src/bjit.h:210-236 | both labels get their alternatives, also when they are the same label |
| `Builder.Builder.Return` | src/bjit.h:239-240 | a return of an env entry ends the block |
| `Builder.EdgeAltsStay` | src/bjit.h:196-202 | alternatives added for one edge never change what a phi takes on another |
| `Builder.FedFinds` | src/bjit.h:197-202 | after a jump the phi's first alternative for the edge is the env entry, since nothing came from the block before |
| `Builder.AppendKeeps` | src/bjit.h:553-576 | every call keeps the correspondence between ops, env and phis in all blocks |
| `Builder.BuiltStrict` | src/bjit.h:113-236 | any completed sequence of calls gives strict SSA: definitions dominate uses, phis come first, alternatives are defined at their source |
| `Builder.BuiltSlots` | src/bjit.h:119-128 | what the builder makes is what phi elimination asks for: alternatives bring existing ops to phis of their block, and different phis have different slots within the argument list |
| `Builder.Simulates` | src/bjit.h:113-236 | on every run the program has the effects of a machine whose env slots are mutable variables, and env names the value in each slot |
| `Builder.JumpSeesSlot` | src/bjit.h:210-240 | a conditional jump or return reads the value that the machine has in the named slot |
| `Structured.FlatRuns` | front/front-ast.h:1081-1086 | the ops of an expression, operands first and temporaries after the variables, find the value and the effects of evaluating it from left to right |
| `Structured.CodeRuns` | front/front-ast.h:402-632 | the calls that are the code of a statement do what the statement means, with break and continue out of any depth of blocks, for every program around them |
| `Structured.LoopRuns` | front/front-ast.h:526-566 | the same for a loop from its test on, by induction over the rounds it takes |
| `Structured.CompiledStays` | front/front-ast.h:402-632 | code generated later leaves the code of earlier statements as it is |
| `Structured.MoreFuel` | front/front-ast.h:526-566 | once a statement ends within some number of rounds, any larger bound gives the same outcome |
| `CodeGen.GenExpr` | front/front-ast.h:1081-1120 | exactly the ops of the expression are appended to the current block, operands first |
| `CodeGen.Gen` | front/front-ast.h:402-408 | code generation fails only if a jump does not fit its label; otherwise the statement's code is appended, nothing else changes but new blocks, and the variables are where q says; it runs out of room only if there are no numbers left |
| `CodeGen.GenIf` | front/front-ast.h:460-486 | test, both arms in blocks of their own and the jumps behind them, with all waiting labels left to be emitted by their owner |
| `CodeGen.GenWhile` | front/front-ast.h:526-566 | the jump to the test, the test in a block of its own, and the body that jumps back |
| `CodeGen.GenExit` | front/front-ast.h:587-632 | a jump with as many variables as the loop has, and a new block for what follows; outside of loops it fails |
| `CodeGen.IfDone` | front/front-ast.h:460-486 | what was generated for the arms and the test is the code of the whole if |
| `CodeGen.WhileDone` | front/front-ast.h:526-566 | what was generated for the test and the body is the code of the whole loop |
| `CodeGen.Generate` | front/front-parse.cpp:199-219 | a whole program: every block is ended, so the builder's result is complete and holds the statement's code; it fails only if a jump does not fit its label |
| `CodeGen.AllEnded` | src/bjit.h:113-147 | when all blocks have been ended, every block that can be reached exists and has been ended |
| `CodeMeaning.ProgramMeans` | front/front-parse.cpp:211-219 | if the statement ends, the SSA program has a run that takes every conditional jump by its operand's value, comes to the end of the statement's code, and has the statement's effects and the values of its variables there |
| `CodeMeaning.OneRun` | src/bjit.h:210-236 | there is one such run: runs of equal length that obey the jumps are equal |
| `CodeMeaning.StepTracked` | src/bjit.h:186-236 | each call is followed by the program's run, through the edge and the phis of the label that the value of the operand chooses |
| `Structured.ElseMayNotDefine` | front/front-ast.h:477-483 | an else part that is a definition type-checks and cannot be generated, and in braces it can |
| `ParseState.StepBalanced` | front/front-parse.cpp:150-161 | whatever the token, also after errors, no fragment is lost or made up, and the parser fails in three cases only: nothing open at a parenthesis, nothing around a comma, a negation to be reduced |
| `ParseState.RunBalanced` | front/front-parse.cpp:341-504 | along any sequence of tokens without the end of an empty call no fragment is lost or made up, and the parser fails if and only if it comes to one of those three cases |
| `ParseState.NegationFails` | front/front-parse.cpp:37-77 | an operand under either negation and any operator: the parser fails |
| `ParseState.CommaFails` | front/front-parse.cpp:382-395 | an operand and a comma: the parser fails |
| `ParseState.EmptyCallExact` | front/front-parse.cpp:475-483 | the end of a call without arguments leads to the right state if and only if nothing is open around the call |
| `ParseState.EmptyCallInside` | front/front-parse.cpp:475-483 | inside parentheses or a condition it makes the parser fail |
| `ParseState.EmptyCallRegroups` | front/front-parse.cpp:475-483 | after an operator it completes the sum, so that 1 + f() * 2 is read as (1 + f()) * 2 |
| `Grammar.Parses` | front/front-parse.cpp:341-504 | every well-formed expression, with any parentheses, is read as its tree in any context where nothing that waits binds tighter |
| `Grammar.EveryOpHasClass` | front/front-parse.cpp:10-33 | each binary operator is in exactly one of ten classes, listed from tight to loose |
| `Grammar.TighterTakesRight` | front/front-parse.cpp:14-30 | a o2 b o1 c is read as a o2 (b o1 c) if o1 is in a tighter class than o2, for all operands that are no binary operations |
| `Grammar.FirstTakesLeft` | front/front-parse.cpp:14-30 | a o1 b o2 c is read as (a o1 b) o2 c if o1 is in a tighter class than o2 or in the same |
| `Grammar.AssignTakesAll` | front/front-parse.cpp:27-33 | the right side of an assignment or definition is the whole expression |
| `Grammar.SignsRead` | front/front-parse.cpp:486-493 | plus and minus before an operand are signs, and the negations wait for what follows |
| `Grammar.BracketsRead` | front/front-parse.cpp:341-407 | parentheses leave no trace, an index has two parts, a call its callee and all arguments |
| `Printing.RoundTrip` | front/front-parse.cpp:341-504 | printing with as few parentheses as possible and parsing gives the tree back, inside any bracket, statement or assignment |
| `Printing.Unambiguous` | front/front-parse.cpp:37-77 | two well-formed expressions with the same tokens have the same tree |
| `Printing.PrintIsShortest` | front/front-parse.cpp:37-77 | no way to write an expression that is read as the same tree is shorter than what is printed |
| `Recognition.ReduceJoins` | front/front-parse.cpp:150-161 | a reduction joins operands to the operators it takes and stops where one binds looser |
| `Recognition.RunTracks` | front/front-parse.cpp:341-504 | as long as there is no error, the stacks are explained by the tokens read |
| `Recognition.AcceptsExactly` | front/front-parse.cpp:341-504 | apart from calls without arguments, the parser accepts exactly the token sequences of well-formed expressions |
| `FrontParser.Parser.MakeFragment` | front/front-ast.h:336-346 | the constructors pop their operands from the fragment stack in the right order |
| `FrontParser.Parser.Reduce` | front/front-parse.cpp:150-161 | the loop reduces everything at the given precedence or tighter |
| `FrontParser.Parser.PsExpr` | front/front-parse.cpp:474-504 | what is done with a token where an expression is expected |
| `FrontParser.Parser.PsInfix` | front/front-parse.cpp:341-472 | what is done with a token after an operand |
| `FrontParser.Parser.Parse` | front/front-parse.cpp:178-195 | the tokens are passed on one after another |
| `Cfg.RebuildCfg` | src/opt-dom.cpp:6-81 | live holds exactly the reachable blocks in discovery order, comeFrom exactly the live predecessors, each as often as its jump names the block, and just the alternatives of live edges are kept |
| `Cfg.DominatorsFirst` | src/opt-dom.cpp:13-35 | discovery order lists a block's dominators before it |
| `Cfg.DiscoveryRun` | src/opt-dom.cpp:16-35 | each discovered block is reached by a run through earlier ones only |
| `Cfg.ClosedHoldsLive` | src/opt-dom.cpp:16-35 | when the worklist is empty nothing reachable is missing |
| `Cfg.CleanAlts` | src/opt-dom.cpp:62-79 | the in-place compaction keeps exactly the alternatives whose source is a predecessor and whose value is not a nop, in order |
| `Cfg.KeepAltsExact` | src/opt-dom.cpp:66-77 | membership in the compacted list, both ways |
| `Cfg.FeedTargets` | src/opt-dom.cpp:48-56 | a block enters the predecessor lists of its targets, once for each label that names one, and no others |
| `DomTheory.MeetKeepsAbove` | src/opt-dom.cpp:206-236 | recomputing one list in place never loses a true dominator |
| `DomTheory.MeetShrinks` | src/opt-dom.cpp:232-236 | a recomputed list is no longer than before, and of equal length only with equal contents |
| `DomTheory.QuietMeet` | src/opt-dom.cpp:162-163 | a sweep that changes no size changes nothing: size-only change detection is enough |
| `DomTheory.SettledIsSound` | src/opt-dom.cpp:198-238 | what a settled system lists lies on every run |
| `DomTheory.SettledIsExact` | src/opt-dom.cpp:198-238 | the loop can only stop with each list holding exactly the blocks on every path from the entry |
| `DomTheory.OneLessIsImmediate` | src/opt-dom.cpp:240-253 | a dominator has exactly one dominator less if and only if it is the immediate one |
| `DomTheory.ImmediateExists` | src/opt-dom.cpp:240-253 | the immediate dominator exists and is unique |
| `DomTheory.LookupDecidesDominance` | src/opt-jump.cpp:37-39 | in the ordered lists, dominance holds if and only if one array element is the block |
| `DomTheory.LengthOrdersChain` | src/opt-reassoc.cpp:46-61 | two dominators of one block compare by the length of their lists |
| `Dominators.Solve` | src/opt-dom.cpp:198-238 | the Gauss-Seidel loop terminates with exact lists, for any graph and any processing order |
| `Dominators.FindImmediate` | src/opt-dom.cpp:172-184 | the search finds an element whose list is one shorter, or there is none |
| `Dominators.FindPdoms` | src/opt-dom.cpp:167-184 | every post-dominator found is the immediate one, with the exit pushed as a common block |
| `Dominators.PostDominators` | src/opt-dom.cpp:108-184 | the backward loop finds the immediate post-dominator of every block that can reach an exit |
| `Dominators.FillChain` | src/opt-dom.cpp:260-265 | following immediate dominators fills a list of the same length from the back |
| `Dominators.ChainsAreOrdered` | src/opt-dom.cpp:257-266 | the reordered lists spell out the dominator tree from the entry: each prefix is a dominator's own list |
| `Dominators.ForwardDominators` | src/opt-dom.cpp:186-266 | exact ordered dominator lists and true immediate dominators |
| `Dominators.RebuildDom` | src/opt-dom.cpp:83-269 | the whole pass: reachable blocks, exact ordered dominators, immediate dominators and post-dominators |
| `Dominators.CommonDominatorInPrefix` | src/opt-cse.cpp:417-427 | whatever dominates both blocks lies in the common prefix of their lists |
| `Dominators.ClosestCommonDominator` | src/opt-cse.cpp:417-427 | the last common element dominates both blocks and is dominated by every other common dominator |
| `Ssa.BlockDominanceLifts` | src/opt-cse.cpp:323-325 | block dominance makes every point of one block available at every point of the other |
| `Ssa.EquationHolds` | src/opt-cse.cpp:94-97 | on every run of a strict SSA program, an op that is available still equals what its operands now give |
| `Ssa.OnlyDefsChange` | src/bjit-impl.h:84-98 | executing a point changes only what is defined there |
| `Renaming.AgreeAlongRun` | src/bjit-impl.h:218-246 | replaced values keep agreeing with their replacements for as long as they are available |
| `Renaming.RenamedStrict` | src/bjit-impl.h:218-246 | renaming to earlier definitions keeps strict SSA form |
| `Renaming.RenamedSame` | src/bjit-impl.h:218-246 | a justified renaming leaves every value and effect of every run unchanged |
| `PhiElim.FindSources` | src/opt-dce.cpp:274-293 | per phi: the one value that all its alternatives other than itself name, itself if there are several, none if there is none |
| `PhiElim.SlotDominates` | src/opt-dce.cpp:277-293 | the single value's definition dominates the phi |
| `PhiElim.SourcesEarlier` | src/opt-dce.cpp:320-325 | every replacement is defined strictly before the phi it replaces |
| `PhiElim.SourcesJustified` | src/opt-dce.cpp:274-343 | on every run the phi equals its source when it is assigned |
| `PhiElim.RenameOp` | src/opt-dce.cpp:313-327 | all inputs that name an eliminated phi are replaced, others stay |
| `PhiElim.EliminatePhis` | src/opt-dce.cpp:305-343 | the two loops produce exactly the renamed program |
| `PhiElim.PhiEliminationPreserves` | src/opt-dce.cpp:274-343 | phi elimination changes no value read on any run, and the result is strict SSA |
| `Liveness.FindUsesBlock` | src/opt-dce.cpp:402-443 | the backward scan counts exactly the uses not cut off by a definition in the block |
| `Liveness.NeedsSound` | src/opt-dce.cpp:402-443 | a counted value is live: some path reaches a use with no definition before |
| `Liveness.NeedsComplete` | src/opt-dce.cpp:402-443 | every value live on some path is counted, given full lists at the successors |
| `Liveness.RecountGrows` | src/opt-dce.cpp:470-485 | lists only grow, and equal sizes mean equal lists |
| `Liveness.FullIsExact` | src/opt-dce.cpp:458-487 | when nothing grows, livein holds a value if and only if a path from the block reaches an upward-exposed or phi-edge use of it |
| `Liveness.RebuildLivein` | src/opt-dce.cpp:445-487 | the loop terminates with exactly the live-in values of every live block, in ascending order |
| `Liveness.LiveIsDominated` | src/opt-dce.cpp:458-487 | in strict SSA every live value's definition dominates the point |
| `Liveness.EntryListEmpty` | src/opt-dce.cpp:489-490 | the entry block has no live-in values: the final assertion holds |
| `MemTags.Merge` | src/opt-cse.cpp:49-70 | the incoming tag is none, the only one seen, or the block's own jump if two differ |
| `MemTags.MergeIsNotOwn` | src/opt-cse.cpp:49-83 | a block with successors never gets its own last side-effect op as its incoming tag |
| `MemTags.UpdateKeeps` | src/opt-cse.cpp:72-81 | each update of a block keeps the tag invariants |
| `MemTags.RebuildMemtags` | src/opt-cse.cpp:11-84 | the tags start from each block's own last version and change by whole sweeps, each visit to a block taking the merge and handing it on; it settles just when a sweep changes nothing, and then every block's tags solve the merge equations |
| `MemSound.TagOnRun` | src/opt-cse.cpp:18-83 | on every run the current tag is the op that last started a memory version |
| `MemSound.ResolvedIsCurrent` | src/opt-cse.cpp:133-134 | a load's tag, taken from its block if it has none, is the version current at the load |
| `MemSound.SameTagNoWrite` | src/opt-cse.cpp:11-84 | two loads with the same resolved tag, one dominating the other: no op with side effects runs between the last run of the first and the second |
| `MemSound.LoadHolds` | src/opt-cse.cpp:133-134 | a dominating load with the current tag still holds what loading again would give |
| `CodeMotion.InputsAtNearestCommon` | src/opt-cse.cpp:417-427 | all operands that two ops share are available at the end of the nearest common dominator of their blocks |
| `CodeMotion.WidenSame` | src/opt-cse.cpp:511-536 | making room for an op changes no value and no effect of any run |
| `CodeMotion.LiftRun` | src/opt-cse.cpp:511-536 | and no run is lost |
| `CodeMotion.SwapSame` | src/opt-cse.cpp:506-536 | an op that depends on its operands alone computes the same where they are available further up: on every run all other values and effects stay, and its own value wherever it was available |
| `CodeMotion.MoveUpSame` | src/opt-cse.cpp:498-536 | the two together: a moved op leaves strict SSA, the effects and all values of every run |
| `Cse.PostDomsUp` | src/opt-cse.cpp:432-455 | the walk up finds whether every block on the way from below the common dominator post-dominates the one above it |
| `Cse.FindPlace` | src/opt-cse.cpp:510-536 | the op is appended and goes up until something stops it, and nothing above that point stops it earlier |
| `Cse.PlaceFound` | src/opt-cse.cpp:510-536 | an op without a memory version stops before the jump with all operands available; a load stays behind the jump |
| `LoadDiamond.SameVersion` | src/opt-cse.cpp:43-82 | two equal loads in the arms of a branch have the same memory version, whatever the converged analysis found |
| `LoadDiamond.LoadEndsBehindJump` | src/opt-cse.cpp:498-547 | neither arm dominates the other and neither is a detour, so whatever is done with the pair, the first load ends behind the jump of the common dominator |
| `Cse.CsePair` | src/opt-cse.cpp:403-543 | the survivor of a pair dominates the other strictly; if neither block dominates, the pair is refused if and only if the post-dominator check fails, and otherwise one op moves to the nearest common dominator, up to the first op that stops it |
| `Cse.MovedPairPreserves` | src/opt-cse.cpp:498-543 | moving one op of a pair and renaming the other to it keeps strict SSA and every value and effect of every run |
| `Cse.PairEqual` | src/opt-cse.cpp:403-497 | at the eliminated op its survivor already holds the value, loads included |
| `Cse.ChaseOk` | src/bjit-impl.h:229-245 | chains of renamings, in any order, end at a valid replacement |
| `Cse.CsePreserves` | src/opt-cse.cpp:403-497 | eliminating any set of recorded pairs keeps strict SSA and every value and effect of every run |
| `RenameMap.RenameInputs` | src/bjit-impl.h:229-245 | every input ends as the map, applied in order, takes it |
| `RenameMap.NoReplacedUses` | src/bjit-impl.h:229-245 | after renaming with fresh entries no input names a replaced op |
| `RenameMap.ChaseKeeps` | src/bjit-impl.h:227-245 | if all replacements are new ops, a value survives if and only if no entry names it |
| `Scc.DiscoveredBefore` | src/opt-ra.cpp:1445-1457 | blocks that define a value available on entry were scanned before |
| `Scc.LiveInHasClass` | src/opt-ra.cpp:1445-1457 | the assertion that every live-in value already has a class never fires |
| `Scc.UncountedIsDead` | src/opt-ra.cpp:1495-1503 | a class is freed only when its value is dead |
| `Scc.AssignKeeps` | src/opt-ra.cpp:1505-1528 | giving a free class to a new value keeps all live values in distinct classes |
| `Scc.PickPhiClass` | src/opt-ra.cpp:1465-1491 | a phi gets the class of its first alternative that has a free one, and a new class only if every alternative that has a class has it in use |
| `Scc.PhiShares` | src/opt-ra.cpp:1465-1491 | in the classes returned, a phi shares its class with an alternative unless those of all alternatives assigned before it are held by values live into its block or by phis above it |
| `Scc.PickClass` | src/opt-ra.cpp:1510-1526 | the class picked is free and all smaller ones are in use, or it is new |
| `Scc.FindScc` | src/opt-ra.cpp:1430-1534 | every value gets a class below the count returned, no two values live at the same point share one, and neither do two phis of one block, used or not; a phi takes the class of its first alternative that is not occupied, every other value the smallest class that is not, where a class is occupied if a value live after that point or not used so far in the block has it |
| `SccEdges.BreakEdges` | src/opt-ra.cpp:1536-1549 | every edge goes where it went: directly with its own alternatives, or, just if its source has two targets and its target several predecessors, through one new block that holds a jump there and has taken over the alternatives; there are no other new blocks and afterwards no edge is critical |
| `SccEdges.SplitEdges` | src/bjit.h:495-551 | one split deals with one edge and leaves all other edges, broken or not, as they are |
| `SccEdges.SplitKeeps` | src/bjit.h:495-551 | breaking an edge keeps jumps, targets and exact predecessor lists |
| `SccEdges.SplitCarries` | src/bjit.h:539-548 | the alternatives move to the new edge with it |
| `SccEdges.EqualLabelsLoseAlternatives` | src/bjit.h:535-548 | a conditional jump with two equal labels would leave its second new block without alternatives |
| `SccEdges.AddRenames` | src/opt-ra.cpp:1551-1586 | on every edge a phi's source stays just if it is in the phi's class, and else is a new rename of it in a class of its own; the renames of a block stand once each between its old code and its jump, and nothing else changes |
| `StackClasses.FindScc` | src/opt-ra.cpp:1430-1586 | all three passes: values live together have different classes, phis share those of their alternatives and other values have the smallest that is free, no edge is critical, different phis take different values on every edge, a copy shares its class with nothing else at its jump, and the result is the program with edges broken and copies in front of jumps |
| `StackClasses.RebuiltFlow` | src/opt-dom.cpp:38-57 | if no jump names a label twice, the lists that rebuild_cfg leaves name each predecessor once, as the second pass needs |
| `SccMeaning.ResultStrict` | src/opt-ra.cpp:1536-1586 | breaking edges and adding renames keeps strict SSA, with every alternative available at its source |
| `SccMeaning.SccPreserves` | src/opt-ra.cpp:1536-1586 | on every run of the result the world and the values of all of the program's ops are those of the program on the run that it projects to |
| `SccMeaning.LiftRun` | src/opt-ra.cpp:1536-1549 | every run of the program is the projection of a run of the result |
| `SccMeaning.PhiTakes` | src/opt-ra.cpp:1567-1583 | on every edge of the result each phi receives the value that it receives on the program's edge, copied or not |
| `SccMeaning.UseStays` | src/bjit.h:495-551 | what is available in the program is available at the corresponding points of the result |
| `SccMeaning.ResultPlaced` | src/opt-dce.cpp:385-392 | numbered again, every op of the result stands once, in its block |
| `Shuffle.EdgeShuffle.TakeAlts` | src/opt-ra.cpp:884-912 | a register wants what the last alternative of this edge for a phi in it brings, and what it expected before if there is none |
| `Shuffle.EdgeShuffle.DropUnneeded` | src/opt-ra.cpp:922-937 | a source register is kept if and only if its value is wanted |
| `Shuffle.EdgeShuffle.FreeMoves` | src/opt-ra.cpp:962-996 | moves only into free registers; if none was made, none is possible |
| `Shuffle.EdgeShuffle.BreakCycle` | src/opt-ra.cpp:1000-1057 | breaks one cycle if there is one |
| `Shuffle.EdgeShuffle.MoveAll` | src/opt-ra.cpp:948-1059 | the move phases terminate for every state, with neither a free move nor a cycle left |
| `Shuffle.EdgeShuffle.MakeRestore` | src/opt-ra.cpp:1069-1137 | recomputes if and only if the op allows it, the register can take its result and every operand is where it was put; reloads and flags for spilling otherwise |
| `Shuffle.EdgeShuffle.Resolve` | src/opt-ra.cpp:946-1144 | terminates with every wanted value in its register |
| `Shuffle.EdgeShuffle.Run` | src/opt-ra.cpp:874-1154 | one emitted code serves every choice of values: running it leaves in the register of each phi the value of its alternative for this edge and in every other register the value it expected, with duplicates, chains, cycles and no free register included; the target's alternatives keep their values; and everything that the code reloads is flagged to be stored if and only if a condition on the start holds |
| `Shuffle.RenamesKeepAlts` | src/opt-ra.cpp:1146-1151 | renaming the target's alternatives keeps their values, and changes an alternative if and only if its value was out of place on this edge |
| `Shuffle.OtherEdgeRenamed` | src/opt-ra.cpp:1146-1151 | an input where the alternative of another edge is misplaced, so that every shuffle of this edge renames it |
| `ShuffleState.MoveKeeps` | src/opt-ra.cpp:976-993 | a move keeps: registers hold what they are said to hold, targets stand for what was wanted, a moved value is in place or parked |
| `ShuffleState.MoveLightens` | src/opt-ra.cpp:948-1059 | each target goes from its original name to a parked one to one in place, never back |
| `ShuffleState.StuckMeansFree` | src/opt-ra.cpp:1067-1068 | the assertion left commented out holds: a register waiting for a restore is free, and no register holds what it waits for |
| `ShuffleState.RestoreKeeps` | src/opt-ra.cpp:1093-1144 | a reload or recomputation settles its register and keeps the rest |
| `ShuffleState.RematReads` | src/opt-ra.cpp:1101-1110 | operands that pass the validity check are read with their values |
| `ShuffleState.RenamedAreMisplaced` | src/opt-ra.cpp:979-1142 | exactly the values wanted where they were not are in the rename map |
| `ShuffleState.ChasedAlternative` | src/opt-ra.cpp:1146-1151 | the renamed alternative stands for the same value, and is new if and only if the value was out of place |
| `ShuffleSpec.AllFlagged` | src/opt-ra.cpp:1118-1137 | every value that is reloaded ends up flagged to be stored if and only if no phi is recomputed after its last reload |
| `ShuffleSpec.FlagsFromStart` | src/opt-ra.cpp:1062-1144 | the same as a condition on registers, targets, operands and masks before the shuffle |
| `ShuffleSpec.HeldIsSettled` | src/opt-ra.cpp:948-1059 | when nothing moves any more an original name is held only where it was from the start and where alone it is wanted |
| `ShuffleSpec.WaitingIsRestored` | src/opt-ra.cpp:1062-1065 | which registers wait for a restore, in terms of the start |
| `ShuffleSpec.HeldIsAvailable` | src/opt-ra.cpp:1104-1110 | an operand passes the check if and only if it is wanted in its register and that was restored before or settled from the start |
| `ShuffleSpec.MovedAtMostOnce` | src/opt-ra.cpp:948-1059 | moves bring a value to one register at most, and only from elsewhere |
| `ShuffleSpec.OneRegisterEach` | src/opt-ra.cpp:1118-1137 | no flag is lost if no phi is wanted in two registers |
| `ShuffleSpec.FlagIsLost` | src/opt-ra.cpp:1093-1137 | a start from which a phi is reloaded for one register, then recomputed for another, and not flagged to be stored |
| `UseCounts.OnlyUser` | src/opt-reassoc.cpp:141-145 | with exact counts, one use means that nothing else reads the value |
| `Rewriting.EditedStrict` | src/opt-reassoc.cpp:125-240 | editing ops in place keeps strict SSA when new operands are defined before the edited op |
| `Rewriting.EditedSame` | src/opt-reassoc.cpp:125-491 | editing an op and operands that only it can see leaves every other value, its own, and all effects of every run unchanged |
| `ReassocTheory.FirstDominates` | src/opt-reassoc.cpp:46-61 | the size-and-position test is right, both ways, for two ops available at one op |
| `ReassocTheory.MayReplace` | src/opt-reassoc.cpp:160-179 | an operand that passes the test is available at the op it is moved into |
| `ReassocTheory.EditKeeps` | src/opt-reassoc.cpp:125-491 | each edit keeps exact use counts, order of definitions and what everyone else reads |
| `Reassoc.SlideKeeps` | src/opt-reassoc.cpp:160-198 | (a g b) f y becomes (a f y) g b, in all its guarded forms: strict SSA, exact counts and all observed values are kept |
| `Reassoc.TurnKeeps` | src/opt-reassoc.cpp:170-188 | (a g b) f y becomes (y g b) f a: the same |
| `Reassoc.HoistKeeps` | src/opt-reassoc.cpp:147-158 | the same where the second operand is private as well, quotients included |
| `Reassoc.FlipKeeps` | src/opt-reassoc.cpp:324-334 | (a + b) - y becomes (b - y) + a: the same |
| `Reassoc.FoldKeeps` | src/opt-reassoc.cpp:346-376 | (a - b) - y becomes a - (y + b): the same |
| `Reassoc.TailKeeps` | src/opt-reassoc.cpp:398-405 | a - (a - b) becomes b - (a - a): the same |
| `Reassoc.CrossKeeps` | src/opt-reassoc.cpp:140-262 | (a f b) f (c f d) regroups, and sums of differences become differences of sums; sound because the operands were put in order first |
| `Reassoc.ReorderKeeps` | src/opt-reassoc.cpp:134-138 | operands of a commutative op are put in order |
| `Reassoc.SlideImmKeeps` | src/opt-reassoc.cpp:493-533 | constants move into the first operand: the same |
| `Reassoc.TurnImmKeeps` | src/opt-reassoc.cpp:211-222 | (a f b) f C becomes (b f C) f a: the same |
| `Reassoc.DoubleImmKeeps` | src/opt-reassoc.cpp:224-232 | (a f C) f a becomes (a f a) f C: the same |
| `Reassoc.HoistImmKeeps` | src/opt-reassoc.cpp:200-209 | two sums with constants chain up: the same, given the order of operands |
| `Reassoc.CancelKeeps` | src/opt-reassoc.cpp:407-490 | a shared term cancels: counts move from both operands to what is left and never go below zero |
| `Reassoc.ChainSettles` | src/opt-reassoc.cpp:125-242 | when the rules for one operator leave an op alone, its second operand is defined before neither operand of a private first one and equals neither, pairs are uncrossed, and constants stand where they belong |
| `Reassoc.SumSettles` | src/opt-reassoc.cpp:244-490 | when the rules for sums and differences leave an op alone, late operands are outermost, equal ones together, and nothing that the rules look for cancels |
| `Reassoc.NotCancelled` | src/opt-reassoc.cpp:460-478 | (a + b) - (c + a) is left alone: the rule before the last one is written twice |
| `ReassocForm.FormFramed` | src/opt-reassoc.cpp:134-138 | putting the operands of another op in order does not disturb the form of an op that does not use it |
| `Reassoc.VisitOp` | src/opt-reassoc.cpp:493-555 | an op that has its form is left alone; without progress, at most the operands have been put in order, and the op has its form: none of the integer rules applies |
| `Reassoc.OptReassoc` | src/opt-reassoc.cpp:63-573 | after any number of rounds: strict SSA, exact use counts, and on every run the same effects and the same values read by everything but integer arithmetic; when the pass settles, every live op whose value is used has its form, and on such code the pass changes nothing |
| `Words.SlideTrue` | src/opt-reassoc.cpp:160-198 | the identity behind the slide, on 64-bit words with wrap-around |
| `Words.TurnTrue` | src/opt-reassoc.cpp:147-188 | the identity behind the turn |
| `Words.CrossTrue` | src/opt-reassoc.cpp:140-262 | the identities behind regrouping |
| `Words.CancelTrue` | src/opt-reassoc.cpp:407-490 | the identities behind the eight cancellations |
| `Probing.ProbeInjective` | src/hash.h:205-208 | for every size 2^k up to 2^31 and every hash no slot is probed twice, 32-bit and 64-bit wrap-around included |
| `Probing.ProbePermutes` | src/hash.h:205-208 | the probes are a permutation: each slot comes up exactly once |
| `HashTable.Table.constructor` | src/hash.h:89-102 | an empty table of a power of two slots with room for the reserve |
| `HashTable.Table.FindSlot` | src/hash.h:212-272 | finds the slot of a key, or one to put it in; the `probe failed' branch cannot be reached |
| `HashTable.Table.Find` | src/hash.h:106-111 | finds exactly what the map holds |
| `HashTable.Table.Insert` | src/hash.h:127-138 | the map with the key set; grows exactly when less than a third would be left uncounted |
| `HashTable.Table.Remove` | src/hash.h:115-124 | the map without the key |
| `HashTable.Table.Resize` | src/hash.h:282-303 | the same map in the new size, with used slots recounted |
| `HashTable.Table.Rehash` | src/hash.h:156-178 | the same map in the same size, tombstones gone |
| `HashTable.Table.Clear` | src/hash.h:141-149 | the empty map; the use count stays as it was |
| `HashTable.NotFound` | src/hash.h:217-272 | a free slot on the probe path, or its end, proves that no slot holds the key |
| `HashTable.ContentsPut` | src/hash.h:127-130 | filling a slot changes the map at that key only |
| `HashTable.PathsPut` | src/hash.h:226-268 | no free slot precedes any key on its probe path after an insertion |
| `HashTable.PathsDrop` | src/hash.h:118-122 | nor after a removal, thanks to the tombstone |
| `Loader.Module.Compile` | src/bjit.h:829-840 | code, offset and calls are appended; pending changes do not touch the new calls |
| `Loader.Module.CompileStub` | src/bjit.h:844-851 | a stub counts as a procedure |
| `Loader.StubCodeBytes` | src/arch-x64-emit.cpp:40-52 | a stub is a load of the address, low byte first, and a jump |
| `Loader.Module.PatchStub` | src/bjit.h:775-782 | the address field of the stub holds the new address at once, and nothing else in the code changes |
| `Loader.Module.PatchCalls` | src/bjit.h:786-801 | calls keep number and place; all that went to the old target now go to the new one, the others where they went, whether or not the module is loaded |
| `Loader.Module.PatchCallsIn` | src/bjit.h:804-826 | calls keep number and place; those at offsets from the start of the procedure up to the next one, or the end of the code, that went to the old target go to the new one, and all others where they went |
| `Loader.Module.Load` | src/module.cpp:35-103 | executable memory starts with a fresh relocation of the code; nothing is loaded when a system call fails |
| `Loader.Module.Patch` | src/module.cpp:105-175 | succeeds if and only if the code fits, and then memory is a fresh relocation of the current code with all changes applied in call order; a failed patch changes nothing |
| `Loader.Module.Unload` | src/module.cpp:177-211 | pending changes take effect, so that the next load publishes them |
| `Relocation.FreshIsImage` | src/module.cpp:68-74 | relocating field by field gives code plus offsets in every field and the code elsewhere |
| `Relocation.ImageIsFresh` | src/module.cpp:68-74 | and nothing else does |
| `Relocation.ImageRetarget` | src/module.cpp:142-160 | adding the difference of two offsets to a relocated field moves it to the new target, modulo 2^32 |
| `Relocation.ImageStub` | src/module.cpp:135-140 | a stub can be changed in memory as in the code |
| `Relocation.StubPatchedTwice` | src/module.cpp:123-140 | stubs compiled since the last load end with their last address although their patches are applied again |
| `Relocation.RetargetAppend` | src/module.cpp:142-160 | a change made before a procedure was compiled does not apply to its calls |
| `Loader.StubLive` | src/bjit.h:775-782 | a pending stub patch keeps memory and code in step |

## Left out

- MemTags.RebuildMemtags: termination is not evident from the code, so the loop is given up after a number of rounds and the result says whether it settled; the entry block is taken to start with the allocation op and to have no predecessors.
- Reassoc.OptReassoc: termination is not claimed either, rounds may be given up; the blocks are in discovery order; current dominator lists and exact use counts are what the dominator rebuild and the last DCE leave behind. Floating-point instances under unsafe optimisation are not modelled.
- Cse.CsePair: hoisting during the collection of pairs, partial redundancy elimination and the order in which pairs are tried are not modelled; a pair may be any two equal ops. The entry that is cleared where an op moved away is a nop here, so there must be room for one more op.
- Cse.MovedPairPreserves: covers ops without a memory version; a load that moves ends up behind the jump, which no later pass expects.
- PhiElim.EliminatePhis: use counts, stale alternatives and the removal of dead ops around the two loops are not modelled.
- Shuffle.EdgeShuffle.Run: phis spilled to memory and the look through degenerate phis are left out (the latter is the parameter `root`); every value is taken to be in its slot when it is reloaded; an operand whose register is out of range counts as not held.
- SccEdges.AddRenames: dominators, live-in lists and memory versions of new blocks are not part of it.
- SccMeaning.SccPreserves: speaks of the result with the positions that the next DCE gives its ops, and needs as many block and op numbers as were used up (`SccMeaning.Numbers`); that phis still come first is said of listed blocks only.
- Loader.Module.Patch: a failing change of memory protection ends the program in the source and is not modelled; offsets and differences are taken modulo 2^32 as on x64.
- HashTable.Table.constructor: a stored item is an option here, where the source stores a default item that must equal no real key; compacting rehash and the visitor are left out.
- StackClasses.FindScc: the predecessor lists handed over name each predecessor once (`StackClasses.RebuiltFlow`), alternatives name blocks that exist, and the labels of a conditional jump differ.
- FrontParser.Parser.PsInfix: a semicolon and a closing brace, which end the statement around the expression, count as one stray token.
- Builder.Builder.EmitOp: what a front end does to env between two calls is one index list; values kept outside env, types of env entries and passed arguments are left out.
- CodeGen.Gen: statements arrive with variables numbered, as the type check leaves them. Assignments and the short-circuit operators inside expressions, calls with arguments, return statements, casts and the types of variables are left out; the allocation op at the start of a program is an op that a statement may begin with.
- CodeMeaning.ProgramMeans: speaks of statements that end; fuel bounds the rounds of loops, and a statement that ends does so for some fuel.
- Use counts are unbounded where the source has 16 bits.
- Entries of code vectors that were lazily cleared, and the removal of nops, are left out.
- Division counts as a function of its operands that may not be duplicated; traps are not modelled.
- Statements in the front end's parser, its type check and its lexer; tokens that belong to statements only are one token, which is an error within an expression.
- Folding of constants and identities, jump threading, loop inversion and sinking.
- The choice of registers for single ops, spill slots and machine code.
- Logging, debugging output, cache flushing and the system calls behind the loader.
