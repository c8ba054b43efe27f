# Verification of the nfp-estimator

The estimator computes how long a network processor needs per packet in the worst case. This project models
the algorithms it relies on and proves what they promise: the enumeration of paths in the order of their cost,
the overestimate of cycles, the bounds that come before it, the pruning of unsatisfiable paths, the incremental
solver, the completion of jobs on the thread pool, and the rewriting of expressions. Two algorithms of the
surrounding tools are here as well: the radix sort of the statistics and the JSON tokenizer.

`dafny verify dfyconfig.toml` checks everything. Lemmas carry `{:induction false}`: the induction is what their bodies
say, and the solver is not left to guess one.

## How the files belong together

* `Dag` is the loop-free control flow graph after `topo_sort`. A node is named by its position, an edge by its
  source and the branch outcome. Costs are reals; cycle counters are naturals.
* Enumeration of the k longest paths (`next_k`, `push_impossible`): `Streams` is the invariant of the shared
  stream of each node in terms of sets of paths, `PathQueues` ties the queues of the two cursors to it, `Reading`
  and `Serving` treat one step of the inner loop and one demand, `Potential` termination, `Search` the stack of
  demands, `Enumeration` the methods themselves and `Guarantees` what follows for the caller. `PathQueue` is the
  queue class with its cached count.
* Cycles: `Cycles` is the cost model, `Overestimate` the analysis that merges descriptions over edges, `MaxCycles`
  what becomes of the ranking and the bound by these cycles, `Emission` the order in which paths come out for any
  ranking, and `Rejoin` a family of programs in which order and bound by cycles are wrong.
* Bounds: `TopoSort`, `LongestPath`, and `Underestimate`, which joins the two; `LeftOver` is about the nodes that
  could not be sorted.
* Packet sizes: `Sizes`, `SizeFlow` (what the passes compute), `Propagation` (the passes).
* Order of results: `Ratios` and `Threshold` for cycles per byte, `Interleave` for two rankings at once; `Repeats`
  and `EmptyChunk` are runs in which the order is not what one expects.
* Satisfiability: `Pruning` and `Incremental`, and `Blame` for both together. The solver is an oracle whose answers
  are right.
* Threads: `Completion` and `ThreadPool`. The pool is a state machine whose steps are the critical sections.
* Expressions: `BitVectors` (bits, lowest first), `Expressions` (the mutually recursive constructors),
  `Simplify`, `Operators`, `Arithmetic`, `Masks`, `Comparisons` (what constructors denote), `Memory`, `Carry`.
* `MergeBlocks` is the merging of basic blocks.
* `Counting`, `CycleLeader`, `RadixSort`; `Json`, `Jsmn` (as built here: strict, with parent links) and `Documents`,
  the JSON values with their text and their tokens.

## What turned out not to hold

Each point names the input that shows it and the exact condition under which the code does what it should.

* The order of results and the naive bound by MAX_CYCLES. The cost of a block's last instruction depends on the edge
  over which the block was entered, but is counted only when the block is left, so extending two paths by the same
  edge can swap them, and the bound can come out below the cost of a path (`Rejoin.Underestimated`). If over all
  edges into each node the last instruction costs the same, for each way the node is left, costs are sums over edges,
  the bound is right and paths come out in falling order (`MaxCycles.TotalIsCost`, `MaxCycles.UnderestimateCycles`,
  `MaxCycles.EvenFalls`). The condition cannot be weakened for any instruction: whenever two descriptions make it cost
  differently, a program in which two paths meet with these costs ahead has a bound that is too low, by the
  difference if they tie where they meet (`Rejoin.Reorders`). For the order there must be room between the paths: if
  the difference is at least two, there is a program in which one is strictly dearer where they meet and strictly
  cheaper at the end, and a cheaper path comes out before it (`Rejoin.Misordered`); a difference of one leaves none, as
  between 3 and 4 cycles for a branch. For any ranking, paths come out in falling order if going on keeps the order
  of any two paths, and only if it never reverses the order of two that rank differently (`Emission.FallsWhen`).
* `info` cannot be compared pointwise with the exact distances; only the sign of `sincecc` matters
  (`Cycles.NotPointwise`). The bound on every path holds all the same.
* `underestimate_packetrate` goes over all nodes. A left-over node without an entry, as in two blocks that jump to each
  other beside the way to the final node, is a null path that is extended (`LeftOver.LoopBeside`). This cannot happen,
  for any order of the left-over nodes, exactly if each of them that has successors has a placed predecessor
  (`LeftOver.DefinedExactly`).
* With `keep-impossible-paths` off, `next_k` may return an empty chunk while a path that is not found unsatisfiable is
  still to come (`EmptyChunk.NoPathYet`).
  `ipathq::push` then lowers the limit of the ranking to the least value, and a smaller path may be taken first,
  whichever ranking it is (`Interleave.EmptyChunkMisleads`). Limits stay bounds exactly if a chunk is not empty, as
  is certain when unsatisfiable paths are kept, or nothing larger is left (`Interleave.LimitSound`,
  `EmptyChunk.ChunkBounds`); what is taken is the largest path exactly if no ranking with an empty queue has a larger
  one to come (`Interleave.PickExact`). The limits to begin with are the naive bounds, so the first point applies.
* A core that names `min_value` or `max_value` says nothing about where the bound came from. Pruning by a core is right
  in every program with the same bounds exactly if it marks nothing, or the bounds it names have not changed since the
  last branch it names, or that branch leaves no packet size (`Pruning.PruningExact`, `Pruning.BoundsMislead`).
* Assumptions are compared by their expression only, so the names in the core of the incremental strategy may be those
  of an earlier path, and `apply_unsat_core` then marks satisfiable paths (`Blame.Misled`). The core has the query's own
  names exactly if every assumption that was found on the stack has the name it has in the query
  (`Incremental.NamesExact`), and it blames the right assumptions, whatever they mean, exactly if it names all of the
  unsatisfiable beginning (`Incremental.BlameExact`). Then it is a core of the path (`Blame.OwnNamesJustify`). What
  `extend` marks after such an answer is unsatisfiable, whatever the claims mean, exactly if nothing is marked, the
  prefix that is marked makes sure of the whole beginning by itself, or it leaves no packet size
  (`Blame.MarkingExact`).
* `bvand` drops a high part of 16 or 24 bits after looking at 8 bits of the mask (`Masks.AndLosesBits`). In every
  environment it is right exactly if each part that is dropped is zero under the mask (`Masks.BvAndExact`).
* `tpathq` forgets a path once it was taken. If the path arrives again in the stream of another size, it is given out
  again, possibly with a higher ratio than the previous result (`Repeats.Again`). First results never rise, and a
  result rises above the one before it exactly if a path that was given out before is queued again above that one
  (`Threshold.ThresholdQueue.TakeLowestBitrate`).
* The V flag of `+` and `+carry` tells signed overflow exactly if both operands have the same sign (`Carry.PlusExact`,
  `Carry.PlusCarryExact`). `-carry` subtracts the borrow exactly if the carry is that of a subtraction of 32 bits;
  a set carry of any other kind, as after the second of three words, is subtracted instead (`Carry.MinusCarryExact`).
  The carries after them are right under the conditions of `Carry.PlusCarryOut` and `Carry.MinusCarryOut`.
* A JSON document that is a number, a boolean or null with nothing behind it is taken to be incomplete; every other
  one gives its tokens (`Documents.DocumentRead`).
* `merge_edges` treats the final node like any other, so it can be absorbed while `fin_nd` still points to it
  (`MergeBlocks.FinalAbsorbed`). It survives exactly if not one edge alone leads to it or that edge comes from a block
  that branches or jumps (`MergeBlocks.AbsorbedExactly`).

## Model

| member | source | states |
|---|---|---|
| Enumeration.Enumerator.NextK | src/estimator/cfg.cpp:1858-1900 | after any calls, with any paths found unsatisfiable in between: costs never rise, each start-to-fin path comes out at most once, nothing satisfiable still to come costs more than anything emitted, when the end marker comes nothing is missing but, if such paths are dropped, unsatisfiable ones; what comes out and what was dropped on the way make up the k paths asked for, and without the last path read they would not, nor does all but the last path that comes out; at least k come out if such paths are kept or no path to the final node is found unsatisfiable; if they are kept, in the end the emitted sizes add up to the number of paths; a demand for one path ends with one step at the final node; the call ends |
| Streams.DroppedAre | src/estimator/cfg.cpp:1876-1888 | the paths counted as dropped are those an edge has read that are not in the stream of its target: unsatisfiable ones, and none if such paths are kept |
| EmptyChunk.NoPathYet | src/estimator/cfg.cpp:1876-1895 | with unsatisfiable paths dropped next_k can return an empty chunk although the end marker and a complete path that the solver does not find unsatisfiable are still to come; the dropped path is the only one it blames |
| Enumeration.Enumerator.PushImpossible | src/estimator/cfg.cpp:1949-1967 | keeps all of the enumeration's invariants, emits nothing and asks the solver nothing; afterwards, at every node with an outgoing edge, some queue into it is empty or a best first path is not unsatisfiable; only unsatisfiable paths have been moved |
| Enumeration.Enumerator.Condemn | src/estimator/cfg.cpp:664-681 | paths may be found unsatisfiable at any time without disturbing the invariants |
| Enumeration.Enumerator.constructor | src/estimator/cfg.cpp:2098-2101 | the start node's two cursors with the empty path and the end marker satisfy the invariants |
| Enumeration.Enumerator.LongestPred | src/estimator/cfg.cpp:1730-1750 | the edge found offers a path of the largest extended cost, from any rotation |
| Enumeration.Enumerator.Shortest | src/estimator/cfg.cpp:304-312 | finds an incoming edge whose queue stands for the fewest paths |
| Enumeration.Enumerator.Extend | src/estimator/cfg.cpp:646-662 | the extension stands for the same members one edge longer; the solver is asked about a path not yet known to be unsatisfiable and about no other, exactly what its answer blames is condemned, and what is impossible was condemned |
| Enumeration.Enumerator.Fulfil | src/estimator/cfg.cpp:1876-1892 | serving a demand gives the edge the paths it asked for, but for dropped ones, and none that were not needed for that, and gives both readers of the node the same stream |
| Enumeration.Enumerator.Descend | src/estimator/cfg.cpp:1868-1874 | going up along shortest queues keeps the stack of demands consistent and ends at an edge that can be served |
| Enumeration.Enumerator.Ascend | src/estimator/cfg.cpp:1875-1899 | every demand that became servable is served, the stack stays consistent, and some demand made progress |
| Enumeration.Enumerator.Drain | src/estimator/cfg.cpp:1952-1965 | afterwards some queue into the source of the edge is empty or a best first path there is not unsatisfiable; only unsatisfiable paths have been moved, only the queues into that node and that of the edge have changed, and the solver was not asked |
| Streams.Move | src/estimator/cfg.cpp:1876-1888 | moving the best paths of one cursor over one edge keeps the stream invariant of every node: kept paths, bounds and what is missing |
| Streams.Declare | src/estimator/cfg.cpp:683-717 | declaring more prefixes unsatisfiable keeps the stream invariant |
| PathQueues.RefillOk | src/estimator/cfg.cpp:256-264 | taking over what the other cursor has read keeps all queues in step with the streams |
| PathQueues.FlushOk | src/estimator/cfg.cpp:281-302 | handing the extended paths to both cursors keeps all queues in step with the streams |
| Reading.ReadOk | src/estimator/cfg.cpp:1876-1886 | reading the longest path of a node keeps all queues in step with the streams |
| Potential.ReadProgress | src/estimator/cfg.cpp:1876-1886 | each read lowers a potential that no other step raises, so the search ends |
| Search.DescendOk | src/estimator/cfg.cpp:1868-1874 | a demand pushed on the stack keeps the chain of demands |
| Search.AscendOk | src/estimator/cfg.cpp:1890-1899 | serving the top demand restores the chain below it |
| Serving.SumPush | src/estimator/cfg.cpp:765-796 | merging unsatisfiable neighbours or repeated end markers keeps the saturating number of paths |
| Guarantees.Guaranteed | src/estimator/cfg.cpp:1858-1900 | consistent queues imply the whole promise about the emitted paths |
| Guarantees.Conservation | src/estimator/cfg.cpp:560-583 | when everything is kept, the emitted objects stand for exactly the paths of the graph |
| Guarantees.WalksAll | src/estimator/cfg.cpp:1858-1900 | the set of counted paths is the set of start-to-node walks |
| PathQueue.Queue.PushCopy | src/estimator/cfg.cpp:765-777 | the cached count stays the saturating sum of the members through merging |
| PathQueue.Queue.PushMove | src/estimator/cfg.cpp:779-796 | the same when an empty queue takes over the other |
| PathQueue.Queue.Take | src/estimator/cfg.cpp:798-810 | the first path is taken; a saturated count is recomputed and is again the saturating sum |
| Cycles.Exec.Apply | src/estimator/state.cpp:167-182 | each counter grows by what the instruction takes, exact or as described: a waiting access the least number of cycles, but 3 and its operands, with which 25 or 16 have passed since the access before; a safe description keeps the estimate above the exact count and stays safe |
| Cycles.CyclesTaken | src/estimator/state.cpp:71-98 | the cost model gives exactly that, for every instruction, distance and branch outcome |
| Cycles.SafeCost | src/estimator/state.cpp:71-98 | a safe description never underestimates an instruction |
| Cycles.SafeAdvance | src/estimator/state.cpp:54-62 | a safe description stays safe although branches are advanced as not taken |
| Cycles.SafeBelow | src/estimator/state.cpp:64-69 | whatever is below a safe description is safe |
| Cycles.Merge | src/estimator/state.cpp:64-69 | merging gives the greatest description below both |
| Cycles.NotPointwise | src/estimator/state.cpp:54-98 | comparing the distances themselves is not preserved |
| Overestimate.Analysis.Run | src/estimator/cfg.cpp:2276-2310 | the annotations of every edge are the chain of the meet over all edges into its source |
| Overestimate.NeverUnderestimated | src/estimator/cfg.cpp:447-453 | on every path of every loop-free program, for all branch outcomes, max_cycles is at least the exact cycles |
| Overestimate.PathCovered | src/estimator/cfg.cpp:646-662 | along a path the annotation in force is safe for the exact counters |
| Overestimate.BlockCovered | src/estimator/cfg.cpp:2298-2306 | inside a block safety passes from instruction to instruction |
| MaxCycles.TotalIsCost | src/estimator/cfg.cpp:467-479 | if over all edges into a node its last instruction costs the same, for each way the node is left, max_cycles is a sum over edges, so that what holds of the search and the bound for such costs holds for MAX_CYCLES |
| MaxCycles.UnderestimateCycles | src/estimator/cfg.cpp:1809-1826 | under that condition the bound by MAX_CYCLES is the cost of a dearest path; in any case each node keeps a dearest of the paths that go on from those kept before, of equals the one over the edge handled first |
| MaxCycles.EvenFalls | src/estimator/cfg.cpp:1730-1750 | under that condition the paths come out at every node in falling order of their cycles |
| MaxCycles.GreedyOptimal | src/estimator/cfg.cpp:1814-1822 | under that condition no path to a node is dearer than the one kept for it |
| Emission.FallsWhen | src/estimator/cfg.cpp:1730-1750 | for any ranking, and whichever of equal fronts is taken: if every node takes its largest front and each queue is first in first out, paths come out in falling order at all nodes if going on over an edge keeps the order of any two paths, and only if it does not reverse the order of two that rank differently |
| Emission.AllOut | src/estimator/cfg.cpp:1876-1888 | every path to a node comes out there |
| Emission.OnlyWalks | src/estimator/cfg.cpp:1876-1888 | and nothing else does |
| Emission.Emit | src/estimator/cfg.cpp:1876-1888 | taking largest fronts at node after node gives such an order, and ends |
| Rejoin.Reorders | src/estimator/cfg.cpp:467-479 | for any two descriptions that make an instruction cost differently, and any excess d below the difference: a program of a listing in which two paths meet before this instruction with these costs ahead, the first dearer by d where they meet and cheaper by the rest of the difference at the end; whatever annotations and table the analyses leave, the bound is below the cost of a path by that rest |
| Rejoin.JoinListed | src/estimator/cfg.cpp:2544-2560 | the blocks of that program can be laid out at addresses: only a last instruction leaves a block, going on leads to the next address or out of the listing, ordinary instructions cost one cycle, and no block is left to be merged |
| Rejoin.Underestimated | src/estimator/cfg.cpp:1809-1826 | that program annotated by overestimate_cycles, and its bound: too low by the rest of the difference |
| Rejoin.Misordered | src/estimator/cfg.cpp:1876-1888 | with d at least one: the order in which its paths come out has a cheaper path before a dearer one |
| TopoSort.Sort | src/estimator/cfg.cpp:2443-2470 | fails exactly if the final node lies in a set without the start in which every node has a predecessor inside or none at all; otherwise all nodes remain, those before n come after their predecessors, and every node with a path to fin is among them |
| TopoSort.Complete | src/estimator/cfg.cpp:2468-2469 | the nodes that were not placed follow, each once |
| LongestPath.NaiveBound | src/estimator/cfg.cpp:1809-1826 | the result is attained by a start-to-fin walk and exceeded by none |
| LongestPath.RelaxNodeLargest | src/estimator/cfg.cpp:1814-1822 | after a node, each entry is the largest cost over walks whose last edge leaves a node handled so far |
| LongestPath.Reachable | src/estimator/cfg.cpp:1814-1815 | a node has an entry when its turn comes |
| Underestimate.UnderestimatePacketrate | src/estimator/cfg.cpp:1809-1826 | over all nodes, placed or left over: the result is exactly the largest DRAM cost over all paths of the control flow graph; a null path is followed only if some left-over node depends on another for its entry |
| LeftOver.DefinedExactly | src/estimator/cfg.cpp:1814-1822 | no null path is followed, whatever the order of the left-over nodes, if and only if each of them that has successors has a placed predecessor, as when none is left |
| LeftOver.AlongDefined | src/estimator/cfg.cpp:1814-1817 | for one order: exactly if each node with successors has an entry when its turn comes |
| LeftOver.KeepsPlaced | src/estimator/cfg.cpp:1814-1824 | left-over nodes change no entry of a placed node |
| LeftOver.LoopBeside | src/estimator/cfg.cpp:2468-2469 | a branch to two blocks that jump to each other, beside the way to the final node: one order works, the other follows a null path |
| Underestimate.GraphValid | src/estimator/cfg.cpp:2443-2470 | the sorted nodes form a graph whose edges all go forward |
| Underestimate.PathIsWalk | src/estimator/cfg.cpp:2443-2470 | every path of the control flow graph is a walk of the sorted graph |
| Underestimate.WalkIsPath | src/estimator/cfg.cpp:2443-2470 | every walk of the sorted graph is a path of the control flow graph |
| Sizes.Combine | src/estimator/cfg.cpp:812-867 | the step-wise walk of two sorted vectors is the operator applied size by size |
| Sizes.From | src/estimator/cfg.cpp:995-1003 | keeps exactly the entries from m on |
| Sizes.Lookup | src/estimator/cfg.cpp:910-918 | finds the count of a size, or zero |
| Sizes.Join | src/estimator/cfg.cpp:959-977 | `or` is union |
| Sizes.Meet | src/estimator/cfg.cpp:979-993 | `&` is intersection |
| Sizes.Slots | src/estimator/cfg.cpp:1017-1025 | a queue exists for exactly the sizes of the vector, so a push is dropped for no other |
| SizeFlow.PathKept | src/estimator/cfg.cpp:2337-2349 | the largest min_packetsize of a path's edges is kept on every edge of the path |
| SizeFlow.PathReturned | src/estimator/cfg.cpp:2351-2354 | and it is in the returned set for every complete path |
| SizeFlow.KeptExact | src/estimator/cfg.cpp:2337-2349 | an edge keeps a size if and only if a walk over the edge becomes a path of that size by its last edge, or edges that end there begin with that size and do not exceed it |
| SizeFlow.ReturnedExact | src/estimator/cfg.cpp:2351-2354 | a size is returned if and only if some edge into the last node keeps it |
| Propagation.Propagator.Run | src/estimator/cfg.cpp:2312-2355 | the two passes leave on every edge, and return, every size that a path over it needs, and exactly the sizes that KeptExact allows |
| Propagation.Propagator.FirstPass | src/estimator/cfg.cpp:2317-2327 | afterwards an edge has the sizes that it or a later edge introduces |
| Propagation.Propagator.SecondPass | src/estimator/cfg.cpp:2332-2349 | afterwards an edge has the sizes that are possible there or were produced before it |
| Ratios.LessExact | src/estimator/cfg.hpp:53-55 | multiplying crosswise in 64 bits decides the order of the quotients, for all 32-bit values |
| Threshold.UnknownBounded | src/estimator/cfg.cpp:1203-1212 | no path unseen in every stream is worth more than the limit |
| Threshold.FrontDominates | src/estimator/cfg.cpp:1235-1247 | the first queued path, if worth the limit, is worth as much as everything queued or unseen |
| Threshold.ThresholdQueue.TakeLowestBitrate | src/estimator/cfg.cpp:1235-1247 | nothing not yet returned has more cycles per byte; it is refused exactly if the queue is empty, the front is below the limit or undecided; first-time results never rise; a result is above the one before it if and only if a path that was given out before is queued again above that one |
| Threshold.ThresholdQueue.SizesTo | src/estimator/cfg.cpp:1285-1297 | each stream is asked for what is missing to k queued paths worth what it has come down to, and not at all if nothing is |
| Threshold.ThresholdQueue.Receive | src/estimator/cfg.cpp:1203-1212 | each stream advances by its chunk; queue, undecided queue and index hold what pushing the chunks in the order of sizes leaves; the limit is the largest ratio a stream has come down to and bounds all that is unseen |
| Threshold.ThresholdQueue.Push | src/estimator/cfg.cpp:1189-1201 | a path already queued changes nothing; otherwise one item is added, to the undecided ones too if it is not decided |
| Threshold.ThresholdQueue.AdjustSize | src/estimator/cfg.cpp:1269-1282 | one item changes its key, is decided, and all invariants hold |
| Threshold.ThresholdQueue.TakeUndecided | src/estimator/cfg.cpp:1256-1264 | the first undecided path is given out for a check and stays queued; it is refused exactly if nothing is undecided or the first is below the limit |
| Threshold.ThresholdQueue.constructor | src/estimator/cfg.cpp:1184-1187 | nothing read, limit highest |
| Repeats.Again | src/estimator/cfg.cpp:2151-2182 | two rounds over two streams that share a path, asking by sizes_to for two paths and then for three: it is given out again after paths with lower ratios |
| Interleave.PickLargest | src/estimator/cfg.cpp:1504-1526 | no path queued, and none that either ranking will still deliver as its own, has a larger maximum |
| Interleave.PickExact | src/estimator/cfg.cpp:1504-1526 | that exact condition, for all queues and limits |
| Interleave.Interleaver.Take | src/estimator/cfg.cpp:1504-1542 | returns a path exactly if some queue is not empty whose first path counts at least both limits; no other path is larger if the limits are bounds, and whatever they are, exactly if no ranking with an empty queue has yet to deliver a larger path of its own; the path comes from the queue of its dominant ranking |
| Interleave.PickDue | src/estimator/cfg.cpp:1504-1526 | looking at the first paths in turn finds one to take exactly if there is one |
| Interleave.Interleaver.Pull | src/estimator/cfg.cpp:1458-1480 | the ranking with the higher limit advances, and its limit becomes the value of the last path of the chunk or the least value; limits stay bounds exactly if the chunk is not empty or only least values remain |
| Interleave.AcceptedContents | src/estimator/cfg.cpp:1473-1480 | a chunk adds exactly the paths for which this ranking is dominant, each once, and counts every unsatisfiable one |
| Interleave.LimitSound | src/estimator/cfg.cpp:1479 | the last value of a chunk bounds the rest; of an empty chunk it does only if nothing larger is left |
| Interleave.EmptyChunkMisleads | src/estimator/cfg.cpp:1474-1480 | for either ranking: after an empty chunk its limit lets a smaller path be taken before a larger |
| EmptyChunk.ChunkBounds | src/estimator/cfg.cpp:1458-1480 | a chunk that meets a demand, as next_k gives it when unsatisfiable paths are kept, leaves a limit that bounds the rest; an empty one does only if nothing above the least value is left |
| Interleave.MaxOfLargest | src/estimator/cfg.cpp:1311-1321 | the dominant value is the largest of both |
| Interleave.Interleaver.constructor | src/estimator/cfg.cpp:1529-1530 | the limits begin as the naive bounds |
| Pruning.CutInfeasible | src/estimator/cfg.cpp:683-697 | if the core names no bound that changed after the last branch it names, no extension of the cut is satisfiable |
| Pruning.PruningExact | src/estimator/cfg.cpp:683-697 | for all bounds, paths and cores: apply_unsat_core is right in every program with these bounds for which the core is right, if and only if nothing is marked, the bounds named are those of the cut already, or the cut leaves no packet size |
| Pruning.BoundsMislead | src/estimator/state.cpp:130-158 | otherwise there is a program with these bounds, and a model for each packet size, whose core is right and whose cut is satisfiable |
| Pruning.MarkedExtends | src/estimator/cfg.cpp:699-717 | the marked paths are closed under extension |
| Pruning.PathTree.MarkUnsat | src/estimator/cfg.cpp:699-717 | the search marks exactly the living extensions |
| Pruning.PathTree.ApplyUnsatCore | src/estimator/cfg.cpp:683-697 | marks exactly the living extensions of the prefix that ends with the last branch in the core |
| Pruning.PathTree.Extend | src/estimator/cfg.cpp:501-513 | a path stays possible exactly if its predecessor is not marked and it lives already or the solver does not refute it; a refuted one is unsatisfiable, exactly what the core cuts off is marked with it, and each path points to exactly the living paths that go on from it, unless it is marked |
| Pruning.PathTree.Refute | src/estimator/cfg.cpp:664-681 | a refuted path and its extensions are marked with what the core cuts off and nothing else, and all that is marked is unsatisfiable |
| Pruning.PathTree.constructor | src/estimator/cfg.cpp:594-597 | the root alone |
| Incremental.IncrementalStrategy.CheckSat | src/estimator/state.cpp:486-558 | sat exactly if the requested list is satisfiable, with a model of it, that of before exactly if the stack goes on behind the list and has one; else the names that the stack holds for an unsatisfiable beginning, old ones for what was there already, and behind what was there no shorter beginning is unsatisfiable; scopes mirror the stack and a cached model satisfies all of it, after any queries |
| Incremental.ShortestExact | src/estimator/state.cpp:523-538 | the core is for the shortest unsatisfiable beginning of the list, if what was found on the stack is satisfiable |
| Incremental.NamesExact | src/estimator/state.cpp:512-527 | the stack then holds the query's own assumptions if and only if each assumption found there has the query's name; the core has only names of that beginning if and only if all those found there have such names |
| Incremental.BlameExact | src/estimator/state.cpp:553-557 | a core blames assumptions that contradict each other, whatever the expressions mean, if and only if it names the whole unsatisfiable beginning |
| Incremental.IncrementalStrategy.Align | src/estimator/state.cpp:512-545 | reuses the longest common beginning; a model of a longer stack serves |
| Incremental.IncrementalStrategy.Extend | src/estimator/state.cpp:523-538 | pushes until the first contradiction, and no further |
| Incremental.PrefixUnsat | src/estimator/state.cpp:537-538 | a contradictory beginning makes the list contradictory |
| Incremental.IncrementalStrategy.constructor | src/estimator/state.cpp:486-500 | an empty stack mirrors no scopes |
| Blame.Refuted | src/estimator/state.cpp:486-558 | a path that the incremental strategy refutes is unsatisfiable, whatever the names |
| Blame.OwnNamesJustify | src/estimator/cfg.cpp:655-658 | with the query's own names the core is one of the path, and with settled bounds what extend then marks is unsatisfiable |
| Blame.MarkingExact | src/estimator/cfg.cpp:683-697 | the names that the stack holds for a contradictory beginning, taken as the core: what apply_unsat_core marks is unsatisfiable, whatever the claims mean, if and only if nothing is marked, or the marked prefix alone makes sure of every assumption of the beginning, or it leaves no packet size |
| Blame.SupportedAnswer | src/estimator/cfg.cpp:655-658 | so after every unsat answer of the strategy with which this is the case |
| Blame.Misled | src/estimator/cfg.cpp:683-717 | two queries whose second core has a name of the first path: apply_unsat_core goes past the branch meant and marks a satisfiable path |
| Completion.CompletionState.Sync | src/estimator/thread_pool.hpp:54-69 | the method does what the submission function says |
| Completion.SubmitOrderly | src/estimator/thread_pool.hpp:54-69 | whatever order results arrive in, callbacks run in index order, each once |
| Completion.DrainOrderly | src/estimator/thread_pool.hpp:63-68 | waiting callbacks run until one is missing |
| Completion.AllCalled | src/estimator/thread_pool.hpp:54-69 | when all are submitted, all have been called in order |
| ThreadPool.InOrderAlways | src/estimator/thread_pool.hpp:85-105 | in every interleaving the callbacks that ran are those of the first indices, in order |
| ThreadPool.NeverOverwritten | src/estimator/thread_pool.cpp:43-57 | in every interleaving the slot is empty when a job is put there |
| ThreadPool.WaitReturns | src/estimator/thread_pool.cpp:59-63 | when wait returns no job is under way and every callback has run |
| ThreadPool.NoDeadlock | src/estimator/thread_pool.cpp:11-27 | unless the main thread can go on, some thread can |
| ThreadPool.WaitReachable | src/estimator/thread_pool.cpp:59-63 | from every reachable state the threads get to where wait returns |
| ThreadPool.StepsEnd | src/estimator/thread_pool.cpp:11-27 | steps without new jobs come to an end |
| ThreadPool.RunInv | src/estimator/thread_pool.cpp:11-63 | every job is in exactly one place until its result is submitted, and the counters agree |
| RadixSort.Sort | src/statistics.c:95-132 | any array of 32-bit values becomes sorted, with the same elements |
| RadixSort.SortBucket | src/statistics.c:81-93 | a bucket of equal high halves becomes sorted, the rest is untouched |
| RadixSort.SpreadPermutes | src/statistics.c:88-92 | rewriting a bucket from its counts is a permutation |
| RadixSort.DoneNext | src/statistics.c:125-131 | sorting one more bucket extends the sorted part |
| CycleLeader.Permute | src/statistics.c:111-123 | all pointers reach the ends of their buckets and every value is in its bucket, with the same elements |
| CycleLeader.Follow | src/statistics.c:113-121 | a displacement cycle ends with a value of the bucket it started in |
| CycleLeader.SwapPlaced | src/statistics.c:115-121 | a displaced value lands in its bucket and pointers stay in their ranges |
| CycleLeader.Room | src/statistics.c:115-121 | the bucket of a misplaced value is not full |
| CycleLeader.Accumulate | src/statistics.c:105-109 | running totals are the ends and beginnings of the buckets |
| Counting.Tally | src/statistics.c:85-86 | frequencies count the keys and add up to the length |
| Jsmn.TwoPasses | src/mapdef.c:20-33 | allocating what was counted never leads to JSMN_ERROR_NOMEM; accepted tokens are well-formed and begin and end in the text as their kinds say; the result is that of both passes |
| Jsmn.Parser.Parse | src/jsmn.c:151-303 | with enough tokens for the count there is no JSMN_ERROR_NOMEM; on success the count is the same, every token is closed, begins and ends in the text as its kind says, any two are nested or apart, and sizes count children; result, tokens and errors are those of reading the text character by character |
| Jsmn.Parser.CountTokens | src/jsmn.c:151-303 | without tokens the result is the number of tokens of the text |
| Jsmn.Parser.CloseContainer | src/jsmn.c:182-207 | the innermost open token is closed, found over parent links, and its parent is the next one to have children |
| Jsmn.Parser.ScanString | src/jsmn.c:84-146 | stops at the closing quote or leaves the position unchanged |
| Jsmn.Parser.ScanPrimitive | src/jsmn.c:35-79 | stops at the delimiter or leaves the position unchanged |
| Jsmn.Parser.Step | src/jsmn.c:158-291 | one round does to tokens and parser what the next character says |
| Jsmn.Parser.Allocate | src/jsmn.c:6-30 | one token more and one child more for the parent, or nothing if there is no room |
| Documents.DocumentRead | src/mapdef.c:20-33 | for every JSON document and any white space: counting and then reading gives exactly its tokens, with their kinds, the parts of the text, their numbers of children and their parents, a key below its object and a value below its key; but a primitive with nothing behind it is taken to be incomplete |
| Documents.RoundTrip | src/jsmn.c:151-303 | the same of reading alone, with any number of tokens that is enough |
| Documents.ValueRun | src/jsmn.c:151-303 | inside any text, at the token that comes next to have children: a value adds its tokens there |
| Documents.BodyEnds | src/jsmn.c:84-146 | a string with escapes ends at its closing quote |
| Json.RunCounts | src/jsmn.c:151-303 | whatever text is accepted, every token is counted |
| Json.RunRoom | src/jsmn.c:151-303 | tokens run out only if there are more than fit |
| Json.RunSpelled | src/jsmn.c:151-303 | in whatever text is accepted, objects and arrays begin and end with their brackets, strings lie between quotes, and primitives end at a delimiter |
| Json.Close | src/jsmn.c:191-199 | closing the innermost open token keeps the tree |
| Json.AddContainer | src/jsmn.c:164-181 | a new container keeps the tree |
| Json.AddLeaf | src/jsmn.c:101-110 | a string or primitive keeps the tree |
| Json.Leave | src/jsmn.c:243-248 | a comma after a value keeps the tree |
| Json.Finish | src/jsmn.c:293-302 | a tree without open tokens is well-formed |
| Expressions.Extract | src/estimator/expr.hpp:2356-2411 | the recursion with concat ends, for all widths; types are kept |
| Expressions.Concat | src/estimator/expr.hpp:2422-2454 | the recursion with extract ends, for all widths; types are kept |
| Simplify.ExtractMeans | src/estimator/expr.hpp:2356-2411 | extract denotes the bits from lo to hi, in every environment |
| Simplify.ConcatMeans | src/estimator/expr.hpp:2422-2454 | concat denotes both bit strings, one behind the other |
| Simplify.ExtractConcatenationMeans | src/estimator/expr.hpp:1716-1761 | taking bits from a concatenation |
| Simplify.ExtractExtractionMeans | src/estimator/expr.hpp:1680-1714 | taking bits from an extraction |
| Simplify.PullMeans | src/estimator/expr.hpp:1827-1843 | a constant pulled into an extraction |
| Simplify.MergeMeans | src/estimator/expr.hpp:1806-1825 | constants merged in front |
| Operators.BvOrMeans | src/estimator/expr.hpp:2528-2561 | bvor denotes the bitwise or, with concatenations split at any two of the piece widths |
| Operators.BvOr | src/estimator/expr.hpp:1983-2024 | the splitting ends |
| Arithmetic.BvShlMeans | src/estimator/expr.hpp:2577-2607 | bvshl denotes the left shift |
| Arithmetic.BvLshrMeans | src/estimator/expr.hpp:2609-2633 | bvlshr denotes the right shift |
| Arithmetic.BvAddMeans | src/estimator/expr.hpp:2635-2661 | bvadd denotes addition, also when it is pulled into an extraction |
| Arithmetic.BvAdd | src/estimator/expr.hpp:2145-2157 | the pulling ends |
| BitVectors.AddValue | src/estimator/expr.hpp:2635-2661 | bitwise addition is addition of numbers but for the carry |
| BitVectors.ToBitsJoin | src/estimator/expr.hpp:1798-1804 | (a << B) + b is concatenation |
| Comparisons.BvUltMeans | src/estimator/expr.hpp:2275-2290 | bvult decides the order of the numbers, also behind a constant high part |
| Comparisons.BvUgeMeans | src/estimator/expr.hpp:2302-2317 | bvuge decides its complement |
| Comparisons.IsFalseMeans | src/estimator/expr.hpp:2202-2219 | isfalse denotes the negation |
| Comparisons.BvCompMeans | src/estimator/expr.hpp:2240-2273 | bvcomp denotes equality, also of an or with zero |
| Masks.BvAndExact | src/estimator/expr.hpp:2456-2526 | in every environment bvand denotes the bitwise and if and only if every high part that is dropped is zero under the mask |
| Masks.BvAndMeans | src/estimator/expr.hpp:2456-2526 | a mask without bits in the dropped parts is sufficient for that in all environments |
| Masks.PullLosesBits | src/estimator/expr.hpp:1965-1981 | if the tested byte is clear and another bit of the mask above the low part is not, dropping a variable high part loses that bit |
| Masks.AndLosesBits | src/estimator/expr.hpp:2456-2526 | an instance: a mask on the left of a concatenation with a variable high part, where bvand is wrong for every mask of that kind that no other rule takes |
| Masks.KeepMeans | src/estimator/expr.hpp:1938-1963 | masks that are fields are extractions |
| Memory.SelectAfterStores | src/estimator/expr.hpp:2329-2354 | after any writes with constant or symbolic offsets a read gives what was written there last |
| Memory.StoreReads | src/estimator/expr.hpp:2343-2354 | one store changes one offset |
| Carry.MinusOrders | src/estimator/instr.cpp:569-583 | after - : bcc and bcs decide the unsigned order, blt and bge the signed order |
| Carry.MinusChain | src/estimator/instr.cpp:593-618 | - and -carry give the 64-bit difference |
| Carry.MinusChainUnsigned | src/estimator/instr.cpp:825-905 | then bcc and bcs decide the unsigned 64-bit order and are complements |
| Carry.MinusChainSigned | src/estimator/instr.cpp:919-945 | then blt and bge decide the signed 64-bit order and are complements |
| Carry.PlusChain | src/estimator/instr.cpp:528-565 | + and +carry give the 64-bit sum; bcs tells whether it overflowed |
| Carry.PlusCarries | src/estimator/instr.cpp:491-502 | after + bcs tells whether 32 bits overflowed |
| Carry.PlusExact | src/estimator/instr.cpp:491-502 | + gives the 32-bit sum; its V flag tells signed overflow if and only if both operands have the same sign |
| Carry.PlusCarryExact | src/estimator/instr.cpp:528-565 | +carry adds any carry, a bit or one of 32 or 64 bits; its V flag tells signed overflow if and only if both operands have the same sign |
| Carry.PlusCarryOut | src/estimator/instr.cpp:531-552 | the carry after it is right if and only if the one before came from an addition of 32 bits or the operands alone do not overflow |
| Carry.MinusCarryExact | src/estimator/instr.cpp:593-618 | -carry subtracts one besides if there was a borrow, but for a carry that is not that of a subtraction of 32 bits one if it is set: so the borrow is subtracted if and only if the carry is such; the V flag tells signed overflow in any case |
| Carry.MinusCarryOut | src/estimator/instr.cpp:593-618 | the borrow after it is right if and only if the carry was such or the operands alone need none |
| MergeBlocks.MergePreserves | src/estimator/cfg.cpp:221-236 | absorbing the only successor changes no sequence of instructions and branch outcomes from any remaining block |
| MergeBlocks.Cfg.MergeEdges | src/estimator/cfg.cpp:2472-2504 | the executable sequences from the blocks that remain, the first among them, stay the same, nothing is left to merge, and a block disappears if and only if some block could absorb it before |
| MergeBlocks.AbsorbedExactly | src/estimator/cfg.cpp:2478-2490 | that is the case if and only if exactly one edge leads to the block, from a block that ends without a branch; the final node survives exactly otherwise |
| MergeBlocks.FinalAbsorbed | src/estimator/cfg.cpp:2486-2491 | one instruction before the final node is enough for it to disappear |
| MergeBlocks.Cfg.Sweep | src/estimator/cfg.cpp:2494-2503 | exactly the deleted nodes disappear from the vector |
| MergeBlocks.StaysUnmergeable | src/estimator/cfg.cpp:2475-2492 | one pass over the nodes is enough |

## Left out

- Enumeration.Enumerator.NextK: stated for a single ranking whose extension cost depends on the edge alone, which MAX_CYCLES is under the condition of MaxCycles.TotalIsCost (for the order by cycles in general see Emission.FallsWhen); requires that the end marker has not come out, since the code would then read from an empty queue; jobs of the thread pool run one after the other, which the ordered completion justifies.
- Enumeration.Enumerator.Extend: what the solver's answer for a path blames is any set of prefixes, as a function of the path, about which it is asked once; what an answer may mark is the subject of Pruning.
- Emission.Emit: all paths are asked for at once, none is merged or cut, and of equal fronts any may be taken; the search as it is, by demands, is Enumeration.Enumerator.NextK.
- The variant of next_k with one queue per packet size runs the same search once per size and is not repeated.
- PathQueues.RefillOk: queues are values in one record, not shared deques; impossible paths carry their members where the source has a count, so the wrap-around of that count is not modelled.
- Cycles.Exec.Apply: counters are unbounded, the source's unsigned int is not; where the least cost of a memory access exceeded the largest, the source's difference would wrap (no operand costs anything there); the symbolic state beside the counters is not part of this model.
- LongestPath.NaiveBound: the ranking by DRAM cycles, on the sorted graph; MaxCycles.UnderestimateCycles is that by cycles.
- TopoSort.Sort: assumes that the start has no predecessor; a jump back to it would place it twice.
- Underestimate.UnderestimatePacketrate: the order of the left-over nodes, which the source takes from their addresses, is arbitrary.
- Threshold.ThresholdQueue.TakeLowestBitrate: integers are compared as in MAX_CYCLES; the floating-point ratios of DRAM_CYCLES, and the combination of two such queues in itpathq are not modelled.
- Repeats.Pull: one ranking; a demand is met as far as the stream goes.
- Threshold.UnknownBounded: takes from the packet-size dataflow that each path is in the stream of some size it can do with.
- Interleave.Interleaver.Take: rational numbers stand for doubles.
- Sizes.Combine: the operators + and - are further instances and < is a query; they only steer how much is asked for and are not spelt out.
- Pruning.PathTree.Extend: takes from its caller that a refuted path is unsatisfiable and, where the core cuts off more than the path, that Pruning.PruningExact applies; one thread; expiry of weak pointers to paths that nobody holds any more is not modelled.
- Incremental.IncrementalStrategy.CheckSat: definitions sent along with assumptions do not constrain models; that a cached model is minimal is not claimed.
- ThreadPool.WaitReturns: one ordered completion at a time, and a condition variable is its predicate, so lost wake-ups are not considered; the index of a job is not truncated to 32 bits; shutting down is not modelled.
- Jsmn.Parser.Parse: starts from jsmn_init, not from an interrupted parse; positions are unbounded; accepted text need not be JSON (a closing bracket too many is accepted after a colon that follows a closed token); for text that is not JSON no claim is made about which token is the parent.
- Arithmetic.BvShlMeans: constant shift amounts of 64 and more are undefined in the source and excluded, as in Arithmetic.BvLshrMeans.
- Masks.BvAndMeans: the rule for an all-ones mask is modelled below 64 bits, where the source's shift is defined.
- Carry.MinusChain: plain words; operands that are pointers are not modelled.
- Carry.PlusCarryExact: a carry that is passed on as a bit is taken to be what bcs tells of it; the source has no other meaning for it, and pointers among the operands are not modelled.
- MergeBlocks.Cfg.MergeEdges: assumes that all blocks can be reached and that the first has no predecessor, as remove_unreachable and the listing ensure.
- Talking to Z3, writing and reading SMT text: the solver is an oracle.
- Pointer expressions, undefined values and their comparisons: assumptions about memory layout, not bit vector identities.
- cfg::unroll: which depth a clone gets depends on the order of a search and on the blocks on its stack.
- static_merge of memories: the comparison it relies on looks only at as many entries as one side has.
- Parsers of listings and models, reports, timers, statistics output, command lines.
- The other programs of the repository: packet generator, BPF loader, hardware information, scripts.
