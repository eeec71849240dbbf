# Verified model of STONNE's on-chip networks

STONNE is a cycle-level simulator of DNN accelerators. Partial sums leave an array of multipliers, are
added up per virtual neuron (VN) by a reduction network, and reach memory over a collection bus. This
project models, in Dafny, the code that configures and steps those networks, and proves that the
configured networks compute what they are for.

## What is modelled

- **The augmented reduction tree.** `Layout`, `Tile`, `Exclusive`, `Signals` and `Configured` describe
  which adders a VN keeps, drops or merges on each level and what every adder ends up configured as.
  `Compiler` is the bit-array pass that produces that configuration, `ASwitch` one adder, `ASNetwork` the
  tree of adders with its sequential stepping order, `Order` the argument that this order is a
  synchronous cycle. `Network`, `Streams`, `Flow`, `Invariant`, `Step` and `Run` carry the reduction
  theorem over all runs, `Latency` its timing, `Simulation` the same for the objects themselves.
  `Exact` proves for which lists of VN sizes the theorem holds: for exactly those, and on every other
  list a run goes wrong. `Enabling` says what the enabled inputs and the memory flags stand for, and
  `Topology` builds the connection tables.
- **The fold network.** `Fold` and `CompilerFEN` give every VN a fold node; `FoldNetwork` is the network as
  a state machine; `FoldRun` proves what the fold nodes write over whole runs; `FoldExact` that such runs
  exist, and that on dense tiles no check fails exactly when no two VNs of one multiplier share an adder.
  `FEASwitch` and `FENetwork` are the switches and the stepping loop, `FoldSimulation` runs them.
- **The distribution trees.** `Distribution` and `DistributionTop`.
- **Collection.** `BusLine` (round-robin arbiter), `Accumulator`, `TemporalRN`, which wires accumulators
  to the bus, and `Collection`, which runs both together.
- **The multiplier compiler.** `CompilerMSN`.
- **TOML.** `Toml`, `TomlEscapes` and `TomlTime`: the writer and the parser for strings, nested arrays
  and local times (the "String", "Array" and "Local Time" sections of TOML v0.5.0).

Conventions. A network with 2^levels multipliers has `levels` levels of adders; adder (l, n) is number n
of level l, (0, 0) the root. Psums of the trees are `real`; accumulators take any data type and any
addition. A connection is an entry of a map or a sequence and is pending when it is not empty. Assertions
of the source are part of what a step returns, or are proved to hold in every reachable state; arrival of
psums at the multipliers is an arbitrary schedule. Dense tiles and sparse VN lists share one pass over a
list of sizes, as the two passes of the source differ only in where the sizes come from.

What the code does where its intent is wider: a sparse list that contains short VNs can be reduced
wrongly. `Exactness.ReducibleExactly` gives the exact condition and `Exactness.ShortPairFails` a list of
two VNs that violates it. The fold network fails a check when two VNs of one multiplier share an adder;
`FoldExactness.DenseFoldsExactly` says which dense tiles are safe. The TOML writer prints control
characters other than the five named ones unpadded, and the parser then reads something else;
`Toml.StringRoundTrip` states both directions. The parser encodes half of the code points of three bytes
as others; `TomlEscapes.ThreeBytesDecode` and `TomlEscapes.Utf8Distinct` say which.

## Model

| member | source | states |
|---|---|---|
| `Layout.KeepShape` | stonne/stonne/src/CompilerART.cpp:160-413 | Level invariant: after every level the adders kept by a VN are a single adder or a contiguous run with an even start and an odd end, inside the parents of what was kept below; a run strictly shrinks; a single adder stays single. |
| `Layout.LinkPairs` | stonne/stonne/src/CompilerART.cpp:262-349 | In the claims of one VN, an adder hands its sum over a forwarding link if and only if the neighbour at the other end of that link receives it. |
| `Tiles.KeptBounds` | stonne/stonne/src/CompilerART.cpp:160-413 | The level invariant at every level of every VN of every tile, inside the level. |
| `Tiles.KeptOrdered` | stonne/stonne/src/CompilerART.cpp:141-151 | Later VNs stay weakly to the right of earlier ones at every level. |
| `Tiles.ActiveFull` | stonne/stonne/src/CompilerART.cpp:160-413 | Above the last level every adder that an unfinished VN covers has both children kept by that VN. |
| `Tiles.SingleStays` | stonne/stonne/src/CompilerART.cpp:415-420 | Once a VN is down to one adder it stays at one adder on every level above. |
| `Exclusivity.LeafShare` | stonne/stonne/src/CompilerART.cpp:536-832 | When two VNs of a reducible tile meet on a last-level adder they are neighbours, one multiplier each below it, and exactly one of them leaves through the forwarding link (or both have one multiplier). |
| `Exclusivity.KeptExclusive` | stonne/stonne/src/CompilerART.cpp:536-832 | Exclusivity: an adder kept by an unfinished VN of a reducible tile is kept by no other VN on that level. |
| `Exclusivity.CoverExclusive` | stonne/stonne/src/CompilerART.cpp:536-832 | Above the last level, an adder that an unfinished VN covers is covered by no other VN. |
| `Signals.LinksPaired` | stonne/stonne/src/CompilerART.cpp:313-349 | For every list of VNs, both ends of every forwarding link are off, or one is set to send and the other to receive. |
| `Signals.EdgesUnlinked` | stonne/stonne/src/CompilerART.cpp:172-193 | The first and the last adder of a level never have a link set. |
| `Signals.EarlierLinks` | stonne/stonne/src/CompilerART.cpp:262-400 | A link that earlier VNs left on an adder of a later VN is a send on its first, even adder, so claiming it cannot reverse a link. |
| `Steps.NotDiverted` | stonne/stonne/src/CompilerART.cpp:415-420 | A memory flag set for one VN, also those set on ancestors after it finished, never diverts the partial sum of another VN. |
| `Steps.ThreeOperandSound` | stonne/stonne/src/CompilerART.cpp:262-349 | Every adder set to ADD_3_1 serves one VN alone: both its children carry that VN, both inputs are enabled, and the neighbour at the other end of its link carries that VN and is set to send. |
| `Steps.CompiledLinks` | stonne/stonne/src/CompilerART.cpp:313-349 | The loaded configuration has the paired links and unlinked edges that the stepping order relies on. |
| `Configured.Owners` | stonne/stonne/src/CompilerART.cpp:536-832 | Every adder with data serves one VN, or on the last level two neighbouring VNs. |
| `Configured.SoloConfig` | stonne/stonne/src/CompilerART.cpp:36-133 | An adder that serves one VN: enabled inputs are exactly the children that carry the VN, mode and link follow its role, and it writes to memory exactly when the VN is complete there. |
| `Configured.SharedConfig` | stonne/stonne/src/CompilerART.cpp:354-400 | An adder split between two VNs is set to ADD_1_1_PLUS_FW_1_1 with its link sending, or to FW_2_2 when both VNs have one multiplier, and who goes where follows its parity. |
| `Compiler.CompilerART.LeftSpan` | stonne/stonne/src/CompilerART.cpp:204-216 | The loop returns the length of the run of set bits ending at a position. |
| `Compiler.CompilerART.RightSpan` | stonne/stonne/src/CompilerART.cpp:221-233 | The loop returns the length of the run of set bits starting at a position. |
| `Compiler.CompilerART.PairDecide` | stonne/stonne/src/CompilerART.cpp:235-310 | The span comparison finds which side of a pair sends, if any, exactly as the level invariant says; every bit index it reads is in range. |
| `Compiler.CompilerART.PairPass` | stonne/stonne/src/CompilerART.cpp:197-400 | One pair of adders: the bits it clears, the parents it keeps and the signals it sets are those of the VN's roles on the two adders, and nothing else changes. |
| `Compiler.CompilerART.EdgePass` | stonne/stonne/src/CompilerART.cpp:172-193 | The first or last adder of a level. |
| `Compiler.CompilerART.LevelPass` | stonne/stonne/src/CompilerART.cpp:160-400 | One level of one VN: the parent bits end up as the adders the VN keeps, and every adder's signals as the VN's claim on them. |
| `Compiler.CompilerART.Promote` | stonne/stonne/src/CompilerART.cpp:401-413 | Counts the kept adders, moves the parent bits down and clears them. |
| `Compiler.CompilerART.VNPass` | stonne/stonne/src/CompilerART.cpp:160-425 | All levels of one VN, with its memory flags. |
| `Compiler.CompilerART.GenerateSignals` | stonne/stonne/src/CompilerART.cpp:135-429 | After all VNs, the signal and memory maps hold for every adder what the VNs claimed in turn. |
| `Compiler.CompilerART.EnableLinks` | stonne/stonne/src/CompilerART.cpp:36-133 | Every input is enabled exactly when a used multiplier, or an adder that sends up, is below it. |
| `Compiler.CompilerART.ConfigureSignals` | stonne/stonne/src/CompilerART.cpp:9-34 | The compiled maps give every adder of every tile, dense or sparse, the configuration the theorems are about. |
| `Adders.ASwitch.Route21` | stonne/stonne/src/ASwitch.cpp:387-438 | Adds two, waits for an enabled input, forwards past a disabled one; the sum, of two packages of one VN, goes to the link if there is one and else to the parent. |
| `Adders.ASwitch.Route31` | stonne/stonne/src/ASwitch.cpp:441-461 | Adds three packages of one VN when all are present and sends the sum up; both inputs are enabled and the link is set to receive. |
| `Adders.ASwitch.Route11PlusFw11` | stonne/stonne/src/ASwitch.cpp:463-503 | Splits the inputs: on an even adder the left one goes to the link and the right one, not of VN 0, up; on an odd adder the other way round; both inputs are enabled. |
| `Adders.ASwitch.RouteFw22` | stonne/stonne/src/ASwitch.cpp:506-524 | Empties both inputs to the parent, left first. |
| `Adders.ASwitch.Cycle` | stonne/stonne/src/ASwitch.cpp:527-557 | One cycle of a switch as a function of its configuration, its FIFOs and what is pending; FIFOs for output are empty again. |
| `Streams.Fire21` | stonne/stonne/src/ASwitch.cpp:387-438 | On streams of packages of one VN, a 2:1 adder emits the sum of the next pair exactly when both are there. |
| `Streams.Fire31` | stonne/stonne/src/ASwitch.cpp:349-383 | On streams of packages of one VN, a 3:1 adder emits the sum of the next triple exactly when all are there, and its VN checks hold. |
| `Streams.Fire11` | stonne/stonne/src/ASwitch.cpp:463-503 | A splitting adder passes both streams on, each in order. |
| `ReductionNetwork.ASNetwork.constructor` | stonne/stonne/src/ASNetwork.cpp:11-101 | A tree with one switch of its own for every place, all empty and unconfigured. |
| `Topology.BuildPorts` | stonne/stonne/src/ASNetwork.cpp:24-98 | The nested loops give every switch its connection up, its two connections down and its forwarding link, the last also to the left neighbour already built. |
| `Topology.TreeEdges` | stonne/stonne/src/ASNetwork.cpp:46-95 | The connection up from one switch is the left, or the right, connection down of another if and only if it is that child of it. |
| `Topology.LinkEdges` | stonne/stonne/src/ASNetwork.cpp:51-73 | Two switches share a forwarding link if and only if they are neighbours without a common parent, neither of them at an edge of its level. |
| `ReductionNetwork.ASNetwork.BuildTable` | stonne/stonne/src/ASNetwork.cpp:24-98 | The switch table holds exactly the places of the tree, with distinct new switches. |
| `ReductionNetwork.ASNetwork.Configure` | stonne/stonne/src/ASNetwork.cpp:279-312 | Every switch is loaded with the configuration compiled for its place; no data moves. |
| `ReductionNetwork.ASNetwork.StepSwitch` | stonne/stonne/src/ASNetwork.cpp:329-353 | Stepping one switch changes its FIFOs and the connections around it as the sequential step says. |
| `ReductionNetwork.ASNetwork.NextTurn` | stonne/stonne/src/ASNetwork.cpp:329-353 | One turn of the loop steps one switch, or the two ends of a link with the receiver first, each of them for the first time in the cycle. |
| `ReductionNetwork.ASNetwork.Cycle` | stonne/stonne/src/ASNetwork.cpp:315-359 | The sequential loop computes the synchronous cycle in which every switch reads only what was pending before the cycle. |
| `Ordering.TurnTaken` | stonne/stonne/src/ASNetwork.cpp:325-357 | Run safety: a switch that may run now sees what it would have seen at the start of the cycle, and after it ran every switch still to run does too. |
| `Ordering.TurnClear` | stonne/stonne/src/Connection.cpp:23-59 | When the turn of a switch comes, the connections it is about to send on hold nothing unread. |
| `Ordering.TurnOk` | stonne/stonne/src/ASwitch.cpp:286-311 | The checks of a switch hold in its turn when they hold at the start of the cycle. |
| `Ordering.AllRun` | stonne/stonne/src/ASNetwork.cpp:315-359 | When every switch has run once, the state is that of the synchronous cycle. |
| `Flow.Conservation` | stonne/stonne/src/ASwitch.cpp:387-524 | At every level the values kept for a VN add up to the sum of its psums, for every wave. |
| `Flow.CompleteValue` | stonne/stonne/src/ASwitch.cpp:387-524 | The adder that completes a VN emits the VN's sums. |
| `Invariants.AdderServed` | stonne/stonne/src/ASwitch.cpp:387-557 | One cycle of any adder in a state that satisfies the invariant: no check fails, and every VN that uses it is served by exactly the packages due. |
| `Steps.StepHolds` | stonne/stonne/src/ASNetwork.cpp:315-359 | Every cycle keeps the invariant that fixes the contents of every FIFO and connection by how many packages each adder has emitted. |
| `Steps.StepOk` | stonne/stonne/src/ASwitch.cpp:313-383 | In every state that satisfies the invariant no assertion of any switch fails. |
| `Steps.RootToMemory` | stonne/stonne/src/ASNetwork.cpp:41-44 | Nothing ever leaves through the output of the root: all of it goes to memory. |
| `Runs.RunHolds` | stonne/stonne/src/ASNetwork.cpp:315-359 | The invariant holds before and after every cycle of every run. |
| `Runs.FinishUnique` | stonne/stonne/src/CompilerART.cpp:415-420 | Exactly one adder completes a VN. |
| `Runs.ReductionCorrect` | stonne/stonne/src/ASwitch.cpp:387-557 | Reduction theorem: for every reducible tile, all psums and any arrival schedule, no check ever fails, the memory port of the completing adder holds exactly the sums of the first waves of its VN, in order, and no other port holds anything of that VN. |
| `Simulation.Round` | stonne/stonne/src/ASNetwork.cpp:315-359 | One round of the real objects, psums sent and one cycle stepped, keeps the invariant. |
| `Simulation.Simulate` | stonne/stonne/src/ASNetwork.cpp:279-359 | Building, configuring and stepping the network objects for any number of cycles leaves memory correct. |
| `Latency.Causality` | stonne/stonne/src/ASwitch.cpp:387-461 | A sum is delivered only after every multiplier of the VN has sent its psum of that wave. |
| `Latency.PipelinedLatency` | stonne/stonne/src/ASNetwork.cpp:325-357 | With psums arriving one per cycle, the k-th sum is delivered within 2 * nlevels cycles of its psums. |
| `Latency.WaveLatency` | stonne/stonne/src/ASNetwork.cpp:325-357 | A wave complete at the multipliers is in memory within 2 * nlevels cycles, plus one per wave before it. |
| `Exactness.RunExists` | stonne/stonne/src/ASNetwork.cpp:315-359 | Every tile has a run for any psums and any schedule, so the statements about all runs are not empty. |
| `Exactness.NotReducibleFails` | stonne/stonne/src/CompilerART.cpp:536-832 | On every tile that is not reducible, one wave of equal psums makes a check fail or puts a wrong value into memory. |
| `Exactness.ReducibleExactly` | stonne/stonne/src/CompilerART.cpp:536-832 | Exact condition: a tile is reduced correctly in every run if and only if no two-multiplier VN starts at 3 modulo 4 and no one-multiplier VN sits on the wrong side of an adder it shares with a longer VN. |
| `Exactness.ShortPairFails` | stonne/stonne/src/CompilerART.cpp:536-832 | The sparse list of sizes 3 and 2 on eight multipliers is a tile that goes wrong. |
| `Exactness.LoneMultiplierFails` | stonne/stonne/src/CompilerART.cpp:536-832 | Sizes 1 and 2 on four multipliers go wrong, too. |
| `Exactness.LongReducible` | stonne/stonne/src/CompilerART.cpp:536-832 | Every list of VN sizes of three or more is reducible. |
| `Exactness.DenseReducible` | stonne/stonne/src/CompilerART.cpp:135-429 | Every dense tile that fits, whatever its VN size, is reducible. |
| `Exactness.WaveEnds` | stonne/stonne/src/ASwitch.cpp:387-557 | A single wave, however its psums are skewed: 2 * nlevels cycles after its last psum every VN of a reducible tile has delivered exactly one package, its sum, at its own port, and nothing else has been delivered. |
| `Exactness.DenseWave` | stonne/stonne/src/CompilerART.cpp:9-21 | Dense tiles end to end: one psum per used multiplier, in whatever order, makes each VN deliver exactly one package, its sum, within 2 * nlevels cycles of the last psum, nothing else is delivered, and no check ever fails. |
| `FoldNodes.CompilerTarget` | stonne/stonne/src/CompilerFEN.cpp:409-456 | The climb of the compiler returns the first ancestor reached from a left child, or the special node (0,1). |
| `FoldNodes.WiredTarget` | stonne/stonne/src/FENetwork.cpp:87-124 | The climb of the wiring returns the same node for every adder of every tree. |
| `FoldNodes.FoldPosition` | stonne/stonne/src/FENetwork.cpp:87-124 | The fold node is the in-order successor of the adder: it sits at the right edge of the adder's subtree, on a level above or beside the root. |
| `FoldNodes.FoldNodesDistinct` | stonne/stonne/src/CompilerFEN.cpp:409-456 | Distinct VNs get distinct fold nodes, so at most one folding link into a node carries data. |
| `FoldNodes.FoldNodesUnused` | stonne/stonne/src/CompilerFEN.cpp:409-456 | No fold node is an adder or sender of any VN. |
| `FoldCompiler.UsedAsInTree` | stonne/stonne/src/CompilerFEN.cpp:123-408 | Adders with data are configured as in the plain tree. |
| `FoldCompiler.FoldKept` | stonne/stonne/src/CompilerFEN.cpp:415-452 | A FOLD setting, once made, is never overwritten. |
| `FoldCompiler.FoldFlagsDisjoint` | stonne/stonne/src/FEASwitch.cpp:210-211 | No switch has both the memory flag of a fold node and the flag to send to a fold node. |
| `FoldCompiler.CompilerFEN.Climb` | stonne/stonne/src/CompilerFEN.cpp:123-413 | The level loop stops at the adder that completes the VN, with all levels below configured. |
| `FoldCompiler.CompilerFEN.VNPass` | stonne/stonne/src/CompilerFEN.cpp:409-456 | One VN: its adders, its completing adder marked to send to the fold node, its fold node set to FOLD and to write to memory. |
| `FoldCompiler.CompilerFEN.GenerateSignals` | stonne/stonne/src/CompilerFEN.cpp:123-464 | After all VNs the maps hold the walks, and the two flag maps hold exactly the completing adders and the fold nodes. |
| `FoldCompiler.CompilerFEN.ConfigureSignals` | stonne/stonne/src/CompilerFEN.cpp:9-21 | The compiled maps give every switch, the special one too, exactly the configuration the fold theorems are about. |
| `FoldRuns.UsedConfig` | stonne/stonne/src/CompilerFEN.cpp:24-121 | A switch with data has the mode, link and inputs it has in the plain tree, and sends to its fold node exactly where the plain tree writes to memory. |
| `FoldRuns.TreeIsRun` | stonne/stonne/src/FEASwitch.cpp:563-597 | The adders of a run of the fold network run as the plain reduction tree does, so the reduction and latency theorems hold for them. |
| `FoldRuns.LinkHistory` | stonne/stonne/src/FEASwitch.cpp:219-221 | What has left the tree at the adder that completes a VN is exactly the sums of that VN, in order. |
| `FoldRuns.RoundOk` | stonne/stonne/src/FEASwitch.cpp:298-317 | In every round from a state that satisfies the invariant no assertion of any switch fails. |
| `FoldRuns.RoundInv` | stonne/stonne/src/FENetwork.cpp:320-358 | Every round keeps the invariant that fixes what each folding link, accumulator and memory port holds. |
| `FoldRuns.FoldCorrect` | stonne/stonne/src/FEASwitch.cpp:298-317 | Fold theorem: in every run no check fails (at most one folding link with data, one package on it, matching VNs, no switch with both flags), the fold node of VN i has written, as its j-th package, the plain sum of the sums of VN i over waves j * n_psums to (j + 1) * n_psums - 1, for every such group that has reached it, and no other switch has written anything. |
| `FoldExactness.FenRunExists` | stonne/stonne/src/FENetwork.cpp:320-358 | Every tile has a run of the fold network, for any psums, schedule and block length. |
| `FoldExactness.DenseFoldable` | stonne/stonne/src/CompilerFEN.cpp:9-21 | Every dense tile with VNs of two or more multipliers, or with one VN, is foldable. |
| `FoldExactness.DenseFoldsExactly` | stonne/stonne/src/CompilerFEN.cpp:9-21 | Exact condition: no run of the fold network on a dense tile ever fails a check if and only if its VNs have two or more multipliers or there is only one VN. |
| `FoldExactness.WaveFails` | stonne/stonne/src/FEASwitch.cpp:298-317 | When the first two VNs have one multiplier each, every run with one wave fails a check in its first two cycles: two packages arrive on one folding link. |
| `FoldExactness.DenseFoldNodes` | stonne/stonne/src/CompilerFEN.cpp:409-456 | The VNs of a dense tile get distinct fold nodes if and only if they have two or more multipliers or there is at most one of them. |
| `FoldSwitches.FlattenOne` | stonne/stonne/src/FEASwitch.cpp:298-317 | When the checks on the links hold, what is gathered is the one package of the one link with data. |
| `FoldSwitches.GatheredIsBelow` | stonne/stonne/src/FEASwitch.cpp:298-317 | When the checks of a fold node hold, the links that end in it pass theirs, and all they bring is what the one adder with data has put on its link. |
| `FoldSwitches.FEASwitch.constructor` | stonne/stonne/src/FEASwitch.cpp:14-79 | Reset configuration, empty FIFOs, empty accumulator. |
| `FoldSwitches.FEASwitch.ReceiveBelow` | stonne/stonne/src/FEASwitch.cpp:298-317 | Takes everything pending on the folding links; its checks hold if and only if at most one link has data, and one package of it. |
| `FoldSwitches.FEASwitch.RouteFold` | stonne/stonne/src/FEASwitch.cpp:530-560 | One sum moved into the register, or added to it with plain addition; when the count is n_psums - 1, on 32 bits, the register goes out and the count starts again, otherwise the count goes up. |
| `FoldSwitches.FEASwitch.SendAll` | stonne/stonne/src/FEASwitch.cpp:180-230 | Everything queued goes out once: to the forwarding link, which must be set to send, and to memory, to the fold node or to the parent, as configured. |
| `FoldSwitches.FEASwitch.Cycle` | stonne/stonne/src/FEASwitch.cpp:563-597 | One cycle of a switch, given what its adder routes: its new accumulator and what it writes, hands to its fold node and sends up are those of the model. |
| `FoldingNetwork.FENetwork.constructor` | stonne/stonne/src/FENetwork.cpp:11-160 | The switches of the tree and the special one, all empty, with every folding link wired. |
| `FoldingNetwork.FENetwork.WireLinks` | stonne/stonne/src/FENetwork.cpp:87-124 | After the loops the folding links that end in a switch are exactly those of the adders whose fold node it is, each once. |
| `FoldingNetwork.FENetwork.Configure` | stonne/stonne/src/FENetwork.cpp:284-308 | Every switch, the special one too, is loaded with its compiled configuration and the block length. |
| `FoldingNetwork.LinkInTurn` | stonne/stonne/src/FENetwork.cpp:320-358 | When the turn of a switch comes, each folding link that ends in it holds what the last cycle put there, and the root's link what this cycle did. |
| `FoldingNetwork.LinkAfterTurn` | stonne/stonne/src/FENetwork.cpp:320-358 | A turn empties the links that end in the switch and fills its own, which was empty: nothing unread is overwritten. |
| `FoldingNetwork.AdderMayFold` | stonne/stonne/src/FENetwork.cpp:320-358 | Stepping level by level lets every fold node run before the adders it serves. |
| `FoldingNetwork.FENetwork.Turn` | stonne/stonne/src/FENetwork.cpp:335-356 | One switch steps: tree, folding links, accumulator and memory move on as the model says. |
| `FoldingNetwork.FENetwork.NextTurn` | stonne/stonne/src/FENetwork.cpp:335-356 | One turn of the loop steps one switch, or the two ends of a link with the receiver first. |
| `FoldingNetwork.FENetwork.FirstTurns` | stonne/stonne/src/FENetwork.cpp:325-331 | The root steps first and the special switch second, which reads in the same cycle what the root has sent. |
| `FoldingNetwork.FENetwork.Cycle` | stonne/stonne/src/FENetwork.cpp:320-358 | The sequential loop over the switches makes the cycle of the fold network that the fold theorem is about. |
| `FoldSimulation.FoldRound` | stonne/stonne/src/FENetwork.cpp:320-358 | One round of the objects, psums sent and one cycle stepped, keeps the invariant. |
| `FoldSimulation.FoldSimulate` | stonne/stonne/src/FENetwork.cpp:284-358 | Building, configuring and stepping the fold network for any number of cycles leaves at every fold node the plain sums of its own VN over groups of n_psums waves, in order, and nothing anywhere else. |
| `Distribution.SelectLeaf` | stonne/stonne/src/DSwitch.cpp:76-197 | What is selected for a range of one leaf is exactly the packages addressed to that leaf. |
| `Distribution.SelectPart` | stonne/stonne/src/DSwitch.cpp:76-197 | Selecting level by level along a path gives what selecting for its end would: nothing is lost or added on the way. |
| `Distribution.DSwitch.Sort` | stonne/stonne/src/DSwitch.cpp:76-197 | The routing loop sends each package to the left, to the right or to both, by its kind and destinations, in order. |
| `Distribution.DSwitch.Cycle` | stonne/stonne/src/DSwitch.cpp:200-216 | Receives if something is pending, and routes it. |
| `Distribution.DSNetwork.constructor` | stonne/stonne/src/DSNetwork.cpp:11-74 | A tree of distinct switches over a power-of-two number of leaves, nothing on its connections. |
| `Distribution.DSNetwork.Cycle` | stonne/stonne/src/DSNetwork.cpp:107-125 | One network cycle leaves at leaf d, as often as it was at the root, a unicast if and only if d is its destination (the last leaf for one beyond it), a multicast if and only if its flag d is set, and every broadcast; in the order of the root, and nothing is left above the leaves. |
| `DistributionTop.GlobalLeafUnique` | stonne/stonne/src/DSNetworkTop.cpp:42-56 | No global leaf p * ms_size_per_port + d belongs to two ports, or twice to one. |
| `DistributionTop.DSNetworkTop.Cycle` | stonne/stonne/src/DSNetworkTop.cpp:63-67 | One cycle delivers to every leaf of every port the packages of that port by the kind of their header: unicast to its destination, multicast to its flags, broadcast to all, each as often as it was sent. |
| `DistributionTop.DSNetworkTop.LastLevelConnections` | stonne/stonne/src/DSNetworkTop.cpp:42-56 | Every global leaf is in the table exactly once and in order, with the port p and local leaf d that satisfy p * ms_size_per_port + d, also when a port has a single leaf and no switches. |
| `BusLine.SendsIffWaiting` | stonne/stonne/src/CollectionBusLine.cpp:66-109 | The line sends in a cycle if and only if some FIFO holds something. |
| `BusLine.Nearer` | stonne/stonne/src/CollectionBusLine.cpp:66-109 | While an input waits, every cycle serves it or brings the arbiter closer to it. |
| `BusLine.ArbiterFair` | stonne/stonne/src/CollectionBusLine.cpp:66-109 | What waits at position q of an input is sent within (q + 1) * n cycles, whatever the other inputs do. |
| `BusLine.PackageSent` | stonne/stonne/src/CollectionBusLine.cpp:66-109 | And it is that package that is sent, at its place in the order of its input. |
| `BusLine.LineConserves` | stonne/stonne/src/CollectionBusLine.cpp:51-109 | Over every run, the packages sent from an input followed by its queue are the packages received on it, in order. |
| `BusLine.CollectionBusLine.Receive` | stonne/stonne/src/CollectionBusLine.cpp:51-64 | Takes in everything pending; the counters grow by what was taken. |
| `BusLine.CollectionBusLine.SelectInput` | stonne/stonne/src/CollectionBusLine.cpp:90-101 | The loop finds the nearest non-empty input after the last one served. |
| `BusLine.CollectionBusLine.Cycle` | stonne/stonne/src/CollectionBusLine.cpp:66-109 | One cycle of the line; always the sum of n_inputs_receive equals n_sends plus everything queued. |
| `Accumulation.AccumulationCorrect` | stonne/stonne/src/Accumulator.cpp:142-173 | Temporal accumulation: at every moment of every run, for any arrival pattern, an accumulator configured for n >= 1 psums that has routed m of them has sent m / n packages, the j-th the left fold of psums j * n to j * n + n - 1, current_psum is m % n, and register writes are additions plus blocks started; for n = 0 the same with 2^32. |
| `Accumulation.AllRouted` | stonne/stonne/src/Accumulator.cpp:142-184 | Everything received is routed as many cycles later as psums were waiting. |
| `Accumulation.MatchesExactly` | stonne/stonne/src/Accumulator.cpp:114-116 | The VN check holds in a cycle if and only if the psum routed in it has the VN of the first psum of its block. |
| `Accumulation.Accumulator.RoutePsum` | stonne/stonne/src/Accumulator.cpp:142-173 | One psum moved into the register, or added to it; when current_psum is n_psums - 1, on 32 bits, the register goes out and the count starts again, otherwise the count goes up. |
| `Accumulation.Accumulator.Cycle` | stonne/stonne/src/Accumulator.cpp:177-184 | One cycle receives, routes and sends as the run model says, and counts what it sends. |
| `TemporalNetwork.WiresDistinct` | stonne/stonne/src/TemporalRN.cpp:48-62 | No two accumulators share an input of the bus. |
| `TemporalNetwork.WiresInRange` | stonne/stonne/src/TemporalRN.cpp:48-62 | The wiring stays inside the bus if and only if there are no more accumulators than inputs. |
| `TemporalNetwork.BusConserves` | stonne/stonne/src/TemporalRN.cpp:48-62 | What has left the bus through an accumulator's input followed by what is queued there is exactly what that accumulator sent. |
| `TemporalNetwork.BlockCollected` | stonne/stonne/src/CollectionBus.cpp:64-68 | Once an accumulator configured for n >= 1 psums has routed (j + 1) * n of them, at most (j + 1) * ports cycles later the j-th package out of its bus input is the left fold of psums j * n to j * n + n - 1. |
| `Collection.MatchesInCycle` | stonne/stonne/src/Accumulator.cpp:114-116 | When every psum has the VN of the first psum of its block, the check of every accumulator holds in every cycle. |
| `Collection.Offer` | stonne/stonne/src/TemporalRN.cpp:48-62 | What every accumulator sent is on the bus input it is wired to, and the other inputs are empty. |
| `Collection.CollectedRight` | stonne/stonne/src/CollectionBus.cpp:64-68 | What has left the bus for an accumulator is a prefix of what it sent, and holds the fold of psums j * n to j * n + n - 1 for every j complete (j + 1) * ports cycles ago. |
| `Collection.BusRound` | stonne/stonne/src/CollectionBus.cpp:64-68 | One bus cycle takes what the accumulators sent in the cycle before, and its grants reach memory. |
| `Collection.AccRound` | stonne/stonne/src/TemporalRN.cpp:91-93 | One cycle of all accumulators on the psums of that cycle. |
| `Collection.Collect` | stonne/stonne/src/TemporalRN.cpp:11-93 | Building, wiring and running accumulators and bus together for any number of cycles leaves in memory, for every accumulator, the folds of its consecutive groups of n psums (2^32 for n = 0), in order and once. |
| `TemporalNetwork.TemporalRN.constructor` | stonne/stonne/src/TemporalRN.cpp:11-37 | One new accumulator per multiplier. |
| `TemporalNetwork.TemporalRN.Configure` | stonne/stonne/src/AccumulationBuffer.cpp:66-70 | Every accumulator gets the block length, and nothing else changes. |
| `TemporalNetwork.TemporalRN.SetMemoryConnections` | stonne/stonne/src/TemporalRN.cpp:48-62 | The loop gives every accumulator a bus input of its own, inside the bus. |
| `TemporalNetwork.TemporalRN.Cycle` | stonne/stonne/src/AccumulationBuffer.cpp:72-76 | Every accumulator makes one cycle. |
| `TemporalNetwork.Bus.constructor` | stonne/stonne/src/CollectionBus.cpp:7-32 | The port count gives enough inputs for every multiplier, with less than one line's worth to spare. |
| `TemporalNetwork.Bus.Cycle` | stonne/stonne/src/CollectionBus.cpp:64-68 | Every line makes one cycle. |
| `MultiplierCompiler.StampIsOwner` | stonne/stonne/src/Tile.cpp:24-29 | VN i of a dense tile owns, in the reduction tree, exactly the multipliers from i * n to i * n + n - 1 with n = T_R * T_S * T_C, plus 1 when folding. |
| `MultiplierCompiler.NeighboursAgree` | stonne/stonne/src/CompilerMSN.cpp:77-114 | A multiplier waits for its right neighbour if and only if that neighbour sends, and both then hold neighbouring columns of one filter row of one VN, also with the extra folding multiplier. |
| `MultiplierCompiler.CompilerMSN.StampVNs` | stonne/stonne/src/CompilerMSN.cpp:45-61 | With n = T_R * T_S * T_C, plus 1 when folding: exactly the multipliers below count * n are stamped, multiplier i * n + j with VN i and the fold count, and it forwards psums if and only if folding is on and j is 0. |
| `MultiplierCompiler.CompilerMSN.LinkWindows` | stonne/stonne/src/CompilerMSN.cpp:77-114 | The four nested loops: multiplier i * n + (1 when folding) + (c * T_R + r) * T_S + s sends if and only if s > 0 and receives if and only if s < T_S - 1. |
| `MultiplierCompiler.CompilerMSN.GenerateSignals` | stonne/stonne/src/CompilerMSN.cpp:41-127 | The maps after compilation, in the parameters of the tile: stamps always, and with stride 1, one output row and a filter width that divides, the links of exactly the columns with a neighbour in their row; otherwise, and on every other multiplier, no links. |
| `MultiplierCompiler.CompilerMSN.GenerateSparseSignals` | stonne/stonne/src/CompilerMSN.cpp:131-163 | Exactly the first multipliers, as many as the sizes add up to, are stamped: number j after the VNs before VN i with VN i and a fold count of one; it forwards psums directly if and only if VN i is folded and j is 0; all links are off. |
| `Toml.EscapeString` | stonne/stonne/external/cpptoml.h:3439-3483 | The loop prints each character's escape in order. |
| `Toml.StringLiteral` | stonne/stonne/external/cpptoml.h:2517-2541 | The loop reads a literal up to its closing delimiter, undoing escapes, and skips the blanks after it; it fails exactly where the parser throws. What each kind of character reads as is in the rows of TomlEscapes. |
| `Toml.StringRoundTrip` | stonne/stonne/external/cpptoml.h:2517-2588 | Reading back a printed string stops at its closing quote if it succeeds, and gives that string if and only if its control characters are only \b, \t, \n, \f and \r. |
| `Toml.WriteArray` | stonne/stonne/external/cpptoml.h:3398-3418 | The loop prints the items between brackets, separated by a comma and a blank. |
| `Toml.ParseValueArray` | stonne/stonne/external/cpptoml.h:3069-3089 | The loop reads an array of strings. |
| `Toml.ParseObjectArray` | stonne/stonne/external/cpptoml.h:3091-3118 | The loop reads an array of arrays. |
| `Toml.ArrayRead` | stonne/stonne/external/cpptoml.h:3015-3067 | Reading back a printed nested array gives that array, and stops after it, if and only if every array in it holds strings only or arrays only and every string has no other control characters. |
| `TomlTime.WriteFraction` | stonne/stonne/external/cpptoml.h:231-241 | The digit-printing loop terminates, never divides by zero, and prints the digits of the microseconds. |
| `TomlTime.ReadMicroseconds` | stonne/stonne/external/cpptoml.h:2938-2946 | The loop adds up the digits after the point. |
| `TomlTime.TimeRoundTrip` | stonne/stonne/external/cpptoml.h:2922-2953 | Reading back a printed local time gives that time if and only if its fields have at most two digits and 0 <= microsecond < 1000000. |
| `Compiler.CompilerART.SetVN` | stonne/stonne/src/CompilerART.cpp:142-151 | The bits of exactly the multipliers of the VN are set, all others and all parent bits cleared. |
| `Compiler.CompilerART.Spans` | stonne/stonne/src/CompilerART.cpp:200-233 | The two spans around a link are positive exactly when the adder on that side has a child of the VN, and measure the VN when it reaches across. |
| `Compiler.CompilerART.ClaimEdge` | stonne/stonne/src/CompilerART.cpp:176-192 | An adder without link becomes ADD_2_1 for its first VN and FW_2_2 for a later one; no other signal changes. |
| `Compiler.CompilerART.ClaimPlain` | stonne/stonne/src/CompilerART.cpp:354-398 | An adder whose link this VN does not use: splits if an earlier VN uses the link, passes on if one shares it, adds otherwise; the assertion that the link is a send holds. |
| `Compiler.CompilerART.ClaimLink` | stonne/stonne/src/CompilerART.cpp:313-349 | Switches a link on: receiver to ADD_3_1, sender to ADD_2_1 or split, directions at both ends; no other signal changes. |
| `Compiler.CompilerART.LevelStep` | stonne/stonne/src/CompilerART.cpp:160-420 | One level of one VN with its promotion and memory flag. |
| `Compiler.CompilerART.ChildSends` | stonne/stonne/src/CompilerART.cpp:79-101 | A child sends up exactly when its mode says so or it adds two without a link; Enabling.EnabledExactly says what that means for its data. |
| `Compiler.CompilerART.EnableRow` | stonne/stonne/src/CompilerART.cpp:64-109 | One level of enabled inputs, the other levels unchanged. |
| `Adders.ASwitch.TakePending` | stonne/stonne/src/ASwitch.cpp:248-310 | Appends what is pending at both children, and at the link if it is set to receive, to the FIFOs. |
| `ReductionNetwork.ASNetwork.LoadTable` | stonne/stonne/src/ASNetwork.cpp:220-266 | Loads level by level; FIFOs and connections are untouched. |
| `ReductionNetwork.ASNetwork.RunSwitch` | stonne/stonne/src/ASNetwork.cpp:329-353 | Runs one switch on what is pending at its inputs and leaves all other switches alone. |
| `Simulation.SendPsums` | stonne/stonne/src/ASNetwork.cpp:206-217 | The multipliers put their psums on the last-level connections and nothing else changes. |
| `Simulation.Load` | stonne/stonne/src/ASNetwork.cpp:11-312 | A new network configured for a tile satisfies the invariant. |
| `FoldNodes.StripOnes` | stonne/stonne/src/CompilerFEN.cpp:432-437 | The loop strips the trailing one bits without changing which node the climb ends at. |
| `FoldNodes.EdgeInVN` | stonne/stonne/src/CompilerFEN.cpp:409-456 | The last-level adder just left of a VN's fold node belongs to that VN. |
| `FoldCompiler.CompilerFEN.ChooseFold` | stonne/stonne/src/CompilerFEN.cpp:415-452 | Setting the fold node adds exactly that claim to the signals. |
| `FoldRuns.DeliveredStep` | stonne/stonne/src/FEASwitch.cpp:298-317 | At most one sum of a VN is completed per cycle, so a folding link never carries two packages. |
| `FoldExactness.SingleClash` | stonne/stonne/src/CompilerFEN.cpp:409-456 | Two one-multiplier VNs at the start of a tile get the same fold node. |
| `Distribution.DSwitch.AnyFlag` | stonne/stonne/src/DSwitch.cpp:130-160 | The scan finds a set flag in a range if and only if there is one. |
| `Distribution.DSwitch.Branches` | stonne/stonne/src/DSwitch.cpp:76-197 | A package takes a branch if and only if one of its destinations is below it. |
| `Distribution.DSwitch.RoutePackages` | stonne/stonne/src/DSwitch.cpp:76-197 | Both branches get exactly their packages, in order, and nothing is pending afterwards. |
| `Distribution.DSNetwork.StepSwitch` | stonne/stonne/src/DSNetwork.cpp:107-125 | Stepping one switch moves its packages to the two connections below it. |
| `DistributionTop.DSNetworkTop.constructor` | stonne/stonne/src/DSNetworkTop.cpp:7-40 | One separate tree per port. |
| `DistributionTop.DSNetworkTop.CycleOne` | stonne/stonne/src/DSNetworkTop.cpp:63-67 | Running the tree of one port touches no other port. |
| `BusLine.CollectionBusLine.constructor` | stonne/stonne/src/CollectionBusLine.cpp:8-28 | Empty FIFOs and zero counters. |
| `Accumulation.RoutesOne` | stonne/stonne/src/Accumulator.cpp:142-146 | A cycle routes one psum whenever one is waiting. |
| `Accumulation.Accumulator.Receive` | stonne/stonne/src/Accumulator.cpp:96-111 | Appends everything pending to the input FIFO, in order. |
| `Accumulation.Accumulator.Send` | stonne/stonne/src/Accumulator.cpp:75-93 | Sends everything in the output FIFO, in order, as one transfer. |
| `MultiplierCompiler.PlaceAt` | stonne/stonne/src/CompilerMSN.cpp:84-114 | The index the loops compute for column s of row q of VN i is a used multiplier of VN i at that row and column. |
| `MultiplierCompiler.CompilerMSN.LinkRow` | stonne/stonne/src/CompilerMSN.cpp:87-110 | One row: every column but the first sends, every column but the last receives. |
| `MultiplierCompiler.CompilerMSN.LinkWindow` | stonne/stonne/src/CompilerMSN.cpp:84-114 | One VN, channel by channel and row by row. |
| `MultiplierCompiler.CompilerMSN.Unlink` | stonne/stonne/src/CompilerMSN.cpp:119-124 | Switches every link of a range off and no other. |
| `Toml.ConsumeWhitespace` | stonne/stonne/external/cpptoml.h:3162-3167 | The loop skips blanks and tabs, all of them and nothing else. |
| `Toml.DigitsAligned` | stonne/stonne/external/cpptoml.h:2653-2669 | Hexadecimal digits that follow in the printed text are characters of the string, so a code that reads them swallows those characters. |
| `TomlTime.FieldRead` | stonne/stonne/external/cpptoml.h:1830-1840 | A field is read back if and only if it has two digits; any other makes the time malformed. |
| `TomlTime.FractionBound` | stonne/stonne/external/cpptoml.h:2938-2946 | Whatever digits follow the point, what is read stays below one million. |
| `Accumulation.FoldFront` | stonne/stonne/src/Accumulator.cpp:142-173 | Left folds from the front: adding the first two psums first gives the fold of the block. |
| `FoldRuns.FoldIsSigma` | stonne/stonne/src/FEASwitch.cpp:530-560 | The fold of consecutive sums of one VN is their plain sum, with the number of that VN. |
| `FoldNodes.FoldNodeIs` | stonne/stonne/src/CompilerFEN.cpp:409-456 | In closed form: an adder whose number ends in c one bits under a zero bit folds c + 1 levels up, into the adder numbered by the bits above; the last adder of a level folds into (0,1). |
| `MultiplierCompiler.CompilerMSN.GenerateLinks` | stonne/stonne/src/CompilerMSN.cpp:77-124 | Links as the windows say when values can be reused, and off otherwise. |
| `Distribution.LeafCount` | stonne/stonne/src/DSwitch.cpp:76-197 | How often a leaf gets a package, by the kind of its header: unicast, multicast or broadcast. |
| `Distribution.LeafInOrder` | stonne/stonne/src/DSwitch.cpp:76-197 | What a leaf gets of some packages followed by others is what it gets of each, in that order. |
| `DistributionTop.DSNetworkTop.UnicastLands` | stonne/stonne/src/DSNetworkTop.cpp:42-67 | A unicast for leaf d sent on port p is, after a cycle, at entry p * 2^levels + d of the table of last-level connections, as often as it was sent, and at no other entry. |
| `BusLine.RoundRobin` | stonne/stonne/src/CollectionBusLine.cpp:88-101 | The line serves the first input with something waiting from next_input_selected upwards and around, sends its oldest package, and moves the turn to the input after it. |
| `Enabling.SendsUp` | stonne/stonne/src/CompilerART.cpp:79-92 | The test of the enabling pass holds for a configuration if and only if some contents of the FIFOs make an adder with it send something to its parent. |
| `Enabling.EnabledExactly` | stonne/stonne/src/CompilerART.cpp:64-109 | Above the last level an input is enabled if and only if some VN claims the child below it and some contents of that child's FIFOs make it send up. |
| `Enabling.LeafEnabledExactly` | stonne/stonne/src/CompilerART.cpp:43-62 | On the last level an input is enabled if and only if its multiplier belongs to a VN. |
| `Enabling.FenEnabledExactly` | stonne/stonne/src/CompilerFEN.cpp:51-104 | The same above the last level of the tree with fold nodes, for children that carry data of a VN as adders. |
| `Enabling.MemoryFlags` | stonne/stonne/src/CompilerART.cpp:415-420 | The memory flags stand exactly on the adders from the one that completes a VN up to the root. |
| `TomlEscapes.OneByteDecodes` | stonne/stonne/external/cpptoml.h:2604-2609 | A code point up to 0x7f is its own byte. |
| `TomlEscapes.TwoBytesDecode` | stonne/stonne/external/cpptoml.h:2610-2624 | The two bytes of a code point from 0x80 to 0x7ff have their markers and decode to it. |
| `TomlEscapes.ThreeBytesDecode` | stonne/stonne/external/cpptoml.h:2625-2636 | The three bytes of a code point from 0x800 to 0xffff have their markers, and decode to it if and only if its bit 11 is 0; otherwise to the code point without that bit, as the mask of the second byte keeps five bits. |
| `TomlEscapes.FourBytesDecode` | stonne/stonne/external/cpptoml.h:2637-2649 | The four bytes of a code point from 0x10000 to 0x10ffff have their markers and decode to it. |
| `TomlEscapes.Utf8Distinct` | stonne/stonne/external/cpptoml.h:2602-2650 | Two code points get the same bytes if and only if both are of three bytes and differ in bit 11 alone. |
| `TomlEscapes.ShortCodeRead` | stonne/stonne/external/cpptoml.h:2590-2678 | Within a literal, a backslash, u and four hexadecimal digits of either case read as the bytes of the number the digits denote, most significant first; a surrogate makes the literal fail. |
| `TomlEscapes.LongCodeRead` | stonne/stonne/external/cpptoml.h:2590-2678 | The same for U and eight digits; a number above 0x10ffff fails as well. |
| `TomlEscapes.CodeRefused` | stonne/stonne/external/cpptoml.h:2653-2669 | An escape with too few digits, or another character among them, makes the literal fail. |
| `TomlEscapes.NamedRead` | stonne/stonne/external/cpptoml.h:2543-2587 | The letters b, t, n, f, r, the quote and the backslash after a backslash read as their characters, and every other character but u and U fails. |
| `TomlEscapes.EscapesPrinted` | stonne/stonne/external/cpptoml.h:3439-3483 | What the writer prints for every character: its letter after a backslash, the unpadded lower-case code of another control character, or the character itself. |
| `TomlEscapes.LiteralRead` | stonne/stonne/external/cpptoml.h:2517-2541 | A literal without escapes is the characters up to its closing delimiter, backslashes between single quotes included; without that delimiter it fails. |
| `TomlEscapes.MissingComma` | stonne/stonne/external/cpptoml.h:3069-3089 | What the code does where a comma is missing: any other character ends an array of strings, and is swallowed. |
| `TomlEscapes.ArrayPrinted` | stonne/stonne/external/cpptoml.h:3398-3418 | The layout of a printed array of arrays. |
| `TomlTime.SixDigitsRead` | stonne/stonne/external/cpptoml.h:2938-2946 | The first six digits after the point count microseconds from the left, missing ones as zeros; the others are skipped. |
| `TomlTime.TimeRead` | stonne/stonne/external/cpptoml.h:2922-2953 | Two digits each of hours, minutes and seconds, with colons between them and any fraction, read as the numbers they denote. |

## Left out

- The adder-to-bus wiring of ASNetwork and FENetwork: each adder has a memory sink of its own; with the
  present port count those formulas are neither injective nor always in range. Only the wiring of
  TemporalRN is modelled.
- A reduction tree for one multiplier: it has no adders, and the source then looks up a root switch that
  does not exist, so trees have at least one level.
- The comparator mode of the switches (max pooling), and the optional accumulation buffer behind ASNetwork.
- Floating-point rounding in the trees, and level counts computed with log10: levels are exact.
- The adders inside the switches of the fold network: their FIFOs and the tree connections are one state,
  stepped by the function that ASwitch.Cycle is proved to compute, since FEASwitch repeats that code.
- ReductionNetwork.ASNetwork.constructor: builds the switches; connections are entries of maps, named after
  the switch at their lower end and, for a forwarding link, after its even end. `Topology` builds the tables
  of the source and shows that these names connect the same switches.
- Distribution.DSNetwork.constructor: the same, for the same tree of connections.
- FIFO capacities and connection bandwidth: FIFOs are unbounded, as they are in the source, which counts
  but does not limit.
- Resetting and reconfiguring a network that still holds data.
- The midpoint of a distribution switch is compared as 2 * dest < 2 * first + width - 1 instead of in
  floating point.
- The fully connected tile constructor, whose parameters shadow the fields; VN size and count are inputs.
- TomlTime.TimeRoundTrip: the time is followed by the end of the line or by a character no time can
  contain, as it is in everything the writer prints.
- Toml.ParseValueArray: the array is on one line and its values are strings; where the source would go on
  to the next line this model fails.
- Toml.ParseObjectArray: the same for arrays of arrays; inline tables are not read.
- In TOML: input of more than one line inside an array, multi-line strings, numbers, booleans, dates,
  zone offsets, inline tables, tables and keys.
- Multipliers, memory controllers, the mesh network, statistics, energy and JSON output, configuration
  loading, and the PyTorch front end.
