/**
 The whole simulator of the fold network: build it, compile and load a tile, and run it for any
 number of cycles.
 */
module FoldSimulation {
  import opened Layout
  import opened Tiles
  import opened Flow
  import opened Networks
  import opened Invariants
  import opened Steps
  import opened Runs
  import opened ReductionNetwork
  import opened Simulation
  import opened FoldNodes
  import opened Accumulation
  import opened FoldNetworks
  import opened FoldRuns
  import opened FoldExactness
  import opened FoldingNetwork

  /** Between rounds: the network is as the invariant says, and nothing is pending at its borders. */
  ghost predicate FoldBetween(net: FENetwork, t: Tile, x: Psums, sched: Schedule, k: nat, r: nat)
    requires t.Valid()
    reads net, net.switches.Values
  {
    && net.Valid() && net.ConfiguredFor(t) && net.Between()
    && FenInv(t, x, sched, k, net.View(), r)
    && net.tree.Wire(0, 0) == []
    && (forall m: nat :: m < Pow2(t.levels) ==> net.tree.Wire(t.levels, m) == [])
  }

  /** The multipliers put the psums of round r on their connections. */
  method SendSums(net: FENetwork, t: Tile, x: Psums, sched: Schedule, r: nat)
    requires t.Valid() && net.Valid() && net.ConfiguredFor(t) && net.Between()
    requires forall m: nat :: m < Pow2(t.levels) ==> net.tree.Wire(t.levels, m) == []
    modifies net`tree
    ensures net.Valid() && net.ConfiguredFor(t) && net.Between()
    ensures Arrive(t, x, sched, r, old(net.tree), net.tree) && SameFolds(old(net.View()), net.View())
  {
    hide FENetwork.Valid, FENetwork.ConfiguredFor, FENetwork.Accs, Arrivals;
    ghost var s := net.tree;
    assert forall l: nat, n: nat :: s.Wire(l, n) == ASNetwork.Pending(s.wires, (l, n));
    var w := WithPsums(net.tree.wires, t, x, sched, r);
    net.tree := net.tree.(wires := w);
    assert forall l: nat, n: nat :: net.tree.Wire(l, n) == ASNetwork.Pending(w, (l, n));
  }

  /** What a round leaves at the borders of the tree. */
  lemma RoundBorders(t: Tile, x: Psums, sched: Schedule, k: nat, s: FenNet, mid: FenNet, s': FenNet, r: nat)
    requires t.Valid() && Foldable(t) && FenInv(t, x, sched, k, s, r) && FenRound(t, x, sched, s, mid, s', r)
    ensures s'.tree.Wire(0, 0) == [] && forall m: nat :: m < Pow2(t.levels) ==> s'.tree.Wire(t.levels, m) == []
  {
    hide FenInv, FenRound, Holds, NodeNext;
    TreeRound(t, x, sched, k, s, mid, s', r);
    RootToMemory(t, x, mid.tree, s'.tree, PrevAt(t, sched, r), MidCount(t, sched, r));
  }

  /** No check fails in the cycle that follows the arrival of the psums. */
  lemma NextRoundOk(t: Tile, x: Psums, sched: Schedule, k: nat, s: FenNet, mid: FenNet, r: nat)
    requires t.Valid() && Foldable(t) && FenInv(t, x, sched, k, s, r)
    requires Arrive(t, x, sched, r, s.tree, mid.tree) && SameFolds(s, mid)
    ensures FenOk(t, mid)
  {
    hide FenInv, Foldable, Arrive, SameFolds, FenNext, FenStep, FenOk;
    StepIsNext(t, mid);
    RoundOk(t, x, sched, k, s, mid, FenStep(t, mid), r);
  }

  /** One round: the multipliers send, then the network makes a cycle. */
  method FoldRound(net: FENetwork, t: Tile, x: Psums, sched: Schedule, ghost k: nat, r: nat)
    requires t.Valid() && Foldable(t) && FoldBetween(net, t, x, sched, k, r)
    modifies net`tree, net`pending, net`written, net`sent, net.switches.Values
    ensures FoldBetween(net, t, x, sched, k, r + 1)
  {
    hide FENetwork.Valid, FENetwork.ConfiguredFor, FENetwork.Between, FENetwork.View, FenInv, Foldable, Arrive,
      SameFolds, FenNext, FenOk;
    ghost var s := net.View();
    assert s.tree == net.tree by { net.ViewParts(); }
    SendSums(net, t, x, sched, r);
    ghost var mid := net.View();
    assert mid.tree == net.tree by { net.ViewParts(); }
    NextRoundOk(t, x, sched, k, s, mid, r);
    assert net.tree.Wire(0, 0) == [] by { ArriveRoot(t, x, sched, r, s.tree, mid.tree); }
    net.Cycle(t);
    ghost var s' := net.View();
    assert s'.tree == net.tree by { net.ViewParts(); }
    RoundInv(t, x, sched, k, s, mid, s', r);
    RoundBorders(t, x, sched, k, s, mid, s', r);
  }

  lemma ArriveRoot(t: Tile, x: Psums, sched: Schedule, r: nat, s: Net, mid: Net)
    requires t.Valid() && Arrive(t, x, sched, r, s, mid)
    ensures mid.Wire(0, 0) == s.Wire(0, 0)
  {
  }

  /** A new network with a tile loaded. */
  method FoldLoad(t: Tile, ghost x: Psums, ghost sched: Schedule, k: nat) returns (net: FENetwork)
    requires t.Valid() && Foldable(t)
    ensures FoldBetween(net, t, x, sched, k, 0) && fresh(net) && fresh(net.switches.Values)
  {
    hide FENetwork.Valid, FENetwork.ConfiguredFor, FenInv, Foldable, FENetwork.View, FenSilent;
    net := new FENetwork(t.levels);
    net.Configure(t, k);
    NewSilent(net, t, k);
    StartInv(t, x, sched, k, net.View());
  }

  lemma NewSilent(net: FENetwork, t: Tile, k: nat)
    requires t.Valid() && net.Valid() && net.levels == t.levels && Silent(net.tree) && net.written == net.sent == map[]
    requires forall id :: id in net.switches ==> net.switches[id].View() == Fresh(k)
    ensures FenSilent(net.View(), t.levels, k)
  {
    hide FENetwork.Wired, Silent;
  }

  /** Simulates a tile on the fold network for any psums, any arrival schedule and any block length: every
      fold node has then written the block sums of its own VN, and no other switch anything. */
  method FoldSimulate(t: Tile, x: Psums, sched: Schedule, k: nat, cycles: nat) returns (net: FENetwork)
    requires t.Valid() && Foldable(t)
    ensures net.Valid() && net.levels == t.levels
    ensures FoldsCorrect(t, x, sched, k, net.View(), cycles)
  {
    hide FENetwork.Valid, FENetwork.Between, FENetwork.View, FenInv, Foldable, FoldsCorrect;
    net := FoldLoad(t, x, sched, k);
    var r := 0;
    while r < cycles
      invariant r <= cycles && FoldBetween(net, t, x, sched, k, r)
      invariant fresh(net) && fresh(net.switches.Values)
    {
      FoldRound(net, t, x, sched, k, r);
      r := r + 1;
    }
    InvFolds(t, x, sched, k, net.View(), cycles);
  }
}
