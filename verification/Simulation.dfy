/**
 The whole simulator of the reduction tree: build the network, compile and load a tile,
 and run it for any number of cycles.
 */
module Simulation {
  import opened Prelude
  import opened Layout
  import opened Tiles
  import opened Signals
  import opened Switches
  import opened Flow
  import opened Networks
  import opened Ordering
  import opened Invariants
  import opened Steps
  import opened Runs
  import opened ReductionNetwork

  /** The connections once every multiplier has put its psums of round r on its own. */
  method WithPsums(wires: map<Id, seq<Pkg>>, t: Tile, x: Psums, sched: Schedule, r: nat) returns (w: map<Id, seq<Pkg>>)
    requires forall m: nat :: m < Pow2(t.levels) ==> ASNetwork.Pending(wires, (t.levels, m)) == []
    ensures forall l: nat, n: nat :: l < t.levels ==> ASNetwork.Pending(w, (l, n)) == ASNetwork.Pending(wires, (l, n))
    ensures forall m: nat :: m < Pow2(t.levels) ==> ASNetwork.Pending(w, (t.levels, m)) == Arrivals(t, x, sched, r, m)
  {
    hide Arrivals;
    w := wires;
    var count, m := Pow2(t.levels), 0;
    while m < count
      invariant m <= count
      invariant forall l: nat, n: nat :: l < t.levels ==>
        ASNetwork.Pending(w, (l, n)) == ASNetwork.Pending(wires, (l, n))
      invariant forall k: nat :: k < m ==> ASNetwork.Pending(w, (t.levels, k)) == Arrivals(t, x, sched, r, k)
      invariant forall k: nat :: m <= k < count ==> ASNetwork.Pending(w, (t.levels, k)) == []
    {
      var pkgs := Arrivals(t, x, sched, r, m);
      if pkgs != [] {
        w := w[(t.levels, m) := pkgs];
      }
      m := m + 1;
    }
  }

  /** The multipliers put the psums of round r on their connections. */
  method SendPsums(net: ASNetwork, t: Tile, x: Psums, sched: Schedule, r: nat)
    requires net.Valid() && t.Valid() && net.levels == t.levels && net.ConfiguredAs(Compiled(t))
    requires forall m: nat :: m < Pow2(t.levels) ==> net.View().Wire(t.levels, m) == []
    modifies net`wires
    ensures net.Valid() && net.ConfiguredAs(Compiled(t))
    ensures Arrive(t, x, sched, r, old(net.View()), net.View())
  {
    hide ASNetwork.Valid, ASNetwork.ConfiguredAs, ASNetwork.Fifos, Arrivals;
    ghost var s := net.View();
    assert forall l: nat, n: nat :: s.Wire(l, n) == ASNetwork.Pending(net.wires, (l, n));
    var w := WithPsums(net.wires, t, x, sched, r);
    net.wires := w;
    assert forall l: nat, n: nat :: net.View().Wire(l, n) == ASNetwork.Pending(w, (l, n));
  }

  /** Between rounds: the network is as the counts say, and nothing is pending at its borders. */
  ghost predicate Between(net: ASNetwork, t: Tile, x: Psums, sched: Schedule, r: nat)
    requires t.Valid()
    reads net, net.switches.Values
  {
    && net.Valid() && net.levels == t.levels && net.ConfiguredAs(Compiled(t))
    && Holds(t, x, net.View(), PrevAt(t, sched, r), CountAt(t, sched, r))
    && net.View().Wire(0, 0) == []
    && (forall m: nat :: m < Pow2(t.levels) ==> net.View().Wire(t.levels, m) == [])
  }

  /** One round: the multipliers send, then the network makes a cycle. */
  method Round(net: ASNetwork, t: Tile, x: Psums, sched: Schedule, r: nat)
    requires t.Valid() && t.Reducible() && Between(net, t, x, sched, r)
    modifies net`wires, net`links, net`memory, net.switches.Values
    ensures Between(net, t, x, sched, r + 1)
  {
    hide ASNetwork.Valid, ASNetwork.ConfiguredAs, ASNetwork.View, Holds, ConfigOf, Fire, CycleOk, WellLinked, NodeNext;
    ghost var s := net.View();
    SendPsums(net, t, x, sched, r);
    ghost var mid := net.View();
    ArriveHolds(t, x, sched, r, s, mid);
    StepOk(t, x, mid, PrevAt(t, sched, r), MidCount(t, sched, r));
    CompiledWellLinked(t);
    net.Cycle(Compiled(t));
    StepHolds(t, x, mid, net.View(), PrevAt(t, sched, r), MidCount(t, sched, r));
    RootToMemory(t, x, mid, net.View(), PrevAt(t, sched, r), MidCount(t, sched, r));
  }

  /** A new network with a tile loaded. */
  method Load(t: Tile, ghost x: Psums, ghost sched: Schedule) returns (net: ASNetwork)
    requires t.Valid()
    ensures Between(net, t, x, sched, 0) && fresh(net) && fresh(net.switches.Values)
  {
    hide Holds, ConfigOf, CountAt, PrevAt, ASNetwork.Valid, ASNetwork.ConfiguredAs, ASNetwork.View;
    net := new ASNetwork(t.levels);
    net.Configure(t);
    EmptyHolds(t, x, sched, net.View());
  }

  /** Simulates a tile for any psums and any arrival schedule. */
  method Simulate(t: Tile, x: Psums, sched: Schedule, cycles: nat) returns (net: ASNetwork)
    requires t.Valid() && t.Reducible()
    ensures net.Valid() && net.levels == t.levels
    ensures MemoryCorrect(t, x, sched, net.View(), cycles)
  {
    hide Holds, CountAt, PrevAt, MemoryCorrect, ASNetwork.Valid, ASNetwork.ConfiguredAs, ASNetwork.View;
    net := Load(t, x, sched);
    var r := 0;
    while r < cycles
      invariant r <= cycles && Between(net, t, x, sched, r)
      invariant fresh(net) && fresh(net.switches.Values)
    {
      Round(net, t, x, sched, r);
      r := r + 1;
    }
    HoldsDelivers(t, x, sched, net.View(), cycles);
  }
}
