/**
 Whole runs of the configured network, for any psums and any arrival schedule: what has
 been delivered to memory after r cycles, and how soon.
 */
module Runs {
  import opened Prelude
  import opened Layout
  import opened Tiles
  import opened Signals
  import opened Switches
  import opened Flow
  import opened Configured
  import opened Networks
  import opened Invariants
  import opened Steps

  /** sched(r, m): how many psums multiplier m sends just before cycle r. */
  type Schedule = (nat, nat) -> nat

  /** How many psums multiplier m has sent before cycle r. */
  function Arrived(sched: Schedule, r: nat, m: nat): nat {
    if r == 0 then 0 else Arrived(sched, r - 1, m) + sched(r - 1, m)
  }

  /** The VN, among the first i, that multiplier m works for. */
  function OwnerAmong(t: Tile, i: nat, m: nat): nat
    requires i <= |t.sizes|
  {
    if i == 0 then 0 else if t.Offset(i - 1) <= m then i - 1 else OwnerAmong(t, i - 1, m)
  }

  /** The packages multiplier m sends just before cycle r, stamped with its VN. */
  function Arrivals(t: Tile, x: Psums, sched: Schedule, r: nat, m: nat): seq<Pkg> {
    if m < t.Used() then
      seq(sched(r, m), k requires k >= 0 => Package(OwnerAmong(t, |t.sizes|, m), x(m, Arrived(sched, r, m) + k)))
    else []
  }

  /** The multipliers send: only their connections change. */
  ghost predicate Arrive(t: Tile, x: Psums, sched: Schedule, r: nat, s: Net, mid: Net) {
    && mid.queues == s.queues && mid.links == s.links && mid.memory == s.memory
    && (forall l: nat, n: nat :: l < t.levels && n < Pow2(l) ==> mid.Wire(l, n) == s.Wire(l, n))
    && (forall m: nat :: m < Pow2(t.levels) ==> mid.Wire(t.levels, m) == Arrivals(t, x, sched, r, m))
  }

  /** states(r) is the network after r cycles, mids(r) the same with the next psums on the wires. */
  ghost predicate IsRun(t: Tile, x: Psums, sched: Schedule, states: nat -> Net, mids: nat -> Net)
    requires t.Valid()
  {
    && Silent(states(0))
    && forall r: nat ::
         Arrive(t, x, sched, r, states(r), mids(r)) && Next(t.levels, Compiled(t), mids(r), states(r + 1))
  }

  // ----- counts along a run

  ghost function CountAt(t: Tile, sched: Schedule, r: nat): Count
    requires t.Valid()
    decreases r, 0
  {
    if r == 0 then (i: nat, l: nat, n: nat) => 0
    else Fire(t, MidCount(t, sched, r - 1))
  }

  ghost function MidCount(t: Tile, sched: Schedule, r: nat): Count
    requires t.Valid()
    decreases r, 1
  {
    WithArrivals(t, CountAt(t, sched, r), sched, r + 1)
  }

  ghost function WithArrivals(t: Tile, c: Count, sched: Schedule, r: nat): Count {
    (i: nat, l: nat, n: nat) => if l == t.levels then Arrived(sched, r, n) else c(i, l, n)
  }

  ghost function PrevAt(t: Tile, sched: Schedule, r: nat): Count
    requires t.Valid()
  {
    if r == 0 then CountAt(t, sched, 0) else MidCount(t, sched, r - 1)
  }

  lemma LeafCount(t: Tile, sched: Schedule, r: nat, i: nat, m: nat)
    requires t.Valid()
    ensures CountAt(t, sched, r)(i, t.levels, m) == Arrived(sched, r, m)
    ensures PrevAt(t, sched, r)(i, t.levels, m) == Arrived(sched, r, m)
  {
  }

  lemma {:induction false} OwnerUnique(t: Tile, i: nat, m: nat, j: nat)
    requires t.Valid() && i <= |t.sizes| && j < i && t.Leaves(j).Has(m)
    ensures OwnerAmong(t, i, m) == j && m < t.Used()
  {
    OffsetMonotone(t, j, i - 1);
    OffsetMonotone(t, j, |t.sizes|);
    if j < i - 1 {
      OwnerUnique(t, i - 1, m, j);
    }
  }

  lemma ArrivalPackets(t: Tile, x: Psums, sched: Schedule, r: nat, i: nat, m: nat)
    requires t.Valid() && i < |t.sizes| && t.Leaves(i).Has(m)
    ensures Arrivals(t, x, sched, r, m)
         == Packets(t, x, i, t.levels, m, Arrived(sched, r, m), Arrived(sched, r + 1, m))
  {
    OwnerUnique(t, |t.sizes|, m, i);
  }

  lemma UnusedSilent(t: Tile, m: nat)
    requires t.Valid() && Unfed(t, t.levels - 1, m)
    ensures m >= t.Used()
  {
    if m < t.Used() {
      assert t.sizes[..|t.sizes|] == t.sizes;
      var j := OwnerExists(t, m, |t.sizes|);
      assert Feeds(t, j, t.levels - 1, m);
    }
  }

  // ----- the invariant of every run

  lemma SideArrive(t: Tile, x: Psums, sched: Schedule, r: nat, s: Net, mid: Net, l: nat, c: nat)
    requires t.Valid() && l < t.levels && c < Pow2(l + 1) && Arrive(t, x, sched, r, s, mid)
    requires SideInv(t, x, s, PrevAt(t, sched, r), CountAt(t, sched, r), l, c)
    ensures SideInv(t, x, mid, PrevAt(t, sched, r), MidCount(t, sched, r), l, c)
  {
    hide Keep, RoleAt, Packets, Fire, Arrived;
    forall i: nat | Feeds(t, i, l, c)
      ensures FeedOk(t, x, mid, PrevAt(t, sched, r), MidCount(t, sched, r), i, l, c)
    {
      assert FeedOk(t, x, s, PrevAt(t, sched, r), CountAt(t, sched, r), i, l, c);
      if l == t.levels - 1 {
        ArrivalPackets(t, x, sched, r, i, c);
        LeafCount(t, sched, r, i, c);
        ArrivedGrows(sched, r, c);
      }
    }
    if Unfed(t, l, c) && l == t.levels - 1 {
      UnusedSilent(t, c);
    }
  }

  lemma ArrivedGrows(sched: Schedule, r: nat, m: nat)
    ensures Arrived(sched, r, m) <= Arrived(sched, r + 1, m)
  {
  }

  /** The counts of the adders do not depend on what arrives. */
  ghost predicate SameAdders(t: Tile, c: Count, d: Count) {
    forall i: nat, l: nat, n: nat :: l < t.levels ==> c(i, l, n) == d(i, l, n)
  }

  lemma NodeArrive(t: Tile, x: Psums, s: Net, mid: Net, prev: Count, cur: Count, cur': Count, l: nat, n: nat)
    requires t.Valid() && l < t.levels && SameAdders(t, cur, cur')
    requires mid.queues == s.queues && mid.links == s.links && mid.memory == s.memory
    requires NodeInv(t, x, s, prev, cur, l, n)
    requires SideInv(t, x, mid, prev, cur', l, 2 * n) && SideInv(t, x, mid, prev, cur', l, 2 * n + 1)
    ensures NodeInv(t, x, mid, prev, cur', l, n)
  {
    hide Keep, RoleAt, Packets, SideInv, ConfigOf;
  }

  lemma ArriveHolds(t: Tile, x: Psums, sched: Schedule, r: nat, s: Net, mid: Net)
    requires t.Valid() && Arrive(t, x, sched, r, s, mid)
    requires Holds(t, x, s, PrevAt(t, sched, r), CountAt(t, sched, r))
    ensures Holds(t, x, mid, PrevAt(t, sched, r), MidCount(t, sched, r))
  {
    hide Keep, RoleAt, SideInv, ConfigOf, NodeInv, PrevAt, CountAt, Arrived, Arrivals;
    forall l: nat, n: nat | l < t.levels && n < Pow2(l)
      ensures NodeInv(t, x, mid, PrevAt(t, sched, r), MidCount(t, sched, r), l, n)
    {
      assert NodeInv(t, x, s, PrevAt(t, sched, r), CountAt(t, sched, r), l, n);
      NodeSides(t, x, s, PrevAt(t, sched, r), CountAt(t, sched, r), l, n);
      SideArrive(t, x, sched, r, s, mid, l, 2 * n);
      SideArrive(t, x, sched, r, s, mid, l, 2 * n + 1);
      NodeArrive(t, x, s, mid, PrevAt(t, sched, r), CountAt(t, sched, r), MidCount(t, sched, r), l, n);
    }
  }

  lemma EmptyNode(t: Tile, x: Psums, s: Net, zero: Count, l: nat, n: nat)
    requires t.Valid() && l < t.levels && Silent(s) && forall i: nat, l: nat, n: nat :: zero(i, l, n) == 0
    ensures NodeInv(t, x, s, zero, zero, l, n)
  {
    hide Keep, RoleAt, ConfigOf, Stream;
    forall i: nat | Uses(t, i, l, n) && t.RoleOf(i, l, n) == Receiver
      ensures Partner(n) >= 0
    {
      LinkPairs(t.Kept(i, l + 1), n);
    }
  }

  lemma EmptyHolds(t: Tile, x: Psums, sched: Schedule, s: Net)
    requires t.Valid() && Silent(s)
    ensures Holds(t, x, s, PrevAt(t, sched, 0), CountAt(t, sched, 0))
  {
    hide Keep, RoleAt, NodeInv;
    forall l: nat, n: nat | l < t.levels && n < Pow2(l)
      ensures NodeInv(t, x, s, PrevAt(t, sched, 0), CountAt(t, sched, 0), l, n)
    {
      EmptyNode(t, x, s, CountAt(t, sched, 0), l, n);
    }
  }

  /** In every run, before and after every cycle, the invariant holds. */
  lemma {:induction false} RunHolds(t: Tile, x: Psums, sched: Schedule, states: nat -> Net, mids: nat -> Net, r: nat)
    requires t.Valid() && t.Reducible() && IsRun(t, x, sched, states, mids)
    ensures Holds(t, x, states(r), PrevAt(t, sched, r), CountAt(t, sched, r))
    ensures Holds(t, x, mids(r), PrevAt(t, sched, r), MidCount(t, sched, r))
  {
    hide Keep, RoleAt, Holds, Next, Arrive, Fire;
    if r == 0 {
      EmptyHolds(t, x, sched, states(0));
    } else {
      RunHolds(t, x, sched, states, mids, r - 1);
      assert Next(t.levels, Compiled(t), mids(r - 1), states(r - 1 + 1));
      StepHolds(t, x, mids(r - 1), states(r), PrevAt(t, sched, r - 1), MidCount(t, sched, r - 1));
    }
    assert Arrive(t, x, sched, r, states(r), mids(r));
    ArriveHolds(t, x, sched, r, states(r), mids(r));
  }

  // ----- where and what is delivered

  /** The level whose adder completes VN i, searching upwards from level l. */
  ghost function FinishFrom(t: Tile, i: nat, l: nat): (f: nat)
    requires t.Valid() && i < |t.sizes| && l < t.levels && t.Active(i, l)
    ensures f <= l && t.Active(i, f) && t.Kept(i, f).Single()
  {
    KeptBounds(t, i, l);
    if t.Kept(i, l).Single() then l else FinishFrom(t, i, l - 1)
  }

  ghost function Finish(t: Tile, i: nat): (f: nat)
    requires t.Valid() && i < |t.sizes|
    ensures f < t.levels && t.Active(i, f) && t.Kept(i, f).Single()
  {
    FinishFrom(t, i, t.levels - 1)
  }

  ghost function FinishAdder(t: Tile, i: nat): (n: nat)
    requires t.Valid() && i < |t.sizes|
    ensures t.Completes(i, Finish(t, i), n) && n < Pow2(Finish(t, i))
  {
    KeptBounds(t, i, Finish(t, i));
    t.Kept(i, Finish(t, i)).lo
  }

  lemma {:induction false} StaysSingle(t: Tile, i: nat, l: nat, u: nat)
    requires t.Valid() && i < |t.sizes| && u <= l <= t.levels && t.Kept(i, l).Single()
    ensures t.Kept(i, u).Single()
    decreases l
  {
    if u < l {
      SingleStays(t, i, l);
      StaysSingle(t, i, l - 1, u);
    }
  }

  /** A VN is completed by one adder only. */
  lemma FinishUnique(t: Tile, i: nat, l: nat, n: nat)
    requires t.Valid() && i < |t.sizes| && l < t.levels && t.Completes(i, l, n)
    ensures l == Finish(t, i) && n == FinishAdder(t, i)
  {
    var f := Finish(t, i);
    if l < f {
      StaysSingle(t, i, f, l + 1);
    } else if f < l {
      StaysSingle(t, i, l, f + 1);
    }
  }

  /** The first w sums of VN i, in order. */
  ghost function Sums(t: Tile, x: Psums, i: nat, w: nat): seq<Pkg>
    requires t.Valid() && i < |t.sizes|
  {
    seq(w, k requires k >= 0 => Package(i, VNSum(t, x, i, k)))
  }

  /** How many sums of VN i have been delivered after r cycles. */
  ghost function Delivered(t: Tile, sched: Schedule, r: nat, i: nat): nat
    requires t.Valid() && i < |t.sizes|
  {
    CountAt(t, sched, r)(i, Finish(t, i), FinishAdder(t, i))
  }

  /** Memory holds, for every VN, exactly its first delivered sums, in order, and in one place. */
  ghost predicate MemoryCorrect(t: Tile, x: Psums, sched: Schedule, s: Net, r: nat)
    requires t.Valid()
  {
    && (forall i: nat :: i < |t.sizes| ==>
          Filter(s.Memory(Finish(t, i), FinishAdder(t, i)), i) == Sums(t, x, i, Delivered(t, sched, r, i)))
    && (forall l: nat, n: nat, p :: l < t.levels && n < Pow2(l) && p in s.Memory(l, n) ==>
          p.vn < |t.sizes| && l == Finish(t, p.vn) && n == FinishAdder(t, p.vn))
  }

  lemma HoldsDelivers(t: Tile, x: Psums, sched: Schedule, s: Net, r: nat)
    requires t.Valid() && Holds(t, x, s, PrevAt(t, sched, r), CountAt(t, sched, r))
    ensures MemoryCorrect(t, x, sched, s, r)
  {
    hide Keep, RoleAt, Holds, NodeInv, ConfigOf, Out, VNSum;
    forall l: nat, n: nat | l < t.levels && n < Pow2(l)
      ensures MemoryOk(t, x, s, CountAt(t, sched, r), l, n)
    {
      HoldsMemory(t, x, s, PrevAt(t, sched, r), CountAt(t, sched, r), l, n);
    }
    forall i: nat | i < |t.sizes|
      ensures Filter(s.Memory(Finish(t, i), FinishAdder(t, i)), i) == Sums(t, x, i, Delivered(t, sched, r, i))
    {
      var l, n := Finish(t, i), FinishAdder(t, i);
      assert MemoryOk(t, x, s, CountAt(t, sched, r), l, n);
      forall k: nat
        ensures Out(t, x, i, l, n, k) == VNSum(t, x, i, k)
      {
        CompleteValue(t, x, i, l, n, k);
      }
    }
    forall l: nat, n: nat, p | l < t.levels && n < Pow2(l) && p in s.Memory(l, n)
      ensures p.vn < |t.sizes| && l == Finish(t, p.vn) && n == FinishAdder(t, p.vn)
    {
      assert MemoryOk(t, x, s, CountAt(t, sched, r), l, n);
      FinishUnique(t, p.vn, l, n);
    }
  }

  /**
   The reduction theorem.  In every run of the configured network, whatever the psums and
   however they are skewed, no check ever fails, and the memory port of the adder that
   completes VN i has received exactly the sums of the first waves of VN i, in order, while
   no other memory port has received anything of VN i.
   */
  lemma ReductionCorrect(t: Tile, x: Psums, sched: Schedule, states: nat -> Net, mids: nat -> Net, r: nat)
    requires t.Valid() && t.Reducible() && IsRun(t, x, sched, states, mids)
    ensures CycleOk(t.levels, Compiled(t), mids(r))
    ensures MemoryCorrect(t, x, sched, states(r), r)
  {
    hide Keep, RoleAt, Holds, IsRun, CycleOk, MemoryCorrect;
    RunHolds(t, x, sched, states, mids, r);
    StepOk(t, x, mids(r), PrevAt(t, sched, r), MidCount(t, sched, r));
    HoldsDelivers(t, x, sched, states(r), r);
  }

  lemma HoldsMemory(t: Tile, x: Psums, s: Net, prev: Count, cur: Count, l: nat, n: nat)
    requires t.Valid() && Holds(t, x, s, prev, cur) && l < t.levels && n < Pow2(l)
    ensures MemoryOk(t, x, s, cur, l, n)
  {
    assert NodeInv(t, x, s, prev, cur, l, n);
  }
}
