/** When sums are delivered: never before all their psums have been sent, and at most two
    cycles per level after that. */
module Latency {
  import opened Layout
  import opened Tiles
  import opened Signals
  import opened Flow
  import opened Configured
  import opened Networks
  import opened Invariants
  import opened Runs

  // ----- causality

  /** An adder has emitted no more than its inputs have. */
  lemma CountBelowInputs(t: Tile, x: Psums, s: Net, prev: Count, cur: Count, i: nat, l: nat, n: nat)
    requires t.Valid() && l < t.levels && Uses(t, i, l, n) && n < Pow2(l) && Holds(t, x, s, prev, cur)
    ensures t.Kept(i, l + 1).Has(2 * n) ==> cur(i, l, n) <= cur(i, l + 1, 2 * n)
    ensures t.Kept(i, l + 1).Has(2 * n + 1) ==> cur(i, l, n) <= cur(i, l + 1, 2 * n + 1)
    ensures t.RoleOf(i, l, n) == Receiver ==> Partner(n) >= 0 && cur(i, l, n) <= cur(i, l, Partner(n))
  {
    hide Keep, RoleAt, NodeInv, SideInv, Packets, LinkOk;
    assert NodeInv(t, x, s, prev, cur, l, n);
    NodeSides(t, x, s, prev, cur, l, n);
    if t.Kept(i, l + 1).Has(2 * n) {
      assert Feeds(t, i, l, 2 * n);
      FedInput(t, x, s, prev, cur, i, l, 2 * n);
    }
    if t.Kept(i, l + 1).Has(2 * n + 1) {
      assert Feeds(t, i, l, 2 * n + 1);
      FedInput(t, x, s, prev, cur, i, l, 2 * n + 1);
    }
    if t.RoleOf(i, l, n) == Receiver {
      NodeLink(t, x, s, prev, cur, i, l, n);
      LinkedInput(t, x, s, prev, cur, i, l, n);
    }
  }

  /** The psums of multiplier m pass, at every level, through some kept adder. */
  lemma {:induction false} KeptBelowLeaf(t: Tile, x: Psums, s: Net, prev: Count, cur: Count, i: nat, l: nat, m: nat)
    returns (n: nat)
    requires t.Valid() && l <= t.levels && i < |t.sizes| && t.Leaves(i).Has(m)
    requires l < t.levels ==> t.Active(i, l)
    requires Holds(t, x, s, prev, cur)
    ensures t.Kept(i, l).Has(n) && cur(i, l, n) <= cur(i, t.levels, m)
    decreases t.levels - l
  {
    hide Keep, RoleAt, Holds;
    if l == t.levels {
      n := m;
    } else {
      if l + 1 < t.levels {
        ActiveFull(t, i, l, t.Cover(i, l).lo);
      }
      var c := KeptBelowLeaf(t, x, s, prev, cur, i, l + 1, m);
      n := c / 2;
      KeptBounds(t, i, l);
      assert Uses(t, i, l, n);
      CountBelowInputs(t, x, s, prev, cur, i, l, n);
      KeepRoles(t.Kept(i, l + 1), n);
      if !t.Kept(i, l).Has(n) {
        LinkPairs(t.Kept(i, l + 1), n);
        var p: nat := Partner(n);
        LinkPairs(t.Kept(i, l + 1), p);
        KeepRoles(t.Kept(i, l + 1), p);
        CountBelowInputs(t, x, s, prev, cur, i, l, p);
        n := p;
      }
    }
  }

  /** A sum is delivered only after every multiplier of the VN has sent its psum. */
  lemma Causality(t: Tile, x: Psums, sched: Schedule, states: nat -> Net, mids: nat -> Net, r: nat, i: nat, m: nat)
    requires t.Valid() && t.Reducible() && IsRun(t, x, sched, states, mids)
    requires i < |t.sizes| && t.Leaves(i).Has(m)
    ensures Delivered(t, sched, r, i) <= Arrived(sched, r, m)
  {
    hide Keep, RoleAt, Holds;
    RunHolds(t, x, sched, states, mids, r);
    var n := KeptBelowLeaf(t, x, states(r), PrevAt(t, sched, r), CountAt(t, sched, r), i, Finish(t, i), m);
    LeafCount(t, sched, r, i, m);
  }

  // ----- latency

  /** c is at least the smaller of w and d. */
  predicate Reaches(c: int, w: int, d: int) {
    c >= w || c >= d
  }

  /** Every input of adder (l, n) for VN i has, with the psums of cycle u, reached u + 1 - b. */
  ghost predicate InputsReach(t: Tile, sched: Schedule, i: nat, l: nat, n: nat, w: int, b: int, u: nat)
    requires t.Valid() && l < t.levels && i < |t.sizes|
  {
    var c := MidCount(t, sched, u);
    && (t.Kept(i, l + 1).Has(2 * n) ==> Reaches(c(i, l + 1, 2 * n), w, u + 1 - b))
    && (t.Kept(i, l + 1).Has(2 * n + 1) ==> Reaches(c(i, l + 1, 2 * n + 1), w, u + 1 - b))
    && (t.RoleOf(i, l, n) == Receiver && Partner(n) >= 0 ==> Reaches(c(i, l, Partner(n)), w, u + 1 - b))
  }

  /** Pass-through adders serve VNs of one multiplier. */
  lemma PassThrough(t: Tile, i: nat, l: nat, n: nat)
    requires t.Valid() && t.Reducible() && l < t.levels && Uses(t, i, l, n) && ConfigOf(t, l, n).mode == Fw22
    ensures l == t.levels - 1 && t.sizes[i] == 1 && t.Leaves(i).lo / 2 == n
  {
    hide Keep, RoleAt, ConfigOf;
    Owners(t, i, l, n);
    if OnlyOwner(t, i, l, n) {
      SoloConfig(t, i, l, n);
    } else {
      SharedConfig(t, if SharedBy(t, i, n) then i else i - 1, n);
    }
  }

  /** An adder whose inputs keep pace keeps pace itself. */
  lemma {:induction false} AdderPace(t: Tile, sched: Schedule, i: nat, l: nat, n: nat, w: int, b: nat, u: nat)
    requires t.Valid() && t.Reducible() && l < t.levels && Uses(t, i, l, n)
    requires forall v: nat :: InputsReach(t, sched, i, l, n, w, b, v)
    ensures Reaches(CountAt(t, sched, u)(i, l, n), w, u - b)
  {
    hide Keep, RoleAt, ConfigOf, Arrived;
    if u > 0 {
      AdderPace(t, sched, i, l, n, w, b, u - 1);
      assert InputsReach(t, sched, i, l, n, w, b, u - 1);
      if ConfigOf(t, l, n).mode == Fw22 {
        PassThrough(t, i, l, n);
        assert t.Leaves(i).lo == 2 * n || t.Leaves(i).lo == 2 * n + 1;
      }
    }
  }

  /** From cycle r0 on, multiplier m has always sent as many psums as cycles have passed, up to w. */
  ghost predicate OnTime(sched: Schedule, m: nat, w: nat, r0: nat) {
    forall u: nat :: Reaches(Arrived(sched, u, m), w, u - r0)
  }

  ghost predicate VNOnTime(t: Tile, sched: Schedule, i: nat, w: nat, r0: nat)
    requires t.Valid() && i < |t.sizes|
  {
    forall m: nat :: t.Leaves(i).Has(m) ==> OnTime(sched, m, w, r0)
  }

  /** A child of level l + 1 keeps pace once its level does. */
  ghost predicate ChildPace(t: Tile, sched: Schedule, i: nat, l: nat, w: int, b: int)
    requires t.Valid() && i < |t.sizes| && l <= t.levels
  {
    forall c: nat, v: nat :: t.Kept(i, l).Has(c) ==> Reaches(MidCount(t, sched, v)(i, l, c), w, v + 1 - b)
  }

  lemma PlainPace(t: Tile, sched: Schedule, i: nat, l: nat, n: nat, w: int, b: nat, u: nat)
    requires t.Valid() && t.Reducible() && l < t.levels && Uses(t, i, l, n) && t.RoleOf(i, l, n) != Receiver
    requires ChildPace(t, sched, i, l + 1, w, b)
    ensures Reaches(CountAt(t, sched, u)(i, l, n), w, u - b)
  {
    hide Keep, RoleAt, MidCount, CountAt;
    forall v: nat
      ensures InputsReach(t, sched, i, l, n, w, b, v)
    {
    }
    AdderPace(t, sched, i, l, n, w, b, u);
  }

  lemma LinkPace(t: Tile, sched: Schedule, i: nat, l: nat, n: nat, w: int, b: nat, u: nat)
    requires t.Valid() && t.Reducible() && l < t.levels && Uses(t, i, l, n) && t.RoleOf(i, l, n) == Receiver
    requires ChildPace(t, sched, i, l + 1, w, b)
    ensures Reaches(CountAt(t, sched, u)(i, l, n), w, u - (b + 1))
  {
    hide Keep, RoleAt, CountAt, Arrived;
    LinkPairs(t.Kept(i, l + 1), n);
    var p: nat := Partner(n);
    LinkPairs(t.Kept(i, l + 1), p);
    assert t.RoleOf(i, l, p) == Sender && Uses(t, i, l, p);
    var b' := b + 1;
    forall v: nat
      ensures InputsReach(t, sched, i, l, n, w, b', v)
    {
      PlainPace(t, sched, i, l, p, w, b, v);
      assert t.Kept(i, l + 1).Has(2 * n) ==> Reaches(MidCount(t, sched, v)(i, l + 1, 2 * n), w, v + 1 - b);
      assert t.Kept(i, l + 1).Has(2 * n + 1) ==> Reaches(MidCount(t, sched, v)(i, l + 1, 2 * n + 1), w, v + 1 - b);
    }
    AdderPace(t, sched, i, l, n, w, b', u);
  }

  /** The kept adders of level l lag at most two cycles per level below. */
  lemma {:induction false} LevelPace(t: Tile, sched: Schedule, i: nat, l: nat, w: nat, r0: nat, n: nat, u: nat)
    requires t.Valid() && t.Reducible() && l < t.levels && i < |t.sizes| && t.Active(i, l)
    requires t.Kept(i, l).Has(n) && VNOnTime(t, sched, i, w, r0)
    ensures Reaches(CountAt(t, sched, u)(i, l, n), w, u - (r0 + 2 * (t.levels - l) - 1))
    decreases t.levels - l
  {
    hide Keep, RoleAt, CountAt, Arrived, VNOnTime;
    var b := r0 + 2 * (t.levels - l) - 2;
    var l' := l + 1;
    forall c: nat, v: nat | t.Kept(i, l').Has(c)
      ensures Reaches(MidCount(t, sched, v)(i, l', c), w, v + 1 - b)
    {
      if l' == t.levels {
        LeafOnTime(t, sched, i, w, r0, c, v + 1);
      } else {
        ActiveFull(t, i, l, t.Cover(i, l).lo);
        LevelPace(t, sched, i, l', w, r0, c, v);
      }
    }
    KeptRole(t.Kept(i, l + 1), n);
    if t.RoleOf(i, l, n) == Receiver {
      LinkPace(t, sched, i, l, n, w, b, u);
    } else {
      PlainPace(t, sched, i, l, n, w, b, u);
    }
  }

  lemma LeafOnTime(t: Tile, sched: Schedule, i: nat, w: nat, r0: nat, m: nat, u: nat)
    requires t.Valid() && i < |t.sizes| && VNOnTime(t, sched, i, w, r0) && t.Leaves(i).Has(m)
    ensures Reaches(Arrived(sched, u, m), w, u - r0)
  {
    assert OnTime(sched, m, w, r0);
  }

  /**
   The tree is pipelined: if every multiplier of VN i has sent its k-th psum before cycle
   r0 + k, for k < w, then the k-th sum is delivered within 2 * levels cycles of that.
   */
  lemma PipelinedLatency(t: Tile, sched: Schedule, i: nat, w: nat, r0: nat, k: nat)
    requires t.Valid() && t.Reducible() && i < |t.sizes| && VNOnTime(t, sched, i, w, r0) && k < w
    ensures Delivered(t, sched, r0 + k + 2 * t.levels, i) >= k + 1
  {
    hide Keep, RoleAt, CountAt, VNOnTime;
    LevelPace(t, sched, i, Finish(t, i), w, r0, FinishAdder(t, i), r0 + k + 2 * t.levels);
  }

  lemma {:induction false} ArrivedMonotone(sched: Schedule, u: nat, v: nat, m: nat)
    requires u <= v
    ensures Arrived(sched, u, m) <= Arrived(sched, v, m)
  {
    if u < v {
      ArrivedMonotone(sched, u, v - 1, m);
    }
  }

  /** A wave that is complete at the multipliers before cycle r is in memory 2 * levels cycles later
      when it is the first one, and within w - 1 more cycles when it is the w-th. */
  lemma WaveLatency(t: Tile, sched: Schedule, i: nat, w: nat, r: nat)
    requires t.Valid() && t.Reducible() && i < |t.sizes| && w >= 1
    requires forall m: nat :: t.Leaves(i).Has(m) ==> Arrived(sched, r + 1, m) >= w
    ensures Delivered(t, sched, r + (w - 1) + 2 * t.levels, i) >= w
  {
    hide Keep, RoleAt, CountAt;
    forall m: nat | t.Leaves(i).Has(m)
      ensures OnTime(sched, m, w, r)
    {
      forall u: nat
        ensures Reaches(Arrived(sched, u, m), w, u - r)
      {
        if u >= r + 1 {
          ArrivedMonotone(sched, r + 1, u, m);
        }
      }
    }
    PipelinedLatency(t, sched, i, w, r, w - 1);
  }
}
