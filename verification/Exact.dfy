/**
 Reducible is exactly the right condition: on every other tile the configured network
 fails a check or delivers a wrong sum, already for one wave of equal psums.
 */
module Exactness {
  import opened Prelude
  import opened Layout
  import opened Tiles
  import opened Exclusivity
  import opened Signals
  import opened Switches
  import opened Flow
  import opened Configured
  import opened Networks
  import opened Ordering
  import opened Invariants
  import opened Steps
  import opened Runs
  import opened Latency

  /** Every package in memory is the sum of some wave of its VN. */
  ghost predicate Sound(t: Tile, x: Psums, s: Net)
    requires t.Valid()
  {
    forall l: nat, n: nat, p :: l < t.levels && n < Pow2(l) && p in s.Memory(l, n) ==> IsSum(t, x, p)
  }

  ghost predicate IsSum(t: Tile, x: Psums, p: Pkg)
    requires t.Valid()
  {
    p.vn < |t.sizes| && exists k: nat :: p.data == VNSum(t, x, p.vn, k)
  }

  // ----- runs exist

  ghost function Ids(levels: nat): set<Id> {
    set l: nat, n: nat | l < levels && n < Pow2(l) :: (l, n)
  }

  /** The state after one synchronous cycle. */
  ghost function NextNet(levels: nat, cfgs: Configs, s: Net): Net {
    Net(map id | id in Ids(levels) :: RunNode(cfgs(id.0, id.1), s, id.0, id.1).queues,
        map id | id in Ids(levels) ::
          if cfgs(id.0, id.1).memory then [] else RunNode(cfgs(id.0, id.1), s, id.0, id.1).up,
        s.links + map id | id in Ids(levels) && LinkWriter(cfgs, id.0, id.1).Some? ::
          RunNode(cfgs(id.0, LinkWriter(cfgs, id.0, id.1).value), s, id.0, LinkWriter(cfgs, id.0, id.1).value).side,
        map id | id in Ids(levels) ::
          s.Memory(id.0, id.1) +
          (if cfgs(id.0, id.1).memory then RunNode(cfgs(id.0, id.1), s, id.0, id.1).up else []))
  }

  /** The sender on the link named e. */
  ghost function LinkWriter(cfgs: Configs, l: nat, e: nat): Option<nat> {
    if e % 2 == 1 then None
    else if cfgs(l, e).fw == Some(Send) then Some(e)
    else if e > 0 && cfgs(l, e - 1).fw == Some(Send) then Some(e - 1)
    else None
  }

  lemma NextNetNode(levels: nat, cfgs: Configs, s: Net, l: nat, n: nat)
    requires l < levels && n < Pow2(l)
    ensures var s', r := NextNet(levels, cfgs, s), RunNode(cfgs(l, n), s, l, n);
      && s'.Q(l, n) == r.queues
      && s'.Wire(l, n) == (if cfgs(l, n).memory then [] else r.up)
      && s'.Memory(l, n) == s.Memory(l, n) + (if cfgs(l, n).memory then r.up else [])
  {
    hide RunNode, LinkWriter;
    assert (l, n) in Ids(levels);
  }

  lemma NextNetLink(levels: nat, cfgs: Configs, s: Net, l: nat, e: nat)
    ensures var s' := NextNet(levels, cfgs, s);
      s'.Link(l, e) ==
        if l < levels && e < Pow2(l) && LinkWriter(cfgs, l, e).Some?
        then RunNode(cfgs(l, LinkWriter(cfgs, l, e).value), s, l, LinkWriter(cfgs, l, e).value).side
        else s.Link(l, e)
  {
    hide RunNode, LinkWriter;
    assert (l, e) in Ids(levels) <==> l < levels && e < Pow2(l);
  }

  /** Who writes the link of adder (l, n) when links are switched on in pairs. */
  lemma WriterOf(levels: nat, cfgs: Configs, l: nat, n: nat)
    requires WellLinked(levels, cfgs) && l < levels && n < Pow2(l)
    ensures var fw, w := cfgs(l, n).fw, LinkWriter(cfgs, l, EvenEnd(n));
      (fw == Some(Send) ==> w == Some(n) && EvenEnd(n) < Pow2(l)) && (fw == None ==> w == None || EvenEnd(n) >= Pow2(l))
  {
    assert LinkedAt(cfgs, l, n);
    if n % 2 == 0 && n > 0 {
      assert LinkedAt(cfgs, l, n - 1);
    }
  }

  lemma NextExists(levels: nat, cfgs: Configs, s: Net)
    requires WellLinked(levels, cfgs)
    ensures Next(levels, cfgs, s, NextNet(levels, cfgs, s))
  {
    hide RunNode, LinkWriter, NextNet, WellLinked;
    var s' := NextNet(levels, cfgs, s);
    forall l: nat, n: nat | l < levels && n < Pow2(l)
      ensures NodeNext(cfgs(l, n), s, s', l, n)
    {
      NextNetNode(levels, cfgs, s, l, n);
      NextNetLink(levels, cfgs, s, l, EvenEnd(n));
      WriterOf(levels, cfgs, l, n);
    }
    forall m: nat | m < Pow2(levels)
      ensures s'.Wire(levels, m) == []
    {
      NextNetEdge(levels, cfgs, s, m);
    }
  }

  lemma NextNetEdge(levels: nat, cfgs: Configs, s: Net, m: nat)
    ensures NextNet(levels, cfgs, s).Wire(levels, m) == []
  {
    hide RunNode, LinkWriter;
    assert (levels, m) !in Ids(levels);
  }

  ghost function MidState(t: Tile, x: Psums, sched: Schedule, r: nat, s: Net): Net {
    s.(wires := s.wires + map m: nat | 0 <= m < Pow2(t.levels) :: (t.levels, m) := Arrivals(t, x, sched, r, m))
  }

  ghost function StateAt(t: Tile, x: Psums, sched: Schedule, r: nat): Net
    requires t.Valid()
  {
    if r == 0 then Net(map[], map[], map[], map[])
    else NextNet(t.levels, Compiled(t), MidState(t, x, sched, r - 1, StateAt(t, x, sched, r - 1)))
  }

  lemma MidArrives(t: Tile, x: Psums, sched: Schedule, r: nat, s: Net)
    ensures Arrive(t, x, sched, r, s, MidState(t, x, sched, r, s))
  {
    hide Arrivals;
  }

  lemma RunExists(t: Tile, x: Psums, sched: Schedule)
    requires t.Valid()
    ensures IsRun(t, x, sched, (r: nat) => StateAt(t, x, sched, r),
                  (r: nat) => MidState(t, x, sched, r, StateAt(t, x, sched, r)))
  {
    hide NextNet, Next, Arrive, MidState;
    var states := (r: nat) => StateAt(t, x, sched, r);
    var mids := (r: nat) => MidState(t, x, sched, r, StateAt(t, x, sched, r));
    forall r: nat
      ensures Arrive(t, x, sched, r, states(r), mids(r)) && Next(t.levels, Compiled(t), mids(r), states(r + 1))
    {
      MidArrives(t, x, sched, r, states(r));
      CompiledWellLinked(t);
      NextExists(t.levels, Compiled(t), mids(r));
    }
  }

  // ----- one wave of ones

  const ONES: Psums := (m: nat, k: nat) => 1.0

  /** Every multiplier sends one psum before the first cycle, and nothing afterwards. */
  const ONCE: Schedule := (r: nat, m: nat) => if r == 0 then 1 else 0

  lemma {:induction false} SigmaOnes(f: nat -> real, lo: nat, hi: nat)
    requires lo <= hi && forall m: nat :: f(m) == 1.0
    ensures Sigma(f, lo, hi) == (hi - lo) as real
    decreases hi - lo
  {
    if lo < hi {
      SigmaOnes(f, lo + 1, hi);
    }
  }

  lemma OnesSum(t: Tile, i: nat, k: nat)
    requires t.Valid() && i < |t.sizes|
    ensures VNSum(t, ONES, i, k) == t.sizes[i] as real
  {
    SigmaOnes((m: nat) => ONES(m, k), t.Leaves(i).lo, t.Leaves(i).hi + 1);
  }

  /** What the last-level adder n finds at its inputs in the first cycle. */
  lemma FirstInputs(t: Tile, states: nat -> Net, mids: nat -> Net, cfg: Config, n: nat)
    requires t.Valid() && IsRun(t, ONES, ONCE, states, mids) && n < Pow2(t.levels - 1)
    ensures var q := Inputs(cfg, mids(0), t.levels - 1, n);
      q.left == Arrivals(t, ONES, ONCE, 0, 2 * n) && q.right == Arrivals(t, ONES, ONCE, 0, 2 * n + 1) && q.fw == []
  {
    hide Arrivals, Next;
    assert Arrive(t, ONES, ONCE, 0, states(0), mids(0));
    var s := states(0);
    assert s.Q(t.levels - 1, n) == NO_QUEUES && s.Link(t.levels - 1, EvenEnd(n)) == [];
  }

  lemma FirstArrival(t: Tile, i: nat, m: nat)
    requires t.Valid() && i < |t.sizes| && t.Leaves(i).Has(m)
    ensures Arrivals(t, ONES, ONCE, 0, m) == [Package(i, 1.0)]
  {
    OwnerUnique(t, |t.sizes|, m, i);
  }

  lemma FirstNext(t: Tile, states: nat -> Net, mids: nat -> Net, n: nat)
    requires t.Valid() && IsRun(t, ONES, ONCE, states, mids) && n < Pow2(t.levels - 1)
    ensures NodeNext(ConfigOf(t, t.levels - 1, n), mids(0), states(1), t.levels - 1, n)
  {
    hide Arrive, NodeNext, ConfigOf;
    assert Next(t.levels, Compiled(t), mids(0), states(0 + 1));
    assert Compiled(t)(t.levels - 1, n) == ConfigOf(t, t.levels - 1, n);
  }

  lemma FirstLink(t: Tile, states: nat -> Net, mids: nat -> Net, n: nat)
    requires t.Valid() && IsRun(t, ONES, ONCE, states, mids) && n < Pow2(t.levels - 1)
    requires ConfigOf(t, t.levels - 1, n).fw == Some(Send)
    ensures var c := ConfigOf(t, t.levels - 1, n);
      states(1).Link(t.levels - 1, EvenEnd(n)) == Route(c, n, Inputs(c, mids(0), t.levels - 1, n)).side
  {
    hide Arrive, ConfigOf, IsRun, Inputs, Route;
    FirstNext(t, states, mids, n);
  }

  lemma PassConfig(t: Tile, j: nat, l: nat, n: nat)
    requires t.Valid() && l == t.levels - 1 && SharedBy(t, j, n)
    requires t.RoleOf(j, l, n) == t.RoleOf(j + 1, l, n) == Plain && ToMemory(t, l, n)
    ensures ConfigOf(t, l, n).mode == Fw22 && ConfigOf(t, l, n).memory
  {
    hide Keep, RoleAt, ToMemory, ChildEnabled;
    SharedSignal(t, j, l, n);
  }

  lemma PassedThrough(cfg: Config, n: nat, q: Queues, a: Pkg, b: Pkg)
    requires cfg.mode == Fw22 && q.left == [a] && q.right == [b]
    ensures Route(cfg, n, q).up == [a, b]
  {
  }

  /** Two VNs that both pass through an adder which writes to memory: the longer one is cut. */
  lemma PassedTooEarly(t: Tile, states: nat -> Net, mids: nat -> Net, j: nat, l: nat, n: nat)
    requires t.Valid() && IsRun(t, ONES, ONCE, states, mids) && l == t.levels - 1 && SharedBy(t, j, n)
    requires t.RoleOf(j, l, n) == t.RoleOf(j + 1, l, n) == Plain && ToMemory(t, l, n)
    requires t.sizes[j] >= 2 || t.sizes[j + 1] >= 2
    ensures !Sound(t, ONES, states(1))
  {
    hide Keep, RoleAt, Arrivals, IsRun, VNSum, ConfigOf, Inputs, Route, ToMemory;
    LeafNeighbours(t, j, j + 1, n);
    KeptBounds(t, j, l);
    PassConfig(t, j, l, n);
    var cfg := ConfigOf(t, l, n);
    FirstInputs(t, states, mids, cfg, n);
    FirstArrival(t, j, 2 * n);
    FirstArrival(t, j + 1, 2 * n + 1);
    PassedThrough(cfg, n, Inputs(cfg, mids(0), l, n), Package(j, 1.0), Package(j + 1, 1.0));
    FirstNext(t, states, mids, n);
    var i := if t.sizes[j] >= 2 then j else j + 1;
    var p := Package(i, 1.0);
    assert p in states(1).Memory(l, n);
    forall k: nat
      ensures p.data != VNSum(t, ONES, i, k)
    {
      OnesSum(t, i, k);
    }
    assert !IsSum(t, ONES, p);
  }

  /** A two-multiplier VN at 3 mod 4, seen from the adders above it. */
  ghost predicate Crossed(t: Tile, i: nat, p: nat)
    requires t.Valid()
  {
    i < |t.sizes| && t.sizes[i] == 2 && t.Offset(i) == 2 * p + 1 && p % 2 == 1
  }

  /** The VN before VN i ends where VN i starts. */
  lemma Neighbour(t: Tile, i: nat)
    requires t.Valid() && i + 1 < |t.sizes|
    ensures t.Leaves(i).hi + 1 == t.Leaves(i + 1).lo == t.Offset(i + 1)
    ensures t.Kept(i, t.levels) == t.Leaves(i) && t.Kept(i + 1, t.levels) == t.Leaves(i + 1)
  {
    SumSlice(t.sizes, i);
  }

  lemma CrossedPlace(t: Tile, i: nat, p: nat)
    requires t.Valid() && Crossed(t, i, p)
    ensures i > 0 && t.Leaves(i - 1).Has(2 * p) && SharedBy(t, i - 1, p)
    ensures t.Leaves(i) == Span(2 * p + 1, 2 * p + 2) && t.Cover(i, t.levels - 1).Has(p + 1)
    ensures p + 1 < Pow2(t.levels - 1)
    ensures t.RoleOf(i, t.levels - 1, p) == Receiver && t.RoleOf(i, t.levels - 1, p + 1) == Sender
  {
    hide Keep, RoleAt, Sum;
    assert i > 0 by {
      assert t.Offset(0) == 0 by { EmptySum(t); }
    }
    Neighbour(t, i - 1);
    KeptBounds(t, i, t.levels - 1);
    CrossedRoles(t.Leaves(i), p);
  }

  lemma EmptySum(t: Tile)
    ensures t.Offset(0) == 0
  {
    assert t.sizes[..0] == [];
  }

  lemma CrossedRoles(c: Span, p: nat)
    requires c == Span(2 * p + 1, 2 * p + 2) && p % 2 == 1
    ensures RoleAt(c, p) == Receiver && RoleAt(c, p + 1) == Sender
  {
  }

  lemma CrossedReceiver(t: Tile, i: nat, p: nat)
    requires t.Valid() && Crossed(t, i, p)
    ensures ConfigOf(t, t.levels - 1, p).mode == Add31 && ConfigOf(t, t.levels - 1, p).fw == Some(Receive)
  {
    hide Keep, RoleAt, ToMemory, ChildEnabled;
    CrossedPlace(t, i, p);
    SharedSignal(t, i - 1, t.levels - 1, p);
  }

  lemma CrossedOwner(t: Tile, i: nat, l: nat, n: nat)
    requires t.Valid() && i < |t.sizes| && l == t.levels - 1 && t.Cover(i, l).Has(n) && t.Leaves(i).hi == 2 * n
    requires t.Leaves(i).lo < 2 * n && !SharedBy(t, i, n)
    ensures OnlyOwner(t, i, l, n)
  {
    hide Keep, RoleAt;
    forall j | 0 <= j < |t.sizes| && j != i
      ensures !t.Cover(j, l).Has(n)
    {
      if t.Cover(j, l).Has(n) {
        if j < i {
          LeafNeighbours(t, j, i, n);
        } else {
          LeafNeighbours(t, i, j, n);
        }
      }
    }
  }

  lemma CrossedSender(t: Tile, i: nat, p: nat)
    requires t.Valid() && Crossed(t, i, p)
    ensures var c := ConfigOf(t, t.levels - 1, p + 1);
      c.fw == Some(Send) && (c.mode == Add11PlusFw11 || (c.mode == Add21 && !c.right && 2 * p + 3 >= t.Used()))
  {
    hide Keep, RoleAt, ToMemory;
    var l, n := t.levels - 1, p + 1;
    CrossedPlace(t, i, p);
    if SharedBy(t, i, n) {
      LeafNeighbours(t, i, i + 1, n);
      LeftEnd(t.Leaves(i + 1), n);
      assert t.Kept(i + 1, l + 1) == t.Leaves(i + 1);
      assert t.RoleOf(i + 1, l, n) == Plain;
      SharedSignal(t, i, l, n);
    } else {
      CrossedOwner(t, i, l, n);
      SoloSignal(t, i, l, n);
      SoloLeaf(t, i, n, 2 * n + 1);
    }
  }

  /** After the first cycle the psums of two VNs wait at adder p, and a third one on its link. */
  lemma CrossedWaits(t: Tile, states: nat -> Net, mids: nat -> Net, i: nat, p: nat)
    requires t.Valid() && IsRun(t, ONES, ONCE, states, mids) && Crossed(t, i, p)
    ensures i > 0 && states(1).Q(t.levels - 1, p) == Queues([Package(i - 1, 1.0)], [Package(i, 1.0)], [])
  {
    hide Keep, RoleAt, Arrivals, ConfigOf, IsRun, Inputs, Route;
    CrossedPlace(t, i, p);
    CrossedReceiver(t, i, p);
    var l, cp := t.levels - 1, ConfigOf(t, t.levels - 1, p);
    FirstInputs(t, states, mids, cp, p);
    FirstArrival(t, i - 1, 2 * p);
    FirstArrival(t, i, 2 * p + 1);
    FirstNext(t, states, mids, p);
    CrossedStalls(cp, p, Inputs(cp, mids(0), l, p));
  }

  lemma CrossedLink(t: Tile, states: nat -> Net, mids: nat -> Net, i: nat, p: nat)
    requires t.Valid() && IsRun(t, ONES, ONCE, states, mids) && Crossed(t, i, p)
    ensures states(1).Link(t.levels - 1, EvenEnd(p)) == [Package(i, 1.0)]
  {
    hide Keep, RoleAt, Arrivals, ConfigOf, IsRun, Inputs, Route, SharedBy;
    CrossedPlace(t, i, p);
    CrossedSender(t, i, p);
    var l, n := t.levels - 1, p + 1;
    var cq := ConfigOf(t, l, n);
    FirstInputs(t, states, mids, cq, n);
    FirstArrival(t, i, 2 * n);
    UnusedArrival(t, 2 * n + 1);
    FirstLink(t, states, mids, n);
    CrossedSends(cq, n, Inputs(cq, mids(0), l, n), i);
  }

  /** The three-way adder p then meets psums of two VNs. */
  lemma CrossedFails(t: Tile, states: nat -> Net, mids: nat -> Net, i: nat, p: nat)
    requires t.Valid() && IsRun(t, ONES, ONCE, states, mids) && Crossed(t, i, p)
    ensures !CycleOk(t.levels, Compiled(t), mids(1))
  {
    hide Keep, RoleAt, ConfigOf, IsRun, Inputs, Route;
    var l := t.levels - 1;
    CrossedPlace(t, i, p);
    CrossedReceiver(t, i, p);
    var cp := ConfigOf(t, l, p);
    CrossedWaits(t, states, mids, i, p);
    CrossedLink(t, states, mids, i, p);
    SecondInputs(t, states, mids, cp, l, p);
    var q := Inputs(cp, mids(1), l, p);
    assert q.left[0].vn == i - 1 && q.right[0].vn == i && q.fw != [];
    CrossedMismatch(cp, p, q);
    assert Compiled(t)(l, p) == cp && !NodeOk(Compiled(t)(l, p), mids(1), l, p);
  }

  lemma UnusedArrival(t: Tile, m: nat)
    ensures m >= t.Used() ==> Arrivals(t, ONES, ONCE, 0, m) == []
  {
  }

  lemma CrossedMismatch(cfg: Config, n: nat, q: Queues)
    requires cfg.mode == Add31 && q.left != [] && q.right != [] && q.fw != [] && q.left[0].vn != q.right[0].vn
    ensures !Route(cfg, n, q).ok
  {
  }

  lemma CrossedStalls(cfg: Config, n: nat, q: Queues)
    requires cfg.mode == Add31 && q.fw == []
    ensures Route(cfg, n, q).queues == q
  {
  }

  lemma CrossedSends(cfg: Config, n: nat, q: Queues, i: nat)
    requires n % 2 == 0 && cfg.fw == Some(Send) && q.left == [Package(i, 1.0)]
    requires cfg.mode == Add11PlusFw11 || (cfg.mode == Add21 && !cfg.right && q.right == [])
    ensures Route(cfg, n, q).side == [Package(i, 1.0)]
  {
  }

  /** Nothing arrives after the first cycle. */
  lemma SecondInputs(t: Tile, states: nat -> Net, mids: nat -> Net, cfg: Config, l: nat, n: nat)
    requires t.Valid() && IsRun(t, ONES, ONCE, states, mids) && l < t.levels && cfg.fw == Some(Receive)
    ensures var q, s := Inputs(cfg, mids(1), l, n), states(1);
      s.Q(l, n).left <= q.left && s.Q(l, n).right <= q.right && q.fw == s.Q(l, n).fw + s.Link(l, EvenEnd(n))
  {
    hide Next, Arrivals;
    assert Arrive(t, ONES, ONCE, 1, states(1), mids(1));
  }

  // ----- the exact condition

  /** A one-multiplier VN that shares an adder with a longer VN, on the wrong side. */
  lemma PassedPlace(t: Tile, j: nat, n: nat)
    requires t.Valid() && j + 1 < |t.sizes| && t.Offset(j + 1) == 2 * n + 1
    requires (n % 2 == 0 && t.sizes[j] == 1) || (n % 2 == 1 && t.sizes[j + 1] == 1)
    ensures SharedBy(t, j, n)
    ensures t.RoleOf(j, t.levels - 1, n) == t.RoleOf(j + 1, t.levels - 1, n) == Plain
    ensures ToMemory(t, t.levels - 1, n)
  {
    hide Keep, RoleAt, Sum;
    var l := t.levels - 1;
    Neighbour(t, j);
    SharedRoles(t.Leaves(j), t.Leaves(j + 1), n);
    RightEnd(t.Leaves(j), n);
    LeftEnd(t.Leaves(j + 1), n);
    assert t.Kept(j, l) == Span(n, n) || t.Kept(j + 1, l) == Span(n, n);
  }

  lemma WrongSide(t: Tile, states: nat -> Net, mids: nat -> Net, j: nat, n: nat)
    requires t.Valid() && IsRun(t, ONES, ONCE, states, mids) && j + 1 < |t.sizes| && t.Offset(j + 1) == 2 * n + 1
    requires (n % 2 == 0 && t.sizes[j] == 1) || (n % 2 == 1 && t.sizes[j + 1] == 1)
    requires t.sizes[j] >= 2 || t.sizes[j + 1] >= 2
    ensures !Sound(t, ONES, states(1))
  {
    hide Keep, RoleAt, Sum, IsRun, Sound, SharedBy, ToMemory;
    PassedPlace(t, j, n);
    PassedTooEarly(t, states, mids, j, t.levels - 1, n);
  }

  lemma QuarterParity(o: nat)
    ensures o % 4 == 3 ==> o == 2 * ((o - 1) / 2) + 1 && ((o - 1) / 2) % 2 == 1
    ensures o % 4 == 0 ==> o == 2 * (o / 2) && (o / 2) % 2 == 0
  {
    var d := o / 4;
    if o % 4 == 3 {
      assert o == 4 * d + 3;
      assert (o - 1) / 2 == 2 * d + 1;
    } else if o % 4 == 0 {
      assert o == 4 * d;
      assert o / 2 == 2 * d;
    }
  }

  /** On a tile that is not reducible, one wave of ones goes wrong within two cycles. */
  lemma NotReducibleFails(t: Tile, states: nat -> Net, mids: nat -> Net, i: nat)
    requires t.Valid() && IsRun(t, ONES, ONCE, states, mids) && i < |t.sizes| && !t.ReducibleAt(i)
    ensures !CycleOk(t.levels, Compiled(t), mids(1)) || !Sound(t, ONES, states(1))
  {
    hide Keep, RoleAt, Sum, IsRun, CycleOk, Sound;
    var o := t.Offset(i);
    QuarterParity(o);
    if t.sizes[i] == 2 && o % 4 == 3 {
      CrossedFails(t, states, mids, i, (o - 1) / 2);
    } else if o % 4 == 0 {
      Neighbour(t, i);
      WrongSide(t, states, mids, i, o / 2);
    } else {
      WrongSide(t, states, mids, i - 1, (o - 1) / 2);
    }
  }

  lemma {:induction false} FilterHas(s: seq<Pkg>, p: Pkg)
    requires p in s
    ensures p in Filter(s, p.vn)
  {
    if p != s[|s| - 1] {
      FilterHas(s[..|s| - 1], p);
    }
  }

  lemma CorrectIsSound(t: Tile, x: Psums, sched: Schedule, s: Net, r: nat)
    requires t.Valid() && MemoryCorrect(t, x, sched, s, r)
    ensures Sound(t, x, s)
  {
    hide Keep, RoleAt, VNSum, Filter, Delivered;
    forall l: nat, n: nat, p | l < t.levels && n < Pow2(l) && p in s.Memory(l, n)
      ensures IsSum(t, x, p)
    {
      FilterHas(s.Memory(l, n), p);
      var all := Sums(t, x, p.vn, Delivered(t, sched, r, p.vn));
      assert p in all;
      var k :| 0 <= k < |all| && all[k] == p;
      assert p.data == VNSum(t, x, p.vn, k);
    }
  }

  /** No run of the configured network ever fails a check or delivers a wrong value. */
  ghost predicate AlwaysRight(t: Tile)
    requires t.Valid()
  {
    forall x: Psums, sched: Schedule, states: nat -> Net, mids: nat -> Net, r: nat ::
      IsRun(t, x, sched, states, mids) ==> RightAt(t, x, states, mids, r)
  }

  ghost predicate RightAt(t: Tile, x: Psums, states: nat -> Net, mids: nat -> Net, r: nat)
    requires t.Valid()
  {
    CycleOk(t.levels, Compiled(t), mids(r)) && Sound(t, x, states(r))
  }

  /** The exact condition: a tile is reduced correctly in every run if and only if it is reducible. */
  lemma ReducibleExactly(t: Tile)
    requires t.Valid()
    ensures t.Reducible() <==> AlwaysRight(t)
  {
    hide Keep, RoleAt, IsRun, MemoryCorrect, CycleOk, Sound;
    if t.Reducible() {
      forall x: Psums, sched: Schedule, states: nat -> Net, mids: nat -> Net, r: nat | IsRun(t, x, sched, states, mids)
        ensures RightAt(t, x, states, mids, r)
      {
        ReductionCorrect(t, x, sched, states, mids, r);
        CorrectIsSound(t, x, sched, states(r), r);
      }
    } else {
      var i :| 0 <= i < |t.sizes| && !t.ReducibleAt(i);
      var states := (r: nat) => StateAt(t, ONES, ONCE, r);
      var mids := (r: nat) => MidState(t, ONES, ONCE, r, StateAt(t, ONES, ONCE, r));
      RunExists(t, ONES, ONCE);
      NotReducibleFails(t, states, mids, i);
      assert !RightAt(t, ONES, states, mids, 1);
    }
  }

  // ----- tiles that are reducible

  /** Every dense tile, whatever its VN size, can be reduced. */
  lemma DenseReducible(levels: nat, count: nat, size: nat)
    requires levels >= 1 && size >= 1 && count * size <= Pow2(levels)
    ensures var t := Tile(levels, seq(count, _ => size)); t.Valid() && t.Reducible()
  {
    hide Sum;
    var t := Tile(levels, seq(count, _ => size));
    DenseOffset(count, size);
    forall i: nat | i < count
      ensures t.ReducibleAt(i)
    {
      assert t.sizes[..i] == seq(i, _ => size);
      DenseOffset(i, size);
      assert t.Offset(i) == i * size;
      if size == 2 {
        EvenOffset(i);
      }
    }
  }

  lemma EvenOffset(i: nat)
    ensures (i * 2) % 4 != 3
  {
  }

  /** Every used multiplier sends one psum, the last of them just before cycle r0 at the latest. */
  ghost predicate OneWave(t: Tile, sched: Schedule, r0: nat) {
    && (forall m: nat, r: nat :: m < t.Used() ==> Arrived(sched, r, m) <= 1)
    && var last := r0 + 1; forall m: nat :: m < t.Used() ==> Arrived(sched, last, m) == 1
  }

  lemma OneDelivered(t: Tile, x: Psums, sched: Schedule, states: nat -> Net, mids: nat -> Net, r0: nat, r: nat, i: nat)
    requires t.Valid() && t.Reducible() && IsRun(t, x, sched, states, mids) && i < |t.sizes|
    requires OneWave(t, sched, r0) && r >= r0 + 2 * t.levels
    ensures Delivered(t, sched, r, i) == 1
  {
    hide IsRun, Delivered, Arrived;
    var r1 := r - 2 * t.levels;
    forall m: nat | t.Leaves(i).Has(m)
      ensures Arrived(sched, r1 + 1, m) >= 1 && m < t.Used()
    {
      OffsetMonotone(t, i, |t.sizes|);
      ArrivedMonotone(sched, r0 + 1, r1 + 1, m);
    }
    WaveLatency(t, sched, i, 1, r1);
    assert t.Leaves(i).Has(t.Leaves(i).lo);
    Causality(t, x, sched, states, mids, r, i, t.Leaves(i).lo);
  }

  /** Exactly one package per VN, its sum, has reached memory, and at its own port. */
  ghost predicate WaveDelivered(t: Tile, x: Psums, s: Net)
    requires t.Valid()
  {
    && (forall i: nat :: i < |t.sizes| ==>
          Filter(s.Memory(Finish(t, i), FinishAdder(t, i)), i) == [Package(i, VNSum(t, x, i, 0))])
    && (forall l: nat, n: nat, p :: l < t.levels && n < Pow2(l) && p in s.Memory(l, n) ==>
          p.vn < |t.sizes| && (l, n) == (Finish(t, p.vn), FinishAdder(t, p.vn)))
  }

  /** A single wave, however skewed: 2 * levels cycles after its last psum every VN has delivered
      exactly one package, its sum, to the memory port of the adder that completes it. */
  lemma WaveEnds(t: Tile, x: Psums, sched: Schedule, states: nat -> Net, mids: nat -> Net, r0: nat, r: nat)
    requires t.Valid() && t.Reducible() && IsRun(t, x, sched, states, mids)
    requires OneWave(t, sched, r0) && r >= r0 + 2 * t.levels
    ensures WaveDelivered(t, x, states(r))
  {
    hide IsRun, CycleOk, Delivered, VNSum, FinishFrom, OneWave;
    ReductionCorrect(t, x, sched, states, mids, r);
    forall i: nat | i < |t.sizes|
      ensures Filter(states(r).Memory(Finish(t, i), FinishAdder(t, i)), i) == [Package(i, VNSum(t, x, i, 0))]
    {
      OneDelivered(t, x, sched, states, mids, r0, r, i);
      assert Sums(t, x, i, 1) == [Package(i, VNSum(t, x, i, 0))];
    }
  }

  /** The dense case end to end: when every multiplier of a dense tile sends one psum, in whatever
      order, no check ever fails, and 2 * levels cycles after the last psum each VN has delivered
      exactly one package, its sum, and nothing else has been delivered anywhere. */
  lemma DenseWave(levels: nat, count: nat, size: nat, x: Psums, sched: Schedule,
                  states: nat -> Net, mids: nat -> Net, r0: nat, r: nat)
    requires levels >= 1 && size >= 1 && count * size <= Pow2(levels)
    requires var t := Tile(levels, seq(count, _ => size));
      t.Valid() && IsRun(t, x, sched, states, mids) && OneWave(t, sched, r0)
    ensures var t := Tile(levels, seq(count, _ => size));
      && CycleOk(levels, Compiled(t), mids(r))
      && (r >= r0 + 2 * levels ==> WaveDelivered(t, x, states(r)))
  {
    hide IsRun, CycleOk, WaveDelivered, OneWave;
    var t := Tile(levels, seq(count, _ => size));
    DenseReducible(levels, count, size);
    ReductionCorrect(t, x, sched, states, mids, r);
    if r >= r0 + 2 * levels {
      WaveEnds(t, x, sched, states, mids, r0, r);
    }
  }

  /** Every tile whose VNs have three or more multipliers can be reduced. */
  lemma LongReducible(t: Tile)
    requires t.Valid() && forall i :: 0 <= i < |t.sizes| ==> t.sizes[i] >= 3
    ensures t.Reducible()
  {
  }

  /** One multiplier in front of a longer VN that leaves through the other side: three multipliers are enough to go
      wrong. */
  lemma LoneMultiplierFails()
    ensures var t := Tile(2, [1, 2]); t.Valid() && !t.Reducible() && !AlwaysRight(t)
  {
    var t := Tile(2, [1, 2]);
    assert t.sizes[..0] == [] && t.sizes[..1] == [1];
    assert Sum([1]) == 1 && t.Used() == 3 && Pow2(2) == 4;
    assert !t.ReducibleAt(0);
    ReducibleExactly(t);
  }

  /** A pair of multipliers that starts at multiplier 3 goes wrong, too. */
  lemma ShortPairFails()
    ensures var t := Tile(3, [3, 2]); t.Valid() && !t.Reducible() && !AlwaysRight(t)
  {
    var t := Tile(3, [3, 2]);
    assert t.sizes[..1] == [3] && [3][..0] == [] && t.sizes[..2] == t.sizes;
    assert Sum([3]) == 3 && t.Offset(1) == 3;
    assert Pow2(3) == 8;
    assert t.Used() == 5;
    assert !t.ReducibleAt(1);
    ReducibleExactly(t);
  }
}
