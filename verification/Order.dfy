/**
 The simulator steps the adders one after the other.  Stepping them root first, and the
 receiver of a link before its sender, amounts to one synchronous cycle of the network.
 */
module Ordering {
  import opened Prelude
  import opened Layout
  import opened Signals
  import opened Switches
  import opened Networks

  function Put(m: map<Id, seq<Pkg>>, id: Id, s: seq<Pkg>): map<Id, seq<Pkg>> {
    if s == [] then m else m[id := s]
  }

  /** The network after adder (l, n) alone has run: it takes what is pending, and sends. */
  function StepOne(cfg: Config, s: Net, l: nat, n: nat): Net {
    var r := RunNode(cfg, s, l, n);
    Net(s.queues[(l, n) := r.queues],
        Put(s.wires - {(l + 1, 2 * n), (l + 1, 2 * n + 1)}, (l, n), if cfg.memory then [] else r.up),
        Put(if cfg.fw == Some(Receive) then s.links - {(l, EvenEnd(n))} else s.links, (l, EvenEnd(n)), r.side),
        if cfg.memory && r.up != [] then s.memory[(l, n) := s.Memory(l, n) + r.up] else s.memory)
  }

  lemma StepParts(cfg: Config, s: Net, g: Net, l: nat, n: nat, r: Routed)
    requires r == RunNode(cfg, s, l, n)
    requires g.queues == s.queues[(l, n) := r.queues]
    requires g.wires == Put(s.wires - {(l + 1, 2 * n), (l + 1, 2 * n + 1)}, (l, n), if cfg.memory then [] else r.up)
    requires g.links ==
      Put(if cfg.fw == Some(Receive) then s.links - {(l, EvenEnd(n))} else s.links, (l, EvenEnd(n)), r.side)
    requires g.memory == if cfg.memory && r.up != [] then s.memory[(l, n) := s.Memory(l, n) + r.up] else s.memory
    ensures g == StepOne(cfg, s, l, n)
  {
  }

  /** No connection the adder sends on still holds something unread. */
  predicate Clear(cfg: Config, s: Net, l: nat, n: nat) {
    var r := RunNode(cfg, s, l, n);
    && (s.Wire(l, n) != [] ==> cfg.memory || r.up == [])
    && (cfg.fw != Some(Receive) && s.Link(l, EvenEnd(n)) != [] ==> r.side == [])
  }

  /** The adder uses its link only when it is set to send on it. */
  predicate SideOk(cfg: Config, s: Net, l: nat, n: nat) {
    RunNode(cfg, s, l, n).side != [] ==> cfg.fw == Some(Send)
  }

  ghost predicate SidesOk(levels: nat, cfgs: Configs, s: Net) {
    forall l: nat, n: nat :: InTree(levels, l, n) ==> SideOk(cfgs(l, n), s, l, n)
  }

  /** Links are switched on in pairs, and never at the first or last adder of a level. */
  ghost predicate WellLinked(levels: nat, cfgs: Configs) {
    forall l: nat, n: nat :: l < levels && n < Pow2(l) ==> LinkedAt(cfgs, l, n)
  }

  ghost predicate LinkedAt(cfgs: Configs, l: nat, n: nat) {
    && (n == 0 || n == Pow2(l) - 1 ==> cfgs(l, n).fw == None)
    && (n % 2 == 1 ==> Linked(cfgs(l, n).fw, cfgs(l, n + 1).fw))
  }

  predicate InTree(levels: nat, l: nat, n: nat) {
    l < levels && n < Pow2(l)
  }

  // ----- the network when the adders in `done` have run

  ghost predicate NodeSoFar(cfg: Config, s: Net, g: Net, done: set<Id>, l: nat, n: nat) {
    var r := RunNode(cfg, s, l, n);
    if (l, n) in done then
      && g.Q(l, n) == r.queues
      && g.Wire(l, n) == (if cfg.memory then [] else r.up)
      && g.Memory(l, n) == s.Memory(l, n) + (if cfg.memory then r.up else [])
    else
      && g.Q(l, n) == s.Q(l, n)
      && g.Memory(l, n) == s.Memory(l, n)
      && g.Wire(l, n) == (if l > 0 && (l - 1, n / 2) in done then [] else s.Wire(l, n))
  }

  /** A link is emptied by its receiver, then written by its sender. */
  ghost predicate LinkSoFar(cfg: Config, s: Net, g: Net, done: set<Id>, l: nat, n: nat) {
    match cfg.fw
    case None => g.Link(l, EvenEnd(n)) == s.Link(l, EvenEnd(n))
    case Some(Receive) => true
    case Some(Send) =>
      g.Link(l, EvenEnd(n)) ==
        (if (l, n) in done then RunNode(cfg, s, l, n).side
         else if Partner(n) >= 0 && (l, Partner(n)) in done then []
         else s.Link(l, EvenEnd(n)))
  }

  ghost predicate SoFar(levels: nat, cfgs: Configs, s: Net, g: Net, done: set<Id>) {
    && (forall l: nat, n: nat :: InTree(levels, l, n) ==> NodeSoFar(cfgs(l, n), s, g, done, l, n))
    && (forall l: nat, n: nat :: InTree(levels, l, n) ==> LinkSoFar(cfgs(l, n), s, g, done, l, n))
    && (forall m: nat :: m < Pow2(levels) ==>
          g.Wire(levels, m) == if levels > 0 && (levels - 1, m / 2) in done then [] else s.Wire(levels, m))
  }

  /** Adder (l, n) may run next: after its parent and its receiver, before its children and its sender. */
  ghost predicate MayRun(levels: nat, cfgs: Configs, done: set<Id>, l: nat, n: nat) {
    && InTree(levels, l, n) && (l, n) !in done
    && (l > 0 ==> (l - 1, n / 2) in done)
    && (l + 1, 2 * n) !in done && (l + 1, 2 * n + 1) !in done
    && (cfgs(l, n).fw == Some(Send) ==> Partner(n) >= 0 && (l, Partner(n)) in done)
    && (cfgs(l, n).fw == Some(Receive) ==> Partner(n) >= 0 && (l, Partner(n)) !in done)
  }

  lemma PartnerLinked(levels: nat, cfgs: Configs, l: nat, n: nat)
    requires WellLinked(levels, cfgs) && InTree(levels, l, n) && cfgs(l, n).fw.Some?
    ensures Partner(n) >= 0 && InTree(levels, l, Partner(n)) && EvenEnd(Partner(n)) == EvenEnd(n)
    ensures cfgs(l, Partner(n)).fw == Some(if cfgs(l, n).fw == Some(Send) then Receive else Send)
    ensures Partner(Partner(n)) == n
  {
    assert LinkedAt(cfgs, l, n);
    if n % 2 == 0 && n > 0 {
      assert LinkedAt(cfgs, l, n - 1);
    }
  }

  /** What an adder finds at its inputs does not depend on who ran before it. */
  lemma SameRun(levels: nat, cfgs: Configs, s: Net, g: Net, done: set<Id>, l: nat, n: nat)
    requires WellLinked(levels, cfgs) && SoFar(levels, cfgs, s, g, done) && MayRun(levels, cfgs, done, l, n)
    ensures RunNode(cfgs(l, n), g, l, n) == RunNode(cfgs(l, n), s, l, n)
    ensures l == 0 || g.Wire(l, n) == []
    ensures cfgs(l, n).fw == Some(Send) ==> g.Link(l, EvenEnd(n)) == []
  {
    hide Route, RunNode;
    var cfg := cfgs(l, n);
    assert NodeSoFar(cfg, s, g, done, l, n);
    assert g.Wire(l + 1, 2 * n) == s.Wire(l + 1, 2 * n) && g.Wire(l + 1, 2 * n + 1) == s.Wire(l + 1, 2 * n + 1) by {
      ChildWire(levels, cfgs, s, g, done, l, n, 2 * n);
      ChildWire(levels, cfgs, s, g, done, l, n, 2 * n + 1);
    }
    assert LinkSoFar(cfg, s, g, done, l, n);
    if cfg.fw == Some(Receive) {
      PartnerLinked(levels, cfgs, l, n);
      assert LinkSoFar(cfgs(l, Partner(n)), s, g, done, l, Partner(n));
    }
    assert Inputs(cfg, g, l, n) == Inputs(cfg, s, l, n);
    RunFromInputs(cfg, s, g, l, n);
  }

  lemma RunFromInputs(cfg: Config, s: Net, g: Net, l: nat, n: nat)
    requires Inputs(cfg, g, l, n) == Inputs(cfg, s, l, n)
    ensures RunNode(cfg, g, l, n) == RunNode(cfg, s, l, n)
  {
  }

  lemma ChildWire(levels: nat, cfgs: Configs, s: Net, g: Net, done: set<Id>, l: nat, n: nat, c: nat)
    requires SoFar(levels, cfgs, s, g, done) && InTree(levels, l, n) && c / 2 == n
    requires (l, n) !in done && (l + 1, c) !in done
    ensures g.Wire(l + 1, c) == s.Wire(l + 1, c)
  {
    hide RunNode;
    if l + 1 < levels {
      assert NodeSoFar(cfgs(l + 1, c), s, g, done, l + 1, c);
    }
  }

  lemma StepOneView(cfg: Config, g: Net, l: nat, n: nat, k: nat, m: nat)
    ensures var g', r := StepOne(cfg, g, l, n), RunNode(cfg, g, l, n);
      && g'.Q(k, m) == (if (k, m) == (l, n) then r.queues else g.Q(k, m))
      && g'.Wire(k, m) ==
           (if (k, m) == (l, n) && !cfg.memory && r.up != [] then r.up
            else if k == l + 1 && m / 2 == n then [] else g.Wire(k, m))
      && g'.Memory(k, m) == (if (k, m) == (l, n) && cfg.memory then g.Memory(l, n) + r.up else g.Memory(k, m))
      && g'.Link(k, m) ==
           (if (k, m) == (l, EvenEnd(n)) && r.side != [] then r.side
            else if (k, m) == (l, EvenEnd(n)) && cfg.fw == Some(Receive) then []
            else g.Link(k, m))
  {
    hide RunNode;
  }

  lemma NodeAfter(levels: nat, cfgs: Configs, s: Net, g: Net, done: set<Id>, l: nat, n: nat, k: nat, m: nat)
    requires WellLinked(levels, cfgs) && SoFar(levels, cfgs, s, g, done) && MayRun(levels, cfgs, done, l, n)
    requires InTree(levels, k, m) && s.Wire(0, 0) == []
    ensures NodeSoFar(cfgs(k, m), s, StepOne(cfgs(l, n), g, l, n), done + {(l, n)}, k, m)
  {
    hide RunNode, StepOne;
    StepOneView(cfgs(l, n), g, l, n, k, m);
    SameRun(levels, cfgs, s, g, done, l, n);
    assert NodeSoFar(cfgs(k, m), s, g, done, k, m);
    if l == 0 {
      assert NodeSoFar(cfgs(l, n), s, g, done, l, n);
    }
  }

  /** A link that is not the adder's own stays as it was. */
  lemma LinkUntouched(levels: nat, cfgs: Configs, s: Net, g: Net, done: set<Id>, l: nat, n: nat, k: nat, m: nat)
    requires WellLinked(levels, cfgs) && InTree(levels, k, m) && LinkSoFar(cfgs(k, m), s, g, done, k, m)
    requires SideOk(cfgs(l, n), g, l, n)
    requires (k, EvenEnd(m)) != (l, EvenEnd(n))
    ensures LinkSoFar(cfgs(k, m), s, StepOne(cfgs(l, n), g, l, n), done + {(l, n)}, k, m)
  {
    hide StepOne, RunNode;
    StepOneView(cfgs(l, n), g, l, n, k, EvenEnd(m));
    if cfgs(k, m).fw.Some? {
      PartnerLinked(levels, cfgs, k, m);
    }
  }

  /** The adder's own link: emptied by its receiver, written by its sender. */
  lemma LinkTouched(levels: nat, cfgs: Configs, s: Net, g: Net, done: set<Id>, l: nat, n: nat, m: nat)
    requires WellLinked(levels, cfgs) && MayRun(levels, cfgs, done, l, n) && InTree(levels, l, m)
    requires LinkSoFar(cfgs(l, m), s, g, done, l, m) && EvenEnd(m) == EvenEnd(n)
    requires RunNode(cfgs(l, n), g, l, n) == RunNode(cfgs(l, n), s, l, n)
    requires SideOk(cfgs(l, n), g, l, n)
    requires cfgs(l, n).fw == Some(Send) ==> g.Link(l, EvenEnd(n)) == []
    ensures LinkSoFar(cfgs(l, m), s, StepOne(cfgs(l, n), g, l, n), done + {(l, n)}, l, m)
  {
    hide StepOne, RunNode;
    StepOneView(cfgs(l, n), g, l, n, l, EvenEnd(m));
    SameLink(levels, cfgs, l, n, m);
    if cfgs(l, m).fw.Some? {
      PartnerLinked(levels, cfgs, l, m);
    }
  }

  lemma LinkAfter(levels: nat, cfgs: Configs, s: Net, g: Net, done: set<Id>, l: nat, n: nat, k: nat, m: nat)
    requires WellLinked(levels, cfgs) && SoFar(levels, cfgs, s, g, done) && MayRun(levels, cfgs, done, l, n)
    requires InTree(levels, k, m) && SideOk(cfgs(l, n), s, l, n)
    ensures LinkSoFar(cfgs(k, m), s, StepOne(cfgs(l, n), g, l, n), done + {(l, n)}, k, m)
  {
    hide StepOne, RunNode, NodeSoFar, LinkSoFar;
    SameRun(levels, cfgs, s, g, done, l, n);
    if k == l && EvenEnd(m) == EvenEnd(n) {
      LinkTouched(levels, cfgs, s, g, done, l, n, m);
    } else {
      LinkUntouched(levels, cfgs, s, g, done, l, n, k, m);
    }
  }

  lemma CycleSides(levels: nat, cfgs: Configs, s: Net)
    requires CycleOk(levels, cfgs, s)
    ensures SidesOk(levels, cfgs, s)
  {
    hide Inputs;
    forall l: nat, n: nat | InTree(levels, l, n)
      ensures SideOk(cfgs(l, n), s, l, n)
    {
      assert NodeOk(cfgs(l, n), s, l, n);
    }
  }

  lemma SameLink(levels: nat, cfgs: Configs, l: nat, n: nat, m: nat)
    requires WellLinked(levels, cfgs) && InTree(levels, l, n) && InTree(levels, l, m) && EvenEnd(n) == EvenEnd(m)
    ensures m != n ==> Linked(cfgs(l, n).fw, cfgs(l, m).fw)
  {
    assert LinkedAt(cfgs, l, n) && LinkedAt(cfgs, l, m);
  }

  /** Running an adder whose turn it is overwrites nothing unread and brings the cycle forward. */
  lemma TurnTaken(levels: nat, cfgs: Configs, s: Net, g: Net, done: set<Id>, l: nat, n: nat)
    requires WellLinked(levels, cfgs) && SidesOk(levels, cfgs, s) && s.Wire(0, 0) == []
    requires SoFar(levels, cfgs, s, g, done) && MayRun(levels, cfgs, done, l, n)
    ensures RunNode(cfgs(l, n), g, l, n) == RunNode(cfgs(l, n), s, l, n) && Clear(cfgs(l, n), g, l, n)
    ensures SoFar(levels, cfgs, s, StepOne(cfgs(l, n), g, l, n), done + {(l, n)})
  {
    hide RunNode, StepOne, NodeSoFar, LinkSoFar, SideOk;
    var g', done' := StepOne(cfgs(l, n), g, l, n), done + {(l, n)};
    SameRun(levels, cfgs, s, g, done, l, n);
    TurnClear(levels, cfgs, s, g, done, l, n);
    forall k: nat, m: nat | InTree(levels, k, m)
      ensures NodeSoFar(cfgs(k, m), s, g', done', k, m)
      ensures LinkSoFar(cfgs(k, m), s, g', done', k, m)
    {
      NodeAfter(levels, cfgs, s, g, done, l, n, k, m);
      LinkAfter(levels, cfgs, s, g, done, l, n, k, m);
    }
    forall m: nat | m < Pow2(levels)
      ensures g'.Wire(levels, m) == if levels > 0 && (levels - 1, m / 2) in done' then [] else s.Wire(levels, m)
    {
      StepOneView(cfgs(l, n), g, l, n, levels, m);
    }
  }

  /** Nothing unread is where the adder is about to send. */
  lemma TurnClear(levels: nat, cfgs: Configs, s: Net, g: Net, done: set<Id>, l: nat, n: nat)
    requires WellLinked(levels, cfgs) && SideOk(cfgs(l, n), s, l, n) && s.Wire(0, 0) == []
    requires SoFar(levels, cfgs, s, g, done) && MayRun(levels, cfgs, done, l, n)
    ensures Clear(cfgs(l, n), g, l, n)
  {
    hide RunNode;
    SameRun(levels, cfgs, s, g, done, l, n);
    if l == 0 {
      assert NodeSoFar(cfgs(l, n), s, g, done, l, n);
    }
  }

  /** The checks of an adder hold in its turn when they hold at the start of the cycle. */
  lemma TurnOk(levels: nat, cfgs: Configs, s: Net, g: Net, done: set<Id>, l: nat, n: nat)
    requires WellLinked(levels, cfgs) && NodeOk(cfgs(l, n), s, l, n)
    requires SoFar(levels, cfgs, s, g, done) && MayRun(levels, cfgs, done, l, n)
    ensures NodeOk(cfgs(l, n), g, l, n)
  {
    hide RunNode, NodeSoFar;
    SameRun(levels, cfgs, s, g, done, l, n);
    if cfgs(l, n).fw == Some(Receive) {
      PartnerLinked(levels, cfgs, l, n);
      assert LinkSoFar(cfgs(l, Partner(n)), s, g, done, l, Partner(n));
    }
  }

  /** When every adder has run, a synchronous cycle has been made. */
  lemma AllRun(levels: nat, cfgs: Configs, s: Net, g: Net, done: set<Id>)
    requires WellLinked(levels, cfgs) && levels > 0 && SoFar(levels, cfgs, s, g, done)
    requires forall l: nat, n: nat :: InTree(levels, l, n) ==> (l, n) in done
    ensures Next(levels, cfgs, s, g)
  {
    hide RunNode;
    forall l: nat, n: nat | l < levels && n < Pow2(l)
      ensures NodeNext(cfgs(l, n), s, g, l, n)
    {
      assert InTree(levels, l, n);
      assert NodeSoFar(cfgs(l, n), s, g, done, l, n) && LinkSoFar(cfgs(l, n), s, g, done, l, n);
    }
    forall m: nat | m < Pow2(levels)
      ensures g.Wire(levels, m) == []
    {
      assert InTree(levels, levels - 1, m / 2);
    }
  }

  // ----- the order of the simulator

  /** The adders before (i, j), level by level, have run, and no others. */
  ghost predicate DoneUpTo(levels: nat, done: set<Id>, i: nat, j: nat) {
    forall l: nat, n: nat :: (l, n) in done <==> InTree(levels, l, n) && (l < i || (l == i && n < j))
  }

  lemma NextMayRun(levels: nat, cfgs: Configs, done: set<Id>, i: nat, j: nat)
    requires DoneUpTo(levels, done, i, j) && InTree(levels, i, j) && cfgs(i, j).fw == None
    ensures MayRun(levels, cfgs, done, i, j) && DoneUpTo(levels, done + {(i, j)}, i, j + 1)
  {
    ParentInTree(levels, i, j);
  }

  lemma ParentInTree(levels: nat, l: nat, n: nat)
    requires InTree(levels, l, n)
    ensures l > 0 ==> InTree(levels, l - 1, n / 2)
  {
  }

  lemma PairMayRun(levels: nat, cfgs: Configs, done: set<Id>, i: nat, j: nat, first: nat, second: nat)
    requires DoneUpTo(levels, done, i, j) && j % 2 == 1 && InTree(levels, i, j) && InTree(levels, i, j + 1)
    requires (first, second) == (j, j + 1) || (first, second) == (j + 1, j)
    requires cfgs(i, first).fw == Some(Receive) && cfgs(i, second).fw == Some(Send)
    ensures MayRun(levels, cfgs, done, i, first)
    ensures MayRun(levels, cfgs, done + {(i, first)}, i, second)
    ensures DoneUpTo(levels, done + {(i, first)} + {(i, second)}, i, j + 2)
  {
    ParentInTree(levels, i, j);
    ParentInTree(levels, i, j + 1);
    assert Partner(first) == second && Partner(second) == first;
  }

  lemma LevelFinished(levels: nat, done: set<Id>, i: nat)
    requires DoneUpTo(levels, done, i, Pow2(i))
    ensures DoneUpTo(levels, done, i + 1, 0)
  {
  }

  lemma Start(levels: nat, cfgs: Configs, s: Net)
    ensures SoFar(levels, cfgs, s, s, {}) && DoneUpTo(levels, {}, 0, 0)
  {
    hide RunNode;
  }

  /** What the links of a level say at adder j. */
  lemma LinkHead(levels: nat, cfgs: Configs, i: nat, j: nat)
    requires WellLinked(levels, cfgs) && InTree(levels, i, j)
    ensures j == 0 ==> cfgs(i, j).fw == None
    ensures j % 2 == 1 && cfgs(i, j).fw.Some? ==>
      && j + 1 < Pow2(i)
      && cfgs(i, j + 1).fw == Some(if cfgs(i, j).fw == Some(Send) then Receive else Send)
    ensures j % 2 == 1 && cfgs(i, j).fw.None? && j + 1 < Pow2(i) ==> cfgs(i, j + 1).fw == None
  {
    assert LinkedAt(cfgs, i, j);
  }
}
