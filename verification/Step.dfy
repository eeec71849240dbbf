/** Every cycle of the network keeps the invariant, whatever arrives at the multipliers. */
module Steps {
  import opened Prelude
  import opened Layout
  import opened Tiles
  import opened Exclusivity
  import opened Signals
  import opened Switches
  import opened Streams
  import opened Flow
  import opened Configured
  import opened Networks
  import opened Ordering
  import opened Invariants

  /** An adder that sends a VN on to its parent is not diverted to memory by any VN. */
  lemma NotDiverted(t: Tile, i: nat, l: nat, n: nat)
    requires t.Valid() && t.Reducible() && l < t.levels && Keeps(t, i, l, n) && !t.Kept(i, l).Single()
    ensures !ToMemory(t, l, n)
  {
    hide Keep, RoleAt;
    forall j | 0 <= j < |t.sizes| && t.Kept(j, l) == Span(n, n)
      ensures false
    {
      KeptExclusive(t, i, j, l, n);
    }
  }

  /** A sender's link is set to send, a receiver's to receive. */
  lemma LinkDirections(t: Tile, i: nat, l: nat, n: nat)
    requires t.Valid() && t.Reducible() && l < t.levels && Uses(t, i, l, n)
    ensures t.RoleOf(i, l, n) == Sender ==> ConfigOf(t, l, n).fw == Some(Send)
    ensures t.RoleOf(i, l, n) == Receiver ==> ConfigOf(t, l, n).fw == Some(Receive)
  {
    hide Keep, RoleAt, ConfigOf;
    Owners(t, i, l, n);
    if OnlyOwner(t, i, l, n) {
      SoloConfig(t, i, l, n);
    } else {
      SharedConfig(t, if SharedBy(t, i, n) then i else i - 1, n);
    }
  }

  /** An adder set to add three ways serves one VN alone: both its children carry that VN, and so does
      the neighbour at the other end of its link, which is set to send. */
  ghost predicate AddsThree(t: Tile, i: nat, l: nat, n: nat)
    requires t.Valid() && l < t.levels
  {
    && Uses(t, i, l, n) && OnlyOwner(t, i, l, n)
    && Feeds(t, i, l, 2 * n) && Feeds(t, i, l, 2 * n + 1)
    && ConfigOf(t, l, n).left && ConfigOf(t, l, n).right && ConfigOf(t, l, n).fw == Some(Receive)
    && Partner(n) >= 0
    && Uses(t, i, l, Partner(n)) && t.RoleOf(i, l, Partner(n)) == Sender && ConfigOf(t, l, Partner(n)).fw == Some(Send)
  }

  lemma ThreeOperandSound(t: Tile, l: nat, n: nat)
    requires t.Valid() && t.Reducible() && l < t.levels && ConfigOf(t, l, n).mode == Add31
    ensures exists i: nat :: AddsThree(t, i, l, n)
  {
    hide Keep, RoleAt, ConfigOf;
    if i: nat :| Uses(t, i, l, n) {
      Owners(t, i, l, n);
      if OnlyOwner(t, i, l, n) {
        SoloConfig(t, i, l, n);
        LinkPairs(t.Kept(i, l + 1), n);
        LinkPairs(t.Kept(i, l + 1), Partner(n));
        LinkDirections(t, i, l, Partner(n));
        assert AddsThree(t, i, l, n);
      } else {
        SharedConfig(t, if SharedBy(t, i, n) then i else i - 1, n);
      }
    } else {
      QuietConfig(t, l, n);
    }
  }

  /** An adder no VN uses has its link off and adds or passes on nothing. */
  lemma QuietConfig(t: Tile, l: nat, n: nat)
    requires t.Valid() && l < t.levels && forall j: nat :: !Uses(t, j, l, n)
    ensures ConfigOf(t, l, n).fw == None && ConfigOf(t, l, n).mode in {Add21, Fw22}
  {
    hide Keep, RoleAt, ToMemory, ChildEnabled;
    forall j | 0 <= j < |t.sizes| && t.Active(j, l)
      ensures !t.Cover(j, l).Has(n)
    {
      assert !Uses(t, j, l, n);
    }
    QuietSignal(t, |t.sizes|, l, n);
  }

  /** What the step lemmas assume of a cycle from s to s'. */
  ghost predicate Stepping(t: Tile, x: Psums, s: Net, s': Net, prev: Count, cur: Count)
    requires t.Valid()
  {
    && Next(t.levels, Compiled(t), s, s')
    && Holds(t, x, s, prev, cur)
    && (forall l: nat, n: nat :: l < t.levels && n < Pow2(l) ==> NodeServed(t, x, s, cur, l, n))
  }

  lemma NodeStep(t: Tile, x: Psums, s: Net, s': Net, prev: Count, cur: Count, l: nat, n: nat)
    requires t.Valid() && Stepping(t, x, s, s', prev, cur) && l < t.levels && n < Pow2(l)
    ensures NodeNext(ConfigOf(t, l, n), s, s', l, n)
    ensures NodeServed(t, x, s, cur, l, n)
    ensures MemoryOk(t, x, s, cur, l, n)
  {
    hide Keep, RoleAt, NodeServed, NodeNext, ConfigOf, MemoryOk, LinkOk, SideInv;
    assert Compiled(t)(l, n) == ConfigOf(t, l, n);
    assert NodeInv(t, x, s, prev, cur, l, n);
  }

  /** What child c has left pending for its parent after a cycle. */
  lemma WireStep(t: Tile, x: Psums, s: Net, s': Net, prev: Count, cur: Count, i: nat, l: nat, c: nat)
    requires t.Valid() && t.Reducible() && Stepping(t, x, s, s', prev, cur)
    requires l < t.levels && c < Pow2(l + 1) && Feeds(t, i, l, c)
    ensures cur(i, l + 1, c) <= Advance(t, cur, i, l + 1, c)
    ensures s'.Wire(l + 1, c) == Packets(t, x, i, l + 1, c, cur(i, l + 1, c), Advance(t, cur, i, l + 1, c))
  {
    hide Keep, RoleAt, Holds, NodeInv, ConfigOf, RunNode;
    if l + 1 < t.levels {
      NodeStep(t, x, s, s', prev, cur, l + 1, c);
      ActiveFull(t, i, l, c / 2);
      NotDiverted(t, i, l + 1, c);
      KeptRole(t.Kept(i, l + 2), c);
      assert Served(t, x, RunNode(ConfigOf(t, l + 1, c), s, l + 1, c), cur, i, l + 1, c);
      assert !ConfigOf(t, l + 1, c).memory by { MemoryFlag(t, l + 1, c); }
    }
  }

  lemma MemoryFlag(t: Tile, l: nat, n: nat)
    requires t.Valid() && l < t.levels
    ensures ConfigOf(t, l, n).memory <==> ToMemory(t, l, n)
  {
  }

  lemma UnfedWireStep(t: Tile, x: Psums, s: Net, s': Net, prev: Count, cur: Count, l: nat, c: nat)
    requires t.Valid() && t.Reducible() && Stepping(t, x, s, s', prev, cur)
    requires l < t.levels && c < Pow2(l + 1) && Unfed(t, l, c)
    ensures s'.Wire(l + 1, c) == []
  {
    hide Keep, RoleAt, Holds, NodeInv, ConfigOf, RunNode, Served;
    if l + 1 < t.levels {
      NodeStep(t, x, s, s', prev, cur, l + 1, c);
      MemoryFlag(t, l + 1, c);
      var r := RunNode(ConfigOf(t, l + 1, c), s, l + 1, c);
      if r.up != [] {
        var i := r.up[0].vn;
        assert r.up[0] in r.up && Keeps(t, i, l + 1, c);
        assert !Feeds(t, i, l, c);
        assert t.Kept(i, l + 1) == Span(c, c);
        assert ToMemory(t, l + 1, c);
      }
    }
  }

  /** What a fed child holds for its parent after a cycle. */
  lemma FedStep(t: Tile, x: Psums, s: Net, s': Net, prev: Count, cur: Count, i: nat, l: nat, c: nat)
    requires t.Valid() && t.Reducible() && Stepping(t, x, s, s', prev, cur)
    requires l < t.levels && c / 2 < Pow2(l) && Feeds(t, i, l, c)
    ensures FeedOk(t, x, s', cur, Fire(t, cur), i, l, c)
  {
    hide Keep, RoleAt, Holds, NodeInv, ConfigOf, RunNode, Next, Stepping, Advance, MemoryOk, Packets;
    var n := c / 2;
    NodeStep(t, x, s, s', prev, cur, l, n);
    assert Uses(t, i, l, n);
    assert Served(t, x, RunNode(ConfigOf(t, l, n), s, l, n), cur, i, l, n);
    WireStep(t, x, s, s', prev, cur, i, l, c);
  }

  lemma UnfedStep(t: Tile, x: Psums, s: Net, s': Net, prev: Count, cur: Count, l: nat, c: nat)
    requires t.Valid() && t.Reducible() && Stepping(t, x, s, s', prev, cur)
    requires l < t.levels && c / 2 < Pow2(l) && Unfed(t, l, c)
    ensures s'.InQ(l, c) == [] && s'.Wire(l + 1, c) == []
  {
    hide Keep, RoleAt, Holds, NodeInv, ConfigOf, RunNode, Next, Stepping, MemoryOk, Served, Feeds;
    NodeStep(t, x, s, s', prev, cur, l, c / 2);
    UnfedWireStep(t, x, s, s', prev, cur, l, c);
  }

  lemma SideStep(t: Tile, x: Psums, s: Net, s': Net, prev: Count, cur: Count, l: nat, n: nat, c: nat)
    requires t.Valid() && t.Reducible() && Stepping(t, x, s, s', prev, cur)
    requires l < t.levels && n < Pow2(l) && c / 2 == n
    ensures SideInv(t, x, s', cur, Fire(t, cur), l, c)
  {
    hide Keep, RoleAt, Stepping, FeedOk, Unfed, Fire;
    forall i: nat | Feeds(t, i, l, c)
      ensures FeedOk(t, x, s', cur, Fire(t, cur), i, l, c)
    {
      FedStep(t, x, s, s', prev, cur, i, l, c);
    }
    if Unfed(t, l, c) {
      UnfedStep(t, x, s, s', prev, cur, l, c);
    }
  }

  lemma LinkStep(t: Tile, x: Psums, s: Net, s': Net, prev: Count, cur: Count, i: nat, l: nat, n: nat)
    requires t.Valid() && t.Reducible() && Stepping(t, x, s, s', prev, cur)
    requires l < t.levels && n < Pow2(l) && Uses(t, i, l, n) && t.RoleOf(i, l, n) == Receiver
    ensures Partner(n) >= 0 && LinkOk(t, x, s', cur, Fire(t, cur), i, l, n)
  {
    hide Keep, RoleAt, Holds, NodeInv, ConfigOf, RunNode, Next, Stepping, Advance, MemoryOk, Packets;
    LinkPairs(t.Kept(i, l + 1), n);
    var p: nat := Partner(n);
    LinkPairs(t.Kept(i, l + 1), p);
    KeptBounds(t, i, l);
    NodeStep(t, x, s, s', prev, cur, l, n);
    NodeStep(t, x, s, s', prev, cur, l, p);
    LinkDirections(t, i, l, p);
    assert Served(t, x, RunNode(ConfigOf(t, l, n), s, l, n), cur, i, l, n);
    assert Served(t, x, RunNode(ConfigOf(t, l, p), s, l, p), cur, i, l, p);
  }

  lemma MemoryStep(t: Tile, x: Psums, s: Net, s': Net, prev: Count, cur: Count, l: nat, n: nat)
    requires t.Valid() && t.Reducible() && Stepping(t, x, s, s', prev, cur) && l < t.levels && n < Pow2(l)
    ensures MemoryOk(t, x, s', Fire(t, cur), l, n)
  {
    hide Keep, RoleAt, Holds, NodeInv, ConfigOf, RunNode, Next, Stepping, Advance;
    NodeStep(t, x, s, s', prev, cur, l, n);
    MemoryFlag(t, l, n);
    var r := RunNode(ConfigOf(t, l, n), s, l, n);
    var out := if ConfigOf(t, l, n).memory then r.up else [];
    forall p | p in s'.Memory(l, n)
      ensures p.vn < |t.sizes| && t.Completes(p.vn, l, n)
    {
      if p !in s.Memory(l, n) {
        assert p in r.up && Keeps(t, p.vn, l, n);
        if !t.Kept(p.vn, l).Single() {
          NotDiverted(t, p.vn, l, n);
        }
      }
    }
    forall i: nat | i < |t.sizes| && t.Completes(i, l, n)
      ensures Filter(s'.Memory(l, n), i) == Packets(t, x, i, l, n, 0, Fire(t, cur)(i, l, n))
    {
      KeptRole(t.Kept(i, l + 1), n);
      assert Served(t, x, r, cur, i, l, n);
      FilterAppend(s.Memory(l, n), out, i);
      PacksJoin(i, Stream(t, x, i, l, n), 0, cur(i, l, n), Advance(t, cur, i, l, n));
    }
  }

  /** One cycle: no check of any adder fails, and the invariant holds again. */
  lemma StepHolds(t: Tile, x: Psums, s: Net, s': Net, prev: Count, cur: Count)
    requires t.Valid() && t.Reducible() && Holds(t, x, s, prev, cur)
    requires Next(t.levels, Compiled(t), s, s')
    ensures Holds(t, x, s', cur, Fire(t, cur))
  {
    hide Keep, RoleAt, NodeServed, Next, ConfigOf, MemoryOk, LinkOk, SideInv, NodeNext;
    forall l: nat, n: nat | l < t.levels && n < Pow2(l)
      ensures NodeServed(t, x, s, cur, l, n)
    {
      AdderServed(t, x, s, prev, cur, l, n);
    }
    forall l: nat, n: nat | l < t.levels && n < Pow2(l)
      ensures NodeInv(t, x, s', cur, Fire(t, cur), l, n)
    {
      SideStep(t, x, s, s', prev, cur, l, n, 2 * n);
      SideStep(t, x, s, s', prev, cur, l, n, 2 * n + 1);
      forall i: nat | Uses(t, i, l, n) && t.RoleOf(i, l, n) == Receiver
        ensures Partner(n) >= 0 && LinkOk(t, x, s', cur, Fire(t, cur), i, l, n)
      {
        LinkStep(t, x, s, s', prev, cur, i, l, n);
      }
      FwStep(t, x, s, s', prev, cur, l, n);
      MemoryStep(t, x, s, s', prev, cur, l, n);
    }
  }

  lemma FwStep(t: Tile, x: Psums, s: Net, s': Net, prev: Count, cur: Count, l: nat, n: nat)
    requires t.Valid() && t.Reducible() && Stepping(t, x, s, s', prev, cur) && l < t.levels && n < Pow2(l)
    ensures ConfigOf(t, l, n).fw != Some(Receive) ==> s'.Q(l, n).fw == []
  {
    hide Keep, RoleAt, Holds, NodeInv, ConfigOf, RunNode, Next, Stepping, Advance, Served;
    NodeStep(t, x, s, s', prev, cur, l, n);
  }

  lemma StepOk(t: Tile, x: Psums, s: Net, prev: Count, cur: Count)
    requires t.Valid() && t.Reducible() && Holds(t, x, s, prev, cur)
    ensures CycleOk(t.levels, Compiled(t), s)
  {
    hide Keep, RoleAt, ConfigOf, NodeInv, NodeOk, Served;
    forall l: nat, n: nat | l < t.levels && n < Pow2(l)
      ensures NodeOk(Compiled(t)(l, n), s, l, n)
    {
      AdderServed(t, x, s, prev, cur, l, n);
    }
  }

  /** Everything that reaches the root is complete: nothing leaves through the root's output. */
  lemma RootToMemory(t: Tile, x: Psums, s: Net, s': Net, prev: Count, cur: Count)
    requires t.Valid() && t.Reducible() && Holds(t, x, s, prev, cur)
    requires Next(t.levels, Compiled(t), s, s')
    ensures s'.Wire(0, 0) == []
  {
    hide Keep, RoleAt, NodeInv, ConfigOf, RunNode, Served;
    assert NodeInv(t, x, s, prev, cur, 0, 0);
    AdderServed(t, x, s, prev, cur, 0, 0);
    assert NodeNext(Compiled(t)(0, 0), s, s', 0, 0);
    MemoryFlag(t, 0, 0);
    var r := RunNode(ConfigOf(t, 0, 0), s, 0, 0);
    if r.up != [] {
      var i := r.up[0].vn;
      assert r.up[0] in r.up && Keeps(t, i, 0, 0);
      KeptBounds(t, i, 0);
      assert t.Kept(i, 0) == Span(0, 0);
    }
  }

  /** The links of a compiled tile come in pairs, away from the edges. */
  lemma CompiledLinks(t: Tile, l: nat, n: nat)
    requires t.Valid() && l < t.levels && n < Pow2(l)
    ensures n == 0 || n == Pow2(l) - 1 ==> ConfigOf(t, l, n).fw == None
    ensures n % 2 == 1 ==> Linked(ConfigOf(t, l, n).fw, ConfigOf(t, l, n + 1).fw)
  {
    hide Keep, RoleAt, ChildEnabled, ToMemory;
    if n == 0 || n == Pow2(l) - 1 {
      EdgesUnlinked(t, |t.sizes|, l, n);
    }
    if n % 2 == 1 {
      LinksPaired(t, |t.sizes|, l, n);
    }
  }

  lemma CompiledWellLinked(t: Tile)
    requires t.Valid()
    ensures WellLinked(t.levels, Compiled(t))
  {
    hide ConfigOf;
    forall l: nat, n: nat | l < t.levels && n < Pow2(l)
      ensures LinkedAt(Compiled(t), l, n)
    {
      CompiledLinks(t, l, n);
    }
  }
}
