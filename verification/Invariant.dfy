/**
 The invariant of every run: the whole network state is determined by how many packages
 each adder has emitted, and every package carries the value it should.
 */
module Invariants {
  import opened Prelude
  import opened Layout
  import opened Tiles
  import opened Exclusivity
  import opened Signals
  import opened Switches
  import opened Streams
  import opened Flow
  import opened Configured
  import opened Networks

  /** c(i, l, n): how many packages of VN i adder (l, n), or multiplier n, has emitted. */
  type Count = (nat, nat, nat) -> nat

  ghost function Compiled(t: Tile): Configs
    requires t.Valid()
  {
    (l: nat, n: nat) => if l < t.levels then ConfigOf(t, l, n) else Config(Add21, None, false, false, false)
  }

  ghost function Stream(t: Tile, x: Psums, i: nat, l: nat, n: nat): nat -> real
    requires t.Valid() && i < |t.sizes| && l <= t.levels
  {
    (k: nat) => Out(t, x, i, l, n, k)
  }

  ghost function Packets(t: Tile, x: Psums, i: nat, l: nat, n: nat, a: nat, b: nat): seq<Pkg>
    requires t.Valid() && i < |t.sizes| && l <= t.levels && a <= b
  {
    Packs(i, Stream(t, x, i, l, n), a, b)
  }

  // ----- the invariant

  /** Child c holds, for adder (l, c / 2), exactly the packages of VN i not yet consumed. */
  ghost predicate FeedOk(t: Tile, x: Psums, s: Net, prev: Count, cur: Count, i: nat, l: nat, c: nat)
    requires t.Valid() && l < t.levels && i < |t.sizes|
  {
    && cur(i, l, c / 2) <= prev(i, l + 1, c) <= cur(i, l + 1, c)
    && s.InQ(l, c) == Packets(t, x, i, l + 1, c, cur(i, l, c / 2), prev(i, l + 1, c))
    && s.Wire(l + 1, c) == Packets(t, x, i, l + 1, c, prev(i, l + 1, c), cur(i, l + 1, c))
  }

  /** The same for the forwarding link into receiver (l, n). */
  ghost predicate LinkOk(t: Tile, x: Psums, s: Net, prev: Count, cur: Count, i: nat, l: nat, n: nat)
    requires t.Valid() && l < t.levels && i < |t.sizes| && Partner(n) >= 0
  {
    var p := Partner(n);
    && cur(i, l, n) <= prev(i, l, p) <= cur(i, l, p) <= prev(i, l, p) + 1
    && s.Q(l, n).fw == Packets(t, x, i, l, p, cur(i, l, n), prev(i, l, p))
    && s.Link(l, EvenEnd(n)) == Packets(t, x, i, l, p, prev(i, l, p), cur(i, l, p))
  }

  ghost predicate MemoryOk(t: Tile, x: Psums, s: Net, cur: Count, l: nat, n: nat)
    requires t.Valid() && l < t.levels
  {
    && (forall p :: p in s.Memory(l, n) ==> p.vn < |t.sizes| && t.Completes(p.vn, l, n))
    && (forall i :: 0 <= i < |t.sizes| && t.Completes(i, l, n) ==>
          Filter(s.Memory(l, n), i) == Packets(t, x, i, l, n, 0, cur(i, l, n)))
  }

  ghost predicate SideInv(t: Tile, x: Psums, s: Net, prev: Count, cur: Count, l: nat, c: nat)
    requires t.Valid() && l < t.levels
  {
    && (forall i :: Feeds(t, i, l, c) ==> FeedOk(t, x, s, prev, cur, i, l, c))
    && (Unfed(t, l, c) ==> s.InQ(l, c) == [] && s.Wire(l + 1, c) == [])
  }

  ghost predicate NodeInv(t: Tile, x: Psums, s: Net, prev: Count, cur: Count, l: nat, n: nat)
    requires t.Valid() && l < t.levels
  {
    && SideInv(t, x, s, prev, cur, l, 2 * n)
    && SideInv(t, x, s, prev, cur, l, 2 * n + 1)
    && (forall i :: Uses(t, i, l, n) && t.RoleOf(i, l, n) == Receiver ==>
          Partner(n) >= 0 && LinkOk(t, x, s, prev, cur, i, l, n))
    && (ConfigOf(t, l, n).fw != Some(Receive) ==> s.Q(l, n).fw == [])
    && MemoryOk(t, x, s, cur, l, n)
  }

  ghost predicate Holds(t: Tile, x: Psums, s: Net, prev: Count, cur: Count)
    requires t.Valid()
  {
    forall l: nat, n: nat :: l < t.levels && n < Pow2(l) ==> NodeInv(t, x, s, prev, cur, l, n)
  }

  // ----- what a cycle does to the counts

  ghost predicate Ready(t: Tile, cur: Count, i: nat, l: nat, n: nat)
    requires t.Valid() && l < t.levels && i < |t.sizes|
  {
    && (t.Kept(i, l + 1).Has(2 * n) ==> cur(i, l, n) < cur(i, l + 1, 2 * n))
    && (t.Kept(i, l + 1).Has(2 * n + 1) ==> cur(i, l, n) < cur(i, l + 1, 2 * n + 1))
    && (t.RoleOf(i, l, n) == Receiver && Partner(n) >= 0 ==> cur(i, l, n) < cur(i, l, Partner(n)))
  }

  /** An adder emits one package when all its inputs have one; a pass-through adder empties its inputs. */
  ghost function Advance(t: Tile, cur: Count, i: nat, l: nat, n: nat): nat
    requires t.Valid()
  {
    if l < t.levels && Uses(t, i, l, n) then
      if ConfigOf(t, l, n).mode == Fw22 then cur(i, t.levels, t.Leaves(i).lo)
      else Bump(cur(i, l, n), Ready(t, cur, i, l, n))
    else cur(i, l, n)
  }

  ghost function Fire(t: Tile, cur: Count): Count
    requires t.Valid()
  {
    (i: nat, l: nat, n: nat) => Advance(t, cur, i, l, n)
  }

  // ----- one adder, one cycle

  /** Adder (l, n) has served VN i in a cycle with result r. */
  ghost predicate Served(t: Tile, x: Psums, r: Routed, cur: Count, i: nat, l: nat, n: nat)
    requires t.Valid() && l < t.levels && i < |t.sizes|
  {
    var a, b, role := cur(i, l, n), Advance(t, cur, i, l, n), t.RoleOf(i, l, n);
    && a <= b
    && (t.Kept(i, l + 1).Has(2 * n) ==>
          b <= cur(i, l + 1, 2 * n) && r.queues.left == Packets(t, x, i, l + 1, 2 * n, b, cur(i, l + 1, 2 * n)))
    && (t.Kept(i, l + 1).Has(2 * n + 1) ==>
          b <= cur(i, l + 1, 2 * n + 1)
            && r.queues.right == Packets(t, x, i, l + 1, 2 * n + 1, b, cur(i, l + 1, 2 * n + 1)))
    && (role == Receiver && Partner(n) >= 0 ==>
          b <= cur(i, l, Partner(n)) && r.queues.fw == Packets(t, x, i, l, Partner(n), b, cur(i, l, Partner(n))))
    && (role == Sender ==> b <= a + 1 && r.side == Packets(t, x, i, l, n, a, b))
    && (role != Sender ==> Filter(r.up, i) == Packets(t, x, i, l, n, a, b))
    && (role != Sender && !t.Kept(i, l).Single() ==> r.up == Packets(t, x, i, l, n, a, b))
  }

  ghost predicate NodeServed(t: Tile, x: Psums, s: Net, cur: Count, l: nat, n: nat)
    requires t.Valid() && l < t.levels
  {
    var cfg := ConfigOf(t, l, n);
    var r := RunNode(cfg, s, l, n);
    && NodeOk(cfg, s, l, n)
    && (forall i :: Uses(t, i, l, n) ==> Served(t, x, r, cur, i, l, n))
    && (Unfed(t, l, 2 * n) ==> r.queues.left == [])
    && (Unfed(t, l, 2 * n + 1) ==> r.queues.right == [])
    && (cfg.fw != Some(Receive) ==> r.queues.fw == [])
    && (forall p :: p in r.up ==> Keeps(t, p.vn, l, n))
  }

  /** The FIFO of a fed child together with what is pending is all that was not consumed. */
  lemma FedInput(t: Tile, x: Psums, s: Net, prev: Count, cur: Count, i: nat, l: nat, c: nat)
    requires t.Valid() && l < t.levels && Feeds(t, i, l, c) && SideInv(t, x, s, prev, cur, l, c)
    ensures cur(i, l, c / 2) <= cur(i, l + 1, c)
    ensures s.InQ(l, c) + s.Wire(l + 1, c) == Packets(t, x, i, l + 1, c, cur(i, l, c / 2), cur(i, l + 1, c))
  {
    hide Keep, RoleAt;
    assert FeedOk(t, x, s, prev, cur, i, l, c);
    PacksJoin(i, Stream(t, x, i, l + 1, c), cur(i, l, c / 2), prev(i, l + 1, c), cur(i, l + 1, c));
  }

  lemma UnfedInput(t: Tile, x: Psums, s: Net, prev: Count, cur: Count, l: nat, c: nat)
    requires t.Valid() && l < t.levels && Unfed(t, l, c) && SideInv(t, x, s, prev, cur, l, c)
    ensures s.InQ(l, c) + s.Wire(l + 1, c) == []
  {
  }

  lemma LinkedInput(t: Tile, x: Psums, s: Net, prev: Count, cur: Count, i: nat, l: nat, n: nat)
    requires t.Valid() && l < t.levels && i < |t.sizes| && Partner(n) >= 0 && LinkOk(t, x, s, prev, cur, i, l, n)
    ensures cur(i, l, n) <= cur(i, l, Partner(n))
    ensures s.Q(l, n).fw + s.Link(l, EvenEnd(n)) == Packets(t, x, i, l, Partner(n), cur(i, l, n), cur(i, l, Partner(n)))
    ensures |s.Link(l, EvenEnd(n))| <= 1
  {
    PacksJoin(i, Stream(t, x, i, l, Partner(n)), cur(i, l, n), prev(i, l, Partner(n)), cur(i, l, Partner(n)));
  }

  // ----- an adder with one owner

  lemma KeepRoles(c: Span, n: nat)
    requires c.Valid() && c.Parents().Has(n)
    ensures RoleAt(c, n) == Sender <==> !Keep(c).Has(n)
    ensures RoleAt(c, n) == Receiver ==> Partner(n) >= 0
  {
  }

  /** What an adder emits, in terms of what its inputs emit. */
  lemma OutValue(t: Tile, x: Psums, i: nat, l: nat, n: nat, k: nat)
    requires t.Valid() && l < t.levels && i < |t.sizes| && t.Kept(i, l + 1).Has(2 * n)
    ensures t.RoleOf(i, l, n) != Receiver && t.Kept(i, l + 1).Has(2 * n + 1) ==>
      Out(t, x, i, l, n, k) == Out(t, x, i, l + 1, 2 * n, k) + Out(t, x, i, l + 1, 2 * n + 1, k)
    ensures t.RoleOf(i, l, n) != Receiver && !t.Kept(i, l + 1).Has(2 * n + 1) ==>
      Out(t, x, i, l, n, k) == Out(t, x, i, l + 1, 2 * n, k)
    ensures t.RoleOf(i, l, n) == Receiver && t.Kept(i, l + 1).Has(2 * n + 1) ==>
      && Partner(n) >= 0
      && Out(t, x, i, l, n, k)
           == Out(t, x, i, l + 1, 2 * n, k) + Out(t, x, i, l + 1, 2 * n + 1, k) + Out(t, x, i, l, Partner(n), k)
  {
    if t.RoleOf(i, l, n) == Receiver {
      LinkPairs(t.Kept(i, l + 1), n);
      LinkPairs(t.Kept(i, l + 1), Partner(n));
    }
  }

  /** The raw result of a cycle of an adder with one owner. */
  ghost predicate SoloResult(t: Tile, x: Psums, cfg: Config, q: Queues, r: Routed, cur: Count, i: nat, l: nat, n: nat)
    requires t.Valid() && l < t.levels && i < |t.sizes|
  {
    var a, b := cur(i, l, n), Bump(cur(i, l, n), Ready(t, cur, i, l, n));
    && r.ok
    && b <= cur(i, l + 1, 2 * n)
    && r.queues.left == Packets(t, x, i, l + 1, 2 * n, b, cur(i, l + 1, 2 * n))
    && (if t.Kept(i, l + 1).Has(2 * n + 1) then
          b <= cur(i, l + 1, 2 * n + 1)
            && r.queues.right == Packets(t, x, i, l + 1, 2 * n + 1, b, cur(i, l + 1, 2 * n + 1))
        else r.queues.right == [])
    && (if t.RoleOf(i, l, n) == Receiver && Partner(n) >= 0 then
          b <= cur(i, l, Partner(n)) && r.queues.fw == Packets(t, x, i, l, Partner(n), b, cur(i, l, Partner(n)))
        else r.queues.fw == q.fw)
    && Emits(cfg, r, Packets(t, x, i, l, n, a, b))
  }

  /** The FIFOs of an adder with one owner, at the start of its routing. */
  ghost predicate SoloInput(t: Tile, x: Psums, q: Queues, cur: Count, i: nat, l: nat, n: nat)
    requires t.Valid() && l < t.levels && i < |t.sizes|
  {
    && cur(i, l, n) <= cur(i, l + 1, 2 * n)
    && q.left == Packets(t, x, i, l + 1, 2 * n, cur(i, l, n), cur(i, l + 1, 2 * n))
    && (if t.Kept(i, l + 1).Has(2 * n + 1) then
          && cur(i, l, n) <= cur(i, l + 1, 2 * n + 1)
          && q.right == Packets(t, x, i, l + 1, 2 * n + 1, cur(i, l, n), cur(i, l + 1, 2 * n + 1))
        else q.right == [])
    && (t.RoleOf(i, l, n) == Receiver ==>
          && Partner(n) >= 0 && cur(i, l, n) <= cur(i, l, Partner(n))
          && q.fw == Packets(t, x, i, l, Partner(n), cur(i, l, n), cur(i, l, Partner(n))))
  }

  lemma SoloRouteLink(t: Tile, x: Psums, cfg: Config, q: Queues, cur: Count, i: nat, l: nat, n: nat)
    requires t.Valid() && l < t.levels && i < |t.sizes| && SoloInput(t, x, q, cur, i, l, n)
    requires t.RoleOf(i, l, n) == Receiver && t.Kept(i, l + 1).Has(2 * n) && t.Kept(i, l + 1).Has(2 * n + 1)
    requires cfg.mode == Add31 && cfg.left && cfg.right && cfg.fw == Some(Receive)
    ensures SoloResult(t, x, cfg, q, Route(cfg, n, q), cur, i, l, n)
  {
    hide Keep, RoleAt;
    OutValue(t, x, i, l, n, cur(i, l, n));
    Fire31(cfg, n, q, i, Stream(t, x, i, l + 1, 2 * n), Stream(t, x, i, l + 1, 2 * n + 1),
           Stream(t, x, i, l, Partner(n)), Stream(t, x, i, l, n),
           cur(i, l, n), cur(i, l + 1, 2 * n), cur(i, l + 1, 2 * n + 1), cur(i, l, Partner(n)));
  }

  lemma SoloRoutePair(t: Tile, x: Psums, cfg: Config, q: Queues, cur: Count, i: nat, l: nat, n: nat)
    requires t.Valid() && l < t.levels && i < |t.sizes| && SoloInput(t, x, q, cur, i, l, n)
    requires t.RoleOf(i, l, n) != Receiver && t.Kept(i, l + 1).Has(2 * n) && t.Kept(i, l + 1).Has(2 * n + 1)
    requires cfg.mode == Add21 && cfg.left && cfg.right && cfg.fw != Some(Receive)
    ensures SoloResult(t, x, cfg, q, Route(cfg, n, q), cur, i, l, n)
  {
    hide Keep, RoleAt;
    OutValue(t, x, i, l, n, cur(i, l, n));
    Fire21(cfg, n, q, i, Stream(t, x, i, l + 1, 2 * n), Stream(t, x, i, l + 1, 2 * n + 1), Stream(t, x, i, l, n),
           cur(i, l, n), cur(i, l + 1, 2 * n), cur(i, l + 1, 2 * n + 1));
  }

  lemma SoloRouteLeft(t: Tile, x: Psums, cfg: Config, q: Queues, cur: Count, i: nat, l: nat, n: nat)
    requires t.Valid() && l < t.levels && i < |t.sizes| && SoloInput(t, x, q, cur, i, l, n)
    requires t.RoleOf(i, l, n) != Receiver && t.Kept(i, l + 1).Has(2 * n) && !t.Kept(i, l + 1).Has(2 * n + 1)
    requires cfg.mode == Add21 && !cfg.right && cfg.fw != Some(Receive)
    ensures SoloResult(t, x, cfg, q, Route(cfg, n, q), cur, i, l, n)
  {
    hide Keep, RoleAt;
    var a := cur(i, l, n);
    OutValue(t, x, i, l, n, a);
    Fire21Left(cfg, n, q, i, Stream(t, x, i, l + 1, 2 * n), a, cur(i, l + 1, 2 * n));
    assert Packets(t, x, i, l, n, a, a + 1) == Packets(t, x, i, l + 1, 2 * n, a, a + 1);
  }

  lemma SoloRoute(t: Tile, x: Psums, q: Queues, cur: Count, i: nat, l: nat, n: nat)
    requires t.Valid() && t.Reducible() && l < t.levels && Uses(t, i, l, n) && OnlyOwner(t, i, l, n)
    requires SoloInput(t, x, q, cur, i, l, n)
    ensures SoloResult(t, x, ConfigOf(t, l, n), q, Route(ConfigOf(t, l, n), n, q), cur, i, l, n)
  {
    hide Keep, RoleAt;
    SoloConfig(t, i, l, n);
    var cfg := ConfigOf(t, l, n);
    if t.RoleOf(i, l, n) == Receiver {
      SoloRouteLink(t, x, cfg, q, cur, i, l, n);
    } else if t.Kept(i, l + 1).Has(2 * n + 1) {
      SoloRoutePair(t, x, cfg, q, cur, i, l, n);
    } else {
      SoloRouteLeft(t, x, cfg, q, cur, i, l, n);
    }
  }

  /** The one owner of an adder is the only VN that feeds it. */
  lemma SoloFeeds(t: Tile, i: nat, l: nat, n: nat)
    requires t.Valid() && l < t.levels && Uses(t, i, l, n) && OnlyOwner(t, i, l, n)
    ensures forall j, c :: c / 2 == n && Feeds(t, j, l, c) ==> j == i
    ensures forall j :: Uses(t, j, l, n) ==> j == i
  {
    hide Keep, RoleAt;
    forall j: nat, c: nat | c / 2 == n && Feeds(t, j, l, c)
      ensures j == i
    {
      assert t.Cover(j, l).Has(n);
    }
  }

  lemma NodeSides(t: Tile, x: Psums, s: Net, prev: Count, cur: Count, l: nat, n: nat)
    requires t.Valid() && l < t.levels && NodeInv(t, x, s, prev, cur, l, n)
    ensures SideInv(t, x, s, prev, cur, l, 2 * n) && SideInv(t, x, s, prev, cur, l, 2 * n + 1)
  {
  }

  lemma NodeLink(t: Tile, x: Psums, s: Net, prev: Count, cur: Count, i: nat, l: nat, n: nat)
    requires t.Valid() && l < t.levels && Uses(t, i, l, n) && NodeInv(t, x, s, prev, cur, l, n)
    ensures t.RoleOf(i, l, n) == Receiver ==> Partner(n) >= 0 && LinkOk(t, x, s, prev, cur, i, l, n)
    ensures ConfigOf(t, l, n).fw != Some(Receive) ==> s.Q(l, n).fw == []
  {
    hide Keep, RoleAt, MemoryOk, ConfigOf, SideInv, LinkOk;
  }

  lemma SoloRight(t: Tile, x: Psums, s: Net, prev: Count, cur: Count, i: nat, l: nat, n: nat)
    requires t.Valid() && l < t.levels && Uses(t, i, l, n) && OnlyOwner(t, i, l, n)
    requires SideInv(t, x, s, prev, cur, l, 2 * n + 1)
    ensures var taken := s.InQ(l, 2 * n + 1) + s.Wire(l + 1, 2 * n + 1);
      if t.Kept(i, l + 1).Has(2 * n + 1) then
        && cur(i, l, n) <= cur(i, l + 1, 2 * n + 1)
        && taken == Packets(t, x, i, l + 1, 2 * n + 1, cur(i, l, n), cur(i, l + 1, 2 * n + 1))
      else taken == []
  {
    hide Keep, RoleAt, Packets, SideInv;
    SoloFeeds(t, i, l, n);
    if t.Kept(i, l + 1).Has(2 * n + 1) {
      assert Feeds(t, i, l, 2 * n + 1);
      FedInput(t, x, s, prev, cur, i, l, 2 * n + 1);
    } else {
      assert Unfed(t, l, 2 * n + 1);
      UnfedInput(t, x, s, prev, cur, l, 2 * n + 1);
    }
  }

  /** What a solo adder has from its link, once it has taken what is pending there. */
  lemma SoloLink(t: Tile, x: Psums, s: Net, prev: Count, cur: Count, i: nat, l: nat, n: nat)
    requires t.Valid() && t.Reducible() && l < t.levels && Uses(t, i, l, n) && OnlyOwner(t, i, l, n)
    requires NodeInv(t, x, s, prev, cur, l, n)
    ensures var fw := Inputs(ConfigOf(t, l, n), s, l, n).fw;
      if t.RoleOf(i, l, n) == Receiver then
        && Partner(n) >= 0 && cur(i, l, n) <= cur(i, l, Partner(n))
        && fw == Packets(t, x, i, l, Partner(n), cur(i, l, n), cur(i, l, Partner(n)))
      else fw == []
    ensures ConfigOf(t, l, n).fw == Some(Receive) ==> |s.Link(l, EvenEnd(n))| <= 1
  {
    hide Keep, RoleAt, NodeInv, Packets, ConfigOf, LinkOk;
    SoloConfig(t, i, l, n);
    NodeLink(t, x, s, prev, cur, i, l, n);
    if t.RoleOf(i, l, n) == Receiver {
      LinkedInput(t, x, s, prev, cur, i, l, n);
    }
  }

  lemma SoloInputs(t: Tile, x: Psums, s: Net, prev: Count, cur: Count, i: nat, l: nat, n: nat)
    requires t.Valid() && t.Reducible() && l < t.levels && Uses(t, i, l, n) && OnlyOwner(t, i, l, n)
    requires NodeInv(t, x, s, prev, cur, l, n)
    ensures SoloInput(t, x, Inputs(ConfigOf(t, l, n), s, l, n), cur, i, l, n)
    ensures t.RoleOf(i, l, n) != Receiver ==> Inputs(ConfigOf(t, l, n), s, l, n).fw == []
  {
    hide Keep, RoleAt, NodeInv, Packets, ConfigOf, SideInv;
    NodeSides(t, x, s, prev, cur, l, n);
    assert t.Kept(i, l + 1).Has(2 * n) by { SoloConfig(t, i, l, n); }
    FedInput(t, x, s, prev, cur, i, l, 2 * n);
    SoloRight(t, x, s, prev, cur, i, l, n);
    SoloLink(t, x, s, prev, cur, i, l, n);
  }

  lemma SoloResultServed(t: Tile, x: Psums, cfg: Config, q: Queues, r: Routed, cur: Count, i: nat, l: nat, n: nat)
    requires t.Valid() && l < t.levels && Uses(t, i, l, n) && cfg == ConfigOf(t, l, n)
    requires cfg.mode != Fw22 && (cfg.fw == Some(Send) <==> t.RoleOf(i, l, n) == Sender)
    requires SoloResult(t, x, cfg, q, r, cur, i, l, n)
    ensures Served(t, x, r, cur, i, l, n)
    ensures forall p :: p in r.up ==> p.vn == i && t.RoleOf(i, l, n) != Sender
  {
    hide Keep, RoleAt, ConfigOf, Ready;
    FilterAll(Packets(t, x, i, l, n, cur(i, l, n), Advance(t, cur, i, l, n)), i);
  }

  lemma SoloServed(t: Tile, x: Psums, s: Net, prev: Count, cur: Count, i: nat, l: nat, n: nat)
    requires t.Valid() && t.Reducible() && l < t.levels && Uses(t, i, l, n) && OnlyOwner(t, i, l, n)
    requires NodeInv(t, x, s, prev, cur, l, n)
    ensures NodeServed(t, x, s, cur, l, n)
  {
    hide Keep, RoleAt, NodeInv, ConfigOf, Route, Inputs, SoloInput, Served, Packets;
    var cfg := ConfigOf(t, l, n);
    var q := Inputs(cfg, s, l, n);
    var r := Route(cfg, n, q);
    SoloInputs(t, x, s, prev, cur, i, l, n);
    SoloLink(t, x, s, prev, cur, i, l, n);
    SoloRoute(t, x, q, cur, i, l, n);
    SoloConfig(t, i, l, n);
    SoloFeeds(t, i, l, n);
    SoloResultServed(t, x, cfg, q, r, cur, i, l, n);
    KeepRoles(t.Kept(i, l + 1), n);
    assert Feeds(t, i, l, 2 * n);
    assert t.Kept(i, l + 1).Has(2 * n + 1) ==> Feeds(t, i, l, 2 * n + 1);
  }

  // ----- an adder shared by two neighbours

  lemma OneChild(t: Tile, x: Psums, i: nat, l: nat, n: nat, c: nat, a: nat, b: nat)
    requires t.Valid() && l < t.levels && i < |t.sizes| && a <= b && c / 2 == n
    requires t.Kept(i, l + 1).Has(c) && !t.Kept(i, l + 1).Has(4 * n + 1 - c) && t.RoleOf(i, l, n) != Receiver
    ensures Packets(t, x, i, l, n, a, b) == Packets(t, x, i, l + 1, c, a, b)
  {
    hide Keep, RoleAt;
    assert c == 2 * n || c == 2 * n + 1;
    forall k: nat
      ensures Out(t, x, i, l, n, k) == Out(t, x, i, l + 1, c, k)
    {
    }
  }

  /** Each side of a shared adder is fed by one of the two VNs, and nobody else uses it. */
  lemma SharedFeeds(t: Tile, i: nat, l: nat, n: nat)
    requires t.Valid() && t.Reducible() && l == t.levels - 1 && SharedBy(t, i, n)
    ensures Feeds(t, i, l, 2 * n) && !t.Kept(i, l + 1).Has(2 * n + 1)
    ensures Feeds(t, i + 1, l, 2 * n + 1) && !t.Kept(i + 1, l + 1).Has(2 * n)
    ensures Uses(t, i, l, n) && Uses(t, i + 1, l, n)
    ensures forall j: nat :: Uses(t, j, l, n) ==> j == i || j == i + 1
  {
    hide Keep, RoleAt;
    LeafShare(t, i, n);
    forall j: nat | Uses(t, j, l, n)
      ensures j == i || j == i + 1
    {
      if j < i {
        LeafNeighbours(t, j, i + 1, n);
      } else if j > i + 1 {
        LeafNeighbours(t, i, j, n);
      }
    }
  }

  /** The FIFOs of a shared adder at the start of its routing. */
  lemma SharedInputs(t: Tile, x: Psums, s: Net, prev: Count, cur: Count, i: nat, l: nat, n: nat)
    requires t.Valid() && t.Reducible() && l == t.levels - 1 && SharedBy(t, i, n) && NodeInv(t, x, s, prev, cur, l, n)
    ensures cur(i, l, n) <= cur(i, l + 1, 2 * n) && cur(i + 1, l, n) <= cur(i + 1, l + 1, 2 * n + 1)
    ensures Inputs(ConfigOf(t, l, n), s, l, n).left
         == Packets(t, x, i, l + 1, 2 * n, cur(i, l, n), cur(i, l + 1, 2 * n))
    ensures Inputs(ConfigOf(t, l, n), s, l, n).right
         == Packets(t, x, i + 1, l + 1, 2 * n + 1, cur(i + 1, l, n), cur(i + 1, l + 1, 2 * n + 1))
    ensures Inputs(ConfigOf(t, l, n), s, l, n).fw == []
  {
    hide Keep, RoleAt, MemoryOk, Packets, ConfigOf, Route, SideInv, LinkOk;
    SharedConfig(t, i, n);
    SharedFeeds(t, i, l, n);
    FedInput(t, x, s, prev, cur, i, l, 2 * n);
    FedInput(t, x, s, prev, cur, i + 1, l, 2 * n + 1);
  }

  /** A VN with one child below an adder is served by emitting what that child emitted. */
  lemma OneChildServed(t: Tile, x: Psums, r: Routed, cur: Count, i: nat, l: nat, n: nat, c: nat, b: nat)
    requires t.Valid() && l < t.levels && Uses(t, i, l, n) && c / 2 == n && b == Advance(t, cur, i, l, n)
    requires t.Kept(i, l + 1).Has(c) && !t.Kept(i, l + 1).Has(4 * n + 1 - c) && t.RoleOf(i, l, n) in {Plain, Sender}
    requires cur(i, l, n) <= b <= cur(i, l + 1, c)
    requires (if c % 2 == 0 then r.queues.left else r.queues.right) == Packets(t, x, i, l + 1, c, b, cur(i, l + 1, c))
    requires t.RoleOf(i, l, n) == Sender ==>
      b <= cur(i, l, n) + 1 && r.side == Packets(t, x, i, l + 1, c, cur(i, l, n), b)
    requires t.RoleOf(i, l, n) == Plain ==> Filter(r.up, i) == Packets(t, x, i, l + 1, c, cur(i, l, n), b)
    requires t.RoleOf(i, l, n) == Plain && !t.Kept(i, l).Single() ==>
      r.up == Packets(t, x, i, l + 1, c, cur(i, l, n), b)
    ensures Served(t, x, r, cur, i, l, n)
  {
    hide Keep, RoleAt, ConfigOf, Packets, Advance;
    assert c == 2 * n || c == 2 * n + 1;
    OneChild(t, x, i, l, n, c, cur(i, l, n), b);
  }

  lemma OneChildAdvance(t: Tile, cur: Count, i: nat, l: nat, n: nat, c: nat)
    requires t.Valid() && l < t.levels && Uses(t, i, l, n) && c / 2 == n && ConfigOf(t, l, n).mode != Fw22
    requires t.Kept(i, l + 1).Has(c) && !t.Kept(i, l + 1).Has(4 * n + 1 - c) && t.RoleOf(i, l, n) in {Plain, Sender}
    ensures Advance(t, cur, i, l, n) == Bump(cur(i, l, n), cur(i, l, n) < cur(i, l + 1, c))
  {
    hide Keep, RoleAt, ConfigOf;
    assert c == 2 * n || c == 2 * n + 1;
  }

  /** The raw result of a cycle of an adder that splits its inputs between VNs i and i + 1. */
  lemma SplitRoute(t: Tile, x: Psums, s: Net, prev: Count, cur: Count, i: nat, l: nat, n: nat)
    requires t.Valid() && t.Reducible() && l == t.levels - 1 && SharedBy(t, i, n) && NodeInv(t, x, s, prev, cur, l, n)
    requires !(t.sizes[i] == t.sizes[i + 1] == 1)
    ensures cur(i, l, n) <= Advance(t, cur, i, l, n) <= cur(i, l + 1, 2 * n)
    ensures cur(i + 1, l, n) <= Advance(t, cur, i + 1, l, n) <= cur(i + 1, l + 1, 2 * n + 1)
    ensures Advance(t, cur, i, l, n) <= cur(i, l, n) + 1 && Advance(t, cur, i + 1, l, n) <= cur(i + 1, l, n) + 1
    ensures var r := RunNode(ConfigOf(t, l, n), s, l, n);
      var a, b := Advance(t, cur, i, l, n), Advance(t, cur, i + 1, l, n);
      var pl := Packets(t, x, i, l + 1, 2 * n, cur(i, l, n), a);
      var pr := Packets(t, x, i + 1, l + 1, 2 * n + 1, cur(i + 1, l, n), b);
      && r.ok && r.queues.fw == []
      && r.queues.left == Packets(t, x, i, l + 1, 2 * n, a, cur(i, l + 1, 2 * n))
      && r.queues.right == Packets(t, x, i + 1, l + 1, 2 * n + 1, b, cur(i + 1, l + 1, 2 * n + 1))
      && r.up == (if n % 2 == 0 then pr else pl) && r.side == (if n % 2 == 0 then pl else pr)
  {
    hide Keep, RoleAt, NodeInv, ConfigOf, Route, Inputs, Served, Advance;
    var j := i + 1;
    var cfg := ConfigOf(t, l, n);
    SharedConfig(t, i, n);
    SharedFeeds(t, i, l, n);
    SharedInputs(t, x, s, prev, cur, i, l, n);
    OneChildAdvance(t, cur, i, l, n, 2 * n);
    OneChildAdvance(t, cur, j, l, n, 2 * n + 1);
    Fire11(cfg, n, Inputs(cfg, s, l, n), i, j, Stream(t, x, i, l + 1, 2 * n), Stream(t, x, j, l + 1, 2 * n + 1),
           cur(i, l, n), cur(i, l + 1, 2 * n), cur(j, l, n), cur(j, l + 1, 2 * n + 1));
  }

  lemma SplitServed(t: Tile, x: Psums, s: Net, prev: Count, cur: Count, i: nat, l: nat, n: nat)
    requires t.Valid() && t.Reducible() && l == t.levels - 1 && SharedBy(t, i, n) && NodeInv(t, x, s, prev, cur, l, n)
    requires !(t.sizes[i] == t.sizes[i + 1] == 1)
    ensures var r := RunNode(ConfigOf(t, l, n), s, l, n);
      && r.ok && r.queues.fw == []
      && Served(t, x, r, cur, i, l, n) && Served(t, x, r, cur, i + 1, l, n)
      && (forall p :: p in r.up ==> p.vn == if n % 2 == 0 then i + 1 else i)
  {
    hide Keep, RoleAt, NodeInv, ConfigOf, RunNode, Served, Advance;
    var r := RunNode(ConfigOf(t, l, n), s, l, n);
    SharedConfig(t, i, n);
    SharedFeeds(t, i, l, n);
    SplitRoute(t, x, s, prev, cur, i, l, n);
    FilterAll(r.up, if n % 2 == 0 then i + 1 else i);
    hide Packets;
    OneChildServed(t, x, r, cur, i, l, n, 2 * n, Advance(t, cur, i, l, n));
    OneChildServed(t, x, r, cur, i + 1, l, n, 2 * n + 1, Advance(t, cur, i + 1, l, n));
  }

  /** A pass-through adder of two one-multiplier VNs lets everything through. */
  lemma PassAdvance(t: Tile, cur: Count, i: nat, l: nat, n: nat)
    requires t.Valid() && t.Reducible() && l == t.levels - 1 && SharedBy(t, i, n) && t.sizes[i] == t.sizes[i + 1] == 1
    ensures Advance(t, cur, i, l, n) == cur(i, l + 1, 2 * n)
    ensures Advance(t, cur, i + 1, l, n) == cur(i + 1, l + 1, 2 * n + 1)
  {
    hide Keep, RoleAt, ConfigOf, Ready;
    SharedConfig(t, i, n);
    SharedFeeds(t, i, l, n);
  }

  /** One-multiplier VNs are complete on the last level. */
  lemma SingleKept(t: Tile, i: nat)
    requires t.Valid() && i < |t.sizes| && t.sizes[i] == 1
    ensures t.Kept(i, t.levels - 1).Single()
  {
    assert t.Kept(i, t.levels) == t.Leaves(i);
    KeepShape(t.Leaves(i));
  }

  lemma PassServed(t: Tile, x: Psums, s: Net, prev: Count, cur: Count, i: nat, l: nat, n: nat)
    requires t.Valid() && t.Reducible() && l == t.levels - 1 && SharedBy(t, i, n) && NodeInv(t, x, s, prev, cur, l, n)
    requires t.sizes[i] == t.sizes[i + 1] == 1
    ensures var r := RunNode(ConfigOf(t, l, n), s, l, n);
      && r.ok && r.queues.fw == []
      && Served(t, x, r, cur, i, l, n) && Served(t, x, r, cur, i + 1, l, n)
      && (forall p :: p in r.up ==> p.vn == i || p.vn == i + 1)
  {
    hide Keep, RoleAt, NodeInv, ConfigOf, Route, Inputs, Served, Advance;
    var j := i + 1;
    var cfg := ConfigOf(t, l, n);
    var q := Inputs(cfg, s, l, n);
    SharedConfig(t, i, n);
    SharedFeeds(t, i, l, n);
    SharedInputs(t, x, s, prev, cur, i, l, n);
    PassAdvance(t, cur, i, l, n);
    var a, b := cur(i, l + 1, 2 * n), cur(j, l + 1, 2 * n + 1);
    Fire22(cfg, n, q, i, j, Stream(t, x, i, l + 1, 2 * n), Stream(t, x, j, l + 1, 2 * n + 1),
           cur(i, l, n), a, cur(j, l, n), b);
    SingleKept(t, i);
    SingleKept(t, j);
    hide Packets;
    OneChildServed(t, x, Route(cfg, n, q), cur, i, l, n, 2 * n, a);
    OneChildServed(t, x, Route(cfg, n, q), cur, j, l, n, 2 * n + 1, b);
  }

  lemma SharedServed(t: Tile, x: Psums, s: Net, prev: Count, cur: Count, i: nat, l: nat, n: nat)
    requires t.Valid() && t.Reducible() && l == t.levels - 1 && SharedBy(t, i, n) && NodeInv(t, x, s, prev, cur, l, n)
    ensures NodeServed(t, x, s, cur, l, n)
  {
    hide Keep, RoleAt, NodeInv, ConfigOf, RunNode, Served;
    SharedConfig(t, i, n);
    SharedFeeds(t, i, l, n);
    KeepRoles(t.Kept(i, l + 1), n);
    KeepRoles(t.Kept(i + 1, l + 1), n);
    if t.sizes[i] == t.sizes[i + 1] == 1 {
      PassServed(t, x, s, prev, cur, i, l, n);
    } else {
      SplitServed(t, x, s, prev, cur, i, l, n);
    }
  }

  // ----- an adder without data

  lemma QuietServed(t: Tile, x: Psums, s: Net, prev: Count, cur: Count, l: nat, n: nat)
    requires t.Valid() && l < t.levels && NodeInv(t, x, s, prev, cur, l, n)
    requires forall i: nat :: !Uses(t, i, l, n)
    ensures NodeServed(t, x, s, cur, l, n)
  {
    hide Keep, RoleAt, MemoryOk, FeedOk, LinkOk, Served;
    forall i: nat, c: nat | c / 2 == n
      ensures !Feeds(t, i, l, c)
    {
      assert !Uses(t, i, l, n);
    }
    assert Unfed(t, l, 2 * n) && Unfed(t, l, 2 * n + 1);
    forall j | 0 <= j < |t.sizes| && t.Active(j, l)
      ensures !t.Cover(j, l).Has(n)
    {
      assert !Uses(t, j, l, n);
    }
    QuietSignal(t, |t.sizes|, l, n);
  }

  /** One cycle of any adder: no check fails, and every VN is served. */
  lemma AdderServed(t: Tile, x: Psums, s: Net, prev: Count, cur: Count, l: nat, n: nat)
    requires t.Valid() && t.Reducible() && l < t.levels && NodeInv(t, x, s, prev, cur, l, n)
    ensures NodeServed(t, x, s, cur, l, n)
  {
    hide Keep, RoleAt, NodeInv, NodeServed;
    if i: nat :| Uses(t, i, l, n) {
      Owners(t, i, l, n);
      if OnlyOwner(t, i, l, n) {
        SoloServed(t, x, s, prev, cur, i, l, n);
      } else {
        SharedServed(t, x, s, prev, cur, if SharedBy(t, i, n) then i else i - 1, l, n);
      }
    } else {
      QuietServed(t, x, s, prev, cur, l, n);
    }
  }
}
