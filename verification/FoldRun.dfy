/**
 Whole runs of the fold network.  Its adders reduce as those of the plain tree do, and every
 VN's sums are then accumulated, block by block, in a fold node of the VN's own.
 */
module FoldRuns {
  import opened Prelude
  import opened Arithmetic
  import opened Layout
  import opened Tiles
  import opened Exclusivity
  import opened Signals
  import opened Switches
  import opened Flow
  import opened Configured
  import opened Networks
  import opened Invariants
  import opened Steps
  import opened Runs
  import opened FoldNodes
  import opened FoldCompiler
  import opened FoldNetworks
  import opened Accumulation

  // ----- the compiled fold network against the plain tree

  lemma {:induction false} TreeNeverFolds(t: Tile, k: nat, l: nat, n: nat)
    requires t.Valid() && k <= |t.sizes| && l < t.levels
    ensures SignalAfter(t, k, l, n).mode != Some(Fold)
  {
    hide Keep, RoleAt;
    if k > 0 {
      TreeNeverFolds(t, k - 1, l, n);
    }
  }

  /** An adder that VN j uses hands its sums to a fold node exactly when the plain tree writes them to memory. */
  lemma UsedTarget(t: Tile, j: nat, l: nat, n: nat)
    requires t.Valid() && Foldable(t) && l < t.levels && Uses(t, j, l, n)
    ensures CompletesOne(t, |t.sizes|, (l, n)) <==> ToMemory(t, l, n)
    ensures !FoldsOne(t, |t.sizes|, (l, n))
  {
    hide Keep, RoleAt, FoldNode, FinishFrom;
    if k: nat :| k < |t.sizes| && t.Kept(k, l) == Span(n, n) {
      if !t.Active(k, l) {
        KeepShape(t.Kept(k, l + 1));
        CoverExclusive(t, j, k, l, n);
      }
      FinishUnique(t, k, l, n);
    }
    forall k: nat | k < |t.sizes|
      ensures FoldOf(t, k) != (l, n)
    {
      FoldNodesUnused(t, k, j);
    }
  }

  lemma UsedChildren(t: Tile, j: nat, l: nat, n: nat, c: nat)
    requires t.Valid() && Foldable(t) && l < t.levels && Uses(t, j, l, n) && c / 2 == n
    ensures FenChildEnabled(t, l, c) <==> ChildEnabled(t, l, c)
  {
    hide Keep, RoleAt, FoldNode, FinishFrom, FenSignalAfter, SignalAfter;
    if l < t.levels - 1 {
      ActiveFull(t, j, l, n);
      assert c == 2 * n || c == 2 * n + 1;
      KeepShape(t.Kept(j, l + 2));
      UsedAsInTree(t, j, l + 1, c, |t.sizes|);
    }
  }

  /** An adder with data is configured as in the plain tree, with the fold node in place of memory. */
  lemma UsedConfig(t: Tile, j: nat, l: nat, n: nat)
    requires t.Valid() && Foldable(t) && l < t.levels && Uses(t, j, l, n)
    ensures FenConfigOf(t, l, n) == FenConfig(ConfigOf(t, l, n).(memory := false), ConfigOf(t, l, n).memory)
    ensures ConfigOf(t, l, n).mode != Fold
  {
    hide Keep, RoleAt, FoldNode, FinishFrom, FenSignalAfter, SignalAfter, FeedsParent;
    UsedAsInTree(t, j, l, n, |t.sizes|);
    UsedTarget(t, j, l, n);
    UsedChildren(t, j, l, n, 2 * n);
    UsedChildren(t, j, l, n, 2 * n + 1);
    TreeNeverFolds(t, |t.sizes|, l, n);
  }

  lemma {:induction false} UnusedSignal(t: Tile, k: nat, l: nat, n: nat)
    requires t.Valid() && k <= |t.sizes| && l < t.levels && forall j: nat :: !Uses(t, j, l, n)
    ensures var s := FenSignalAfter(t, k, l, n);
      s.fw == None && s.mode == if FoldsOne(t, k, (l, n)) then Some(Fold) else None
  {
    hide Keep, FoldNode, FinishFrom;
    if k > 0 {
      UnusedSignal(t, k - 1, l, n);
      assert !Uses(t, k - 1, l, n);
      assert FoldsOne(t, k, (l, n)) <==> FoldsOne(t, k - 1, (l, n)) || FoldOf(t, k - 1) == (l, n);
    }
  }

  /** A switch no VN uses is a fold node or does nothing. */
  lemma UnusedConfig(t: Tile, l: nat, n: nat)
    requires t.Valid() && l < t.levels && forall j: nat :: !Uses(t, j, l, n)
    ensures var c := FenConfigOf(t, l, n);
      && c.adder.fw == None && !c.toFold
      && c.adder.mode == (if c.adder.memory then Fold else Add21)
      && (c.adder.memory <==> FoldsOne(t, |t.sizes|, (l, n)))
  {
    hide Keep, FoldNode, FinishFrom, FenSignalAfter, FenChildEnabled;
    UnusedSignal(t, |t.sizes|, l, n);
    forall j: nat | j < |t.sizes|
      ensures (l, n) != (Finish(t, j), FinishAdder(t, j))
    {
      KeepShape(t.Kept(j, Finish(t, j) + 1));
      assert Uses(t, j, Finish(t, j), FinishAdder(t, j));
    }
  }

  // ----- the tree inside the fold network runs as the plain tree

  /** An adder no VN uses has nothing to take in. */
  lemma QuietRun(t: Tile, x: Psums, s: Net, prev: Count, cur: Count, cfg: Config, l: nat, n: nat)
    requires t.Valid() && l < t.levels && NodeInv(t, x, s, prev, cur, l, n) && forall j: nat :: !Uses(t, j, l, n)
    requires cfg.fw == None && cfg.mode in {Add21, Fw22, Fold}
    requires ConfigOf(t, l, n).fw == None
    ensures var r := RunNode(cfg, s, l, n); r.queues == NO_QUEUES && r.up == [] && r.side == []
    ensures cfg.mode != Fold ==> NodeOk(cfg, s, l, n)
  {
    hide Keep, RoleAt, MemoryOk, FeedOk, LinkOk, ConfigOf;
    forall i: nat, c: nat | c / 2 == n
      ensures !Feeds(t, i, l, c)
    {
      assert !Uses(t, i, l, n);
    }
    assert Unfed(t, l, 2 * n) && Unfed(t, l, 2 * n + 1);
    assert Inputs(cfg, s, l, n) == NO_QUEUES;
  }

  /** Used or not, an adder moves data in the fold network as it does in the plain tree. */
  lemma AdderProjects(t: Tile, x: Psums, s: Net, s': Net, prev: Count, cur: Count, l: nat, n: nat)
    requires t.Valid() && Foldable(t) && l < t.levels && NodeInv(t, x, s, prev, cur, l, n)
    requires NodeNext(TreeOf(FenConfigOf(t, l, n)), s, s', l, n)
    ensures NodeNext(ConfigOf(t, l, n), s, s', l, n)
  {
    hide Keep, RoleAt, NodeInv, ConfigOf, FenConfigOf, RunNode, Foldable;
    if j: nat :| Uses(t, j, l, n) {
      UsedConfig(t, j, l, n);
    } else {
      UnusedConfig(t, l, n);
      QuietConfig(t, l, n);
      QuietRun(t, x, s, prev, cur, ConfigOf(t, l, n), l, n);
      QuietRun(t, x, s, prev, cur, TreeOf(FenConfigOf(t, l, n)), l, n);
    }
  }

  lemma AdderChecksHold(t: Tile, x: Psums, s: Net, prev: Count, cur: Count, l: nat, n: nat)
    requires t.Valid() && Foldable(t) && l < t.levels && NodeInv(t, x, s, prev, cur, l, n)
    ensures AdderChecks(FenConfigOf(t, l, n), s, l, n)
  {
    hide Keep, RoleAt, NodeInv, ConfigOf, FenConfigOf, RunNode, NodeOk, Served;
    if j: nat :| Uses(t, j, l, n) {
      UsedConfig(t, j, l, n);
      MemoryFlagUnused(ConfigOf(t, l, n), s, l, n, false);
      AdderServed(t, x, s, prev, cur, l, n);
    } else {
      UnusedConfig(t, l, n);
      QuietConfig(t, l, n);
      QuietRun(t, x, s, prev, cur, FenConfigOf(t, l, n).adder, l, n);
    }
  }

  lemma TreeProjects(t: Tile, x: Psums, s: Net, s': Net, prev: Count, cur: Count)
    requires t.Valid() && Foldable(t) && Holds(t, x, s, prev, cur) && Next(t.levels, FenTree(t), s, s')
    ensures Next(t.levels, Compiled(t), s, s')
  {
    hide Keep, RoleAt, NodeInv, ConfigOf, FenConfigOf, NodeNext, Foldable;
    forall l: nat, n: nat | l < t.levels && n < Pow2(l)
      ensures NodeNext(Compiled(t)(l, n), s, s', l, n)
    {
      assert NodeInv(t, x, s, prev, cur, l, n);
      assert Compiled(t)(l, n) == ConfigOf(t, l, n) && FenTree(t)(l, n) == TreeOf(FenConfigOf(t, l, n));
      AdderProjects(t, x, s, s', prev, cur, l, n);
    }
  }

  // ----- what travels on the folding links

  /** What has left the tree at the adder that completes VN i is exactly the sums of VN i, in order. */
  lemma LinkHistory(t: Tile, x: Psums, sched: Schedule, s: Net, r: nat, i: nat)
    requires t.Valid() && Foldable(t) && i < |t.sizes| && Holds(t, x, s, PrevAt(t, sched, r), CountAt(t, sched, r))
    ensures s.Memory(Finish(t, i), FinishAdder(t, i)) == Sums(t, x, i, Delivered(t, sched, r, i))
  {
    hide Keep, RoleAt, Holds, FoldNode, FinishFrom, VNSum, Delivered;
    HoldsDelivers(t, x, sched, s, r);
    var all := s.Memory(Finish(t, i), FinishAdder(t, i));
    forall p | p in all
      ensures p.vn == i
    {
      FoldNodesDistinct(t, p.vn, i);
    }
    FilterAll(all, i);
  }

  /** No adder of a foldable tile passes two VNs through. */
  lemma NoPass(t: Tile, i: nat, l: nat, n: nat)
    requires t.Valid() && Foldable(t) && l < t.levels && Uses(t, i, l, n)
    ensures ConfigOf(t, l, n).mode != Fw22
  {
    hide Keep, RoleAt, ConfigOf, Sum;
    Owners(t, i, l, n);
    if OnlyOwner(t, i, l, n) {
      SoloConfig(t, i, l, n);
    } else {
      var j := if SharedBy(t, i, n) then i else i - 1;
      SharedConfig(t, j, n);
      assert ApartAt(t, j);
    }
  }

  /** At most one sum of a VN is completed per cycle. */
  lemma DeliveredStep(t: Tile, sched: Schedule, r: nat, i: nat)
    requires t.Valid() && Foldable(t) && i < |t.sizes|
    ensures Delivered(t, sched, r, i) <= Delivered(t, sched, r + 1, i) <= Delivered(t, sched, r, i) + 1
  {
    hide Keep, RoleAt, ConfigOf, FinishFrom, Ready;
    var l, n := Finish(t, i), FinishAdder(t, i);
    FinishUses(t, i);
    NoPass(t, i, l, n);
    assert CountAt(t, sched, r + 1)(i, l, n) == Advance(t, MidCount(t, sched, r), i, l, n);
    assert MidCount(t, sched, r)(i, l, n) == CountAt(t, sched, r)(i, l, n);
  }

  lemma FinishUses(t: Tile, i: nat)
    requires t.Valid() && i < |t.sizes|
    ensures Uses(t, i, Finish(t, i), FinishAdder(t, i))
  {
    hide Keep, RoleAt, FinishFrom;
    KeepShape(t.Kept(i, Finish(t, i) + 1));
  }

  lemma DeliveredNone(t: Tile, sched: Schedule, i: nat)
    requires t.Valid() && i < |t.sizes|
    ensures Delivered(t, sched, 0, i) == 0
  {
  }

  /** The sums numbered from v to w. */
  ghost function SumsFrom(t: Tile, x: Psums, i: nat, v: nat, w: nat): seq<Pkg>
    requires t.Valid() && i < |t.sizes| && v <= w
  {
    Sums(t, x, i, w)[v..]
  }

  lemma SumsJoin(t: Tile, x: Psums, i: nat, v: nat, w: nat)
    requires t.Valid() && i < |t.sizes| && v <= w
    ensures Sums(t, x, i, v) + SumsFrom(t, x, i, v, w) == Sums(t, x, i, w)
    ensures |SumsFrom(t, x, i, v, w)| == w - v
    ensures forall p :: p in Sums(t, x, i, w) ==> p.vn == i
  {
  }

  /** Only adders that complete a VN use their folding links. */
  ghost predicate SentOnly(t: Tile, sent: Id -> seq<Pkg>)
    requires t.Valid()
  {
    forall id: Id :: IsAdder(t.levels, id) && sent(id) != [] ==> CompletesOne(t, |t.sizes|, id)
  }

  lemma NowOnly(t: Tile, s: FenNet)
    requires t.Valid()
    ensures SentOnly(t, Now(t, s))
  {
    hide CompletesOne, FoldsOne, RunNode, FenSignalAfter, FenChildEnabled;
  }

  /** A folding link that carries data comes from the adder that completes some VN, and ends at that VN's fold node. */
  lemma CarrierOf(t: Tile, s: FenNet, l: nat, n: nat, id: Id) returns (i: nat)
    requires t.Valid() && SentOnly(t, s.sent) && Carries(t.levels, s, Now(t, s), l, n, id)
    ensures i < |t.sizes| && (l, n) == (Finish(t, i), FinishAdder(t, i)) && FoldOf(t, i) == id
  {
    hide Keep, RoleAt, FoldNode, FinishFrom, Now;
    NowOnly(t, s);
    assert IsAdder(t.levels, (l, n)) && CompletesOne(t, |t.sizes|, (l, n));
    i :| i < |t.sizes| && (l, n) == (Finish(t, i), FinishAdder(t, i));
  }

  lemma OneCarrier(t: Tile, s: FenNet, l: nat, n: nat, i: nat)
    requires t.Valid() && Foldable(t) && SentOnly(t, s.sent) && i < |t.sizes|
    requires Carries(t.levels, s, Now(t, s), l, n, FoldOf(t, i))
    ensures (l, n) == (Finish(t, i), FinishAdder(t, i))
  {
    hide Keep, RoleAt, FoldNode, FinishFrom, Carries, SentOnly, Now;
    var j := CarrierOf(t, s, l, n, FoldOf(t, i));
    FoldNodesDistinct(t, j, i);
  }

  /** The fold node of VN i sees exactly what the adder that completes VN i has put on its link. */
  lemma BelowFold(t: Tile, s: FenNet, i: nat)
    requires t.Valid() && Foldable(t) && SentOnly(t, s.sent) && i < |t.sizes|
    ensures Below(t.levels, s, Now(t, s), FoldOf(t, i)) == Seen(s, Now(t, s), (Finish(t, i), FinishAdder(t, i)))
  {
    hide Keep, RoleAt, FoldNode, FinishFrom, SentOnly, Foldable, Seen, Now;
    var l, n, id := Finish(t, i), FinishAdder(t, i), FoldOf(t, i);
    var now := Now(t, s);
    forall a: nat, b: nat | Carries(t.levels, s, now, a, b, id)
      ensures a == l && b == n
    {
      OneCarrier(t, s, a, b, i);
    }
    assert Seen(s, now, (l, n)) != [] ==> Carries(t.levels, s, now, l, n, id);
  }

  lemma BelowOther(t: Tile, s: FenNet, id: Id)
    requires t.Valid() && SentOnly(t, s.sent) && !FoldsOne(t, |t.sizes|, id)
    ensures Below(t.levels, s, Now(t, s), id) == []
    ensures forall l: nat, n: nat :: !Carries(t.levels, s, Now(t, s), l, n, id)
  {
    hide Keep, RoleAt, FoldNode, FinishFrom, SentOnly, FoldOf, Carries, Now;
    forall a: nat, b: nat | Carries(t.levels, s, Now(t, s), a, b, id)
      ensures false
    {
      var i := CarrierOf(t, s, a, b, id);
    }
  }

  // ----- the invariant of every run

  /** How many sums of VN i had been completed one cycle before cycle r. */
  ghost function Earlier(t: Tile, sched: Schedule, r: nat, i: nat): nat
    requires t.Valid() && i < |t.sizes|
  {
    if r == 0 then 0 else Delivered(t, sched, r - 1, i)
  }

  /** How many sums of VN i its fold node has taken in after r cycles. */
  ghost function Folded(t: Tile, sched: Schedule, r: nat, i: nat): nat
    requires t.Valid() && i < |t.sizes|
  {
    if Finish(t, i) == 0 then Delivered(t, sched, r, i) else Earlier(t, sched, r, i)
  }

  /** The accumulator of VN i's fold node, and what it has written, account for the first w sums of VN i. */
  ghost predicate FoldInv(t: Tile, x: Psums, k: nat, s: FenNet, i: nat, w: nat)
    requires t.Valid() && i < |t.sizes|
  {
    var id := FoldOf(t, i);
    && s.accs(id).nPsums == k && s.accs(id).input == []
    && Accounts(s.accs(id), Sums(t, x, i, w), PLUS)
    && AreBlockSums(s.written(id), Sums(t, x, i, w), BlockLength(k), PLUS)
  }

  /** The last cycle put on the folding link of VN i the sums it completed. */
  ghost predicate SentInv(t: Tile, x: Psums, sched: Schedule, s: FenNet, r: nat, i: nat)
    requires t.Valid() && i < |t.sizes|
  {
    var d, d' := Earlier(t, sched, r, i), Delivered(t, sched, r, i);
    d <= d' <= d + 1 && s.sent((Finish(t, i), FinishAdder(t, i))) == SumsFrom(t, x, i, d, d')
  }

  ghost predicate QuietAt(s: FenNet, id: Id) {
    s.written(id) == [] && s.accs(id).input == []
  }

  ghost predicate FenInv(t: Tile, x: Psums, sched: Schedule, k: nat, s: FenNet, r: nat)
    requires t.Valid()
  {
    && Holds(t, x, s.tree, PrevAt(t, sched, r), CountAt(t, sched, r))
    && SentOnly(t, s.sent)
    && (forall i: nat :: i < |t.sizes| ==> SentInv(t, x, sched, s, r, i))
    && (forall i: nat :: i < |t.sizes| ==> FoldInv(t, x, k, s, i, Folded(t, sched, r, i)))
    && (forall id: Id :: IsSwitch(t.levels, id) && !FoldsOne(t, |t.sizes|, id) ==> QuietAt(s, id))
  }

  /** One round: psums arrive in s, giving mid, and a cycle leads to s'. */
  ghost predicate FenRound(t: Tile, x: Psums, sched: Schedule, s: FenNet, mid: FenNet, s': FenNet, r: nat)
    requires t.Valid()
  {
    Arrive(t, x, sched, r, s.tree, mid.tree) && SameFolds(s, mid) && FenNext(t, mid, s')
  }

  /** The tree part of a round. */
  lemma TreeRound(t: Tile, x: Psums, sched: Schedule, k: nat, s: FenNet, mid: FenNet, s': FenNet, r: nat)
    requires t.Valid() && Foldable(t) && FenInv(t, x, sched, k, s, r) && FenRound(t, x, sched, s, mid, s', r)
    ensures Holds(t, x, mid.tree, PrevAt(t, sched, r), MidCount(t, sched, r))
    ensures Next(t.levels, Compiled(t), mid.tree, s'.tree)
    ensures Holds(t, x, s'.tree, PrevAt(t, sched, r + 1), CountAt(t, sched, r + 1))
  {
    hide Keep, RoleAt, Holds, Next, Arrive, Fire, SentOnly, SentInv, FoldInv;
    ArriveHolds(t, x, sched, r, s.tree, mid.tree);
    TreeProjects(t, x, mid.tree, s'.tree, PrevAt(t, sched, r), MidCount(t, sched, r));
    StepHolds(t, x, mid.tree, s'.tree, PrevAt(t, sched, r), MidCount(t, sched, r));
  }

  /** What leaves the tree at the adder that completes VN i is what it hands over. */
  lemma HandedOver(t: Tile, s: FenNet, s': FenNet, i: nat)
    requires t.Valid() && Foldable(t) && i < |t.sizes| && FenNext(t, s, s')
    ensures var l, n := Finish(t, i), FinishAdder(t, i);
      s'.tree.Memory(l, n) == s.tree.Memory(l, n) + s'.sent((l, n)) && s'.sent((l, n)) == Now(t, s)((l, n))
  {
    hide Keep, RoleAt, FinishFrom, FenConfigOf, ConfigOf, RunNode, Foldable, Folds;
    var l, n := Finish(t, i), FinishAdder(t, i);
    FinishUses(t, i);
    UsedConfig(t, i, l, n);
    FinishToMemory(t, i);
    MemoryFlagUnused(ConfigOf(t, l, n), s.tree, l, n, false);
    assert IsAdder(t.levels, (l, n)) && FenTree(t)(l, n) == TreeOf(FenConfigOf(t, l, n));
    assert NodeNext(FenTree(t)(l, n), s.tree, s'.tree, l, n);
  }

  lemma FinishToMemory(t: Tile, i: nat)
    requires t.Valid() && i < |t.sizes|
    ensures ConfigOf(t, Finish(t, i), FinishAdder(t, i)).memory
  {
    hide Keep, RoleAt, FinishFrom;
  }

  /** What the adder that completes VN i puts on its folding link in a round. */
  lemma SentRound(t: Tile, x: Psums, sched: Schedule, k: nat, s: FenNet, mid: FenNet, s': FenNet, r: nat, i: nat)
    requires t.Valid() && Foldable(t) && i < |t.sizes|
    requires FenInv(t, x, sched, k, s, r) && FenRound(t, x, sched, s, mid, s', r)
    ensures SentInv(t, x, sched, s', r + 1, i)
    ensures Now(t, mid)((Finish(t, i), FinishAdder(t, i))) == s'.sent((Finish(t, i), FinishAdder(t, i)))
  {
    hide Keep, RoleAt, FinishFrom, Delivered, Sums, Foldable, Holds, FenNext, SentOnly, FoldInv, Now;
    TreeRound(t, x, sched, k, s, mid, s', r);
    DeliveredStep(t, sched, r, i);
    LinkHistory(t, x, sched, s.tree, r, i);
    LinkHistory(t, x, sched, s'.tree, r + 1, i);
    HandedOver(t, mid, s', i);
    SumsLength(t, x, i, Delivered(t, sched, r, i));
    assert mid.tree.memory == s.tree.memory;
  }

  lemma SumsLength(t: Tile, x: Psums, i: nat, w: nat)
    requires t.Valid() && i < |t.sizes|
    ensures |Sums(t, x, i, w)| == w
  {
  }

  /** What the fold node of VN i takes in in a round. */
  lemma BelowRound(t: Tile, x: Psums, sched: Schedule, k: nat, s: FenNet, mid: FenNet, s': FenNet, r: nat, i: nat)
    requires t.Valid() && Foldable(t) && i < |t.sizes|
    requires FenInv(t, x, sched, k, s, r) && FenRound(t, x, sched, s, mid, s', r)
    ensures var w, w' := Folded(t, sched, r, i), Folded(t, sched, r + 1, i);
      w <= w' <= w + 1 && Below(t.levels, mid, Now(t, mid), FoldOf(t, i)) == SumsFrom(t, x, i, w, w')
  {
    hide Keep, RoleAt, FinishFrom, Delivered, FoldNode, Below, FoldOf, Foldable, FenNext, Holds, FoldInv, Now, Sums;
    SentRound(t, x, sched, k, s, mid, s', r, i);
    assert SentOnly(t, mid.sent);
    BelowFold(t, mid, i);
    assert SentInv(t, x, sched, s, r, i);
  }

  /** Sums of one VN always match. */
  lemma OneVNMatches(a: Acc<real>, h: seq<Pkg>, more: seq<Pkg>, vn: nat)
    requires a.Valid() && a.input == [] && Accounts(a, h, PLUS) && forall p :: p in h + more ==> p.vn == vn
    ensures a.(input := more).Matches()
  {
    hide Accounts, BlockLength;
    assert h[..|h|] == h && a.input + more == more;
    MatchesHere(a, h, |h|, more, PLUS);
    SameVN(h + more, |h|, BlockLength(a.nPsums), vn);
  }

  lemma SameVN(all: seq<Pkg>, i: nat, b: nat, vn: nat)
    requires b >= 1 && forall p :: p in all ==> p.vn == vn
    ensures 0 <= i - i % b <= i && (i < |all| ==> all[i].vn == all[i - i % b].vn)
  {
    assert forall j :: 0 <= j < |all| ==> all[j] in all;
    assert i % b <= i by {
      assert i == (i / b) * b + i % b;
    }
  }

  /** One more sum, or none, taken in by an idle accumulator. */
  lemma TakeOne(a: Acc<real>, h: seq<Pkg>, more: seq<Pkg>, out: seq<Pkg>)
    requires a.Valid() && a.input == [] && |more| <= 1 && Accounts(a, h, PLUS)
    requires AreBlockSums(out, h, BlockLength(a.nPsums), PLUS)
    ensures var (a', o) := Absorb(a.(input := more), PLUS);
      && a'.input == [] && Accounts(a', h + more, PLUS)
      && AreBlockSums(out + o, h + more, BlockLength(a.nPsums), PLUS)
  {
    hide Accounts, AreBlockSums, Absorb, BlockLength;
    assert h[..|h|] == h && h[|h|..] == a.input;
    assert a.input + more == more;
    RouteCycle(a, h, |h|, more, out, PLUS);
    assert (h + more)[..|h + more|] == h + more;
  }

  lemma FoldIsSwitch(t: Tile, i: nat)
    requires t.Valid() && Foldable(t) && i < |t.sizes|
    ensures IsSwitch(t.levels, FoldOf(t, i)) && FoldOf(t, i).0 < t.levels
    ensures var c := FenConfigOf(t, FoldOf(t, i).0, FoldOf(t, i).1).adder; c.mode == Fold && c.memory
  {
    hide Keep, RoleAt, FinishFrom, FenSignalAfter, FenChildEnabled;
    FoldPosition(t.levels, Finish(t, i), FinishAdder(t, i));
    FoldKept(t, i, |t.sizes|);
  }

  lemma FoldRound(t: Tile, x: Psums, sched: Schedule, k: nat, s: FenNet, mid: FenNet, s': FenNet, r: nat, i: nat)
    requires t.Valid() && Foldable(t) && i < |t.sizes|
    requires FenInv(t, x, sched, k, s, r) && FenRound(t, x, sched, s, mid, s', r)
    ensures FoldInv(t, x, k, s', i, Folded(t, sched, r + 1, i))
    ensures Loaded(t.levels, mid, Now(t, mid), FoldOf(t, i)).Matches()
  {
    hide Keep, RoleAt, FoldOf, Foldable, Accounts, AreBlockSums, Absorb, Folded, Sums, SumsFrom, Below, FenConfigOf,
      Now, Holds, SentOnly, SentInv, Next, Arrive, Emitted;
    var id, w, w' := FoldOf(t, i), Folded(t, sched, r, i), Folded(t, sched, r + 1, i);
    BelowRound(t, x, sched, k, s, mid, s', r, i);
    FoldIsSwitch(t, i);
    SumsJoin(t, x, i, w, w');
    assert FoldInv(t, x, k, s, i, w);
    var a, more := mid.accs(id), Below(t.levels, mid, Now(t, mid), id);
    assert Folds(t, mid, s', id);
    assert a.input + more == more;
    TakeOne(a, Sums(t, x, i, w), more, mid.written(id));
    OneVNMatches(a, Sums(t, x, i, w), more, i);
  }

  lemma NotFolding(t: Tile, id: Id)
    requires t.Valid() && Foldable(t) && id.0 < t.levels && !FoldsOne(t, |t.sizes|, id)
    ensures var c := FenConfigOf(t, id.0, id.1).adder; c.mode != Fold && !c.memory
  {
    hide Keep, RoleAt, FinishFrom, FenConfigOf, ConfigOf, FoldsOne;
    if j: nat :| Uses(t, j, id.0, id.1) {
      UsedConfig(t, j, id.0, id.1);
    } else {
      UnusedConfig(t, id.0, id.1);
    }
  }

  /** Switches that are nobody's fold node take in and write nothing. */
  lemma OtherRound(t: Tile, mid: FenNet, s': FenNet, id: Id)
    requires t.Valid() && Foldable(t) && IsSwitch(t.levels, id) && !FoldsOne(t, |t.sizes|, id)
    requires SentOnly(t, mid.sent) && QuietAt(mid, id) && FenNext(t, mid, s')
    ensures QuietAt(s', id)
  {
    hide FenConfigOf, FoldsOne, Below, RunNode, SentOnly, Next, Now;
    NotFolding(t, id);
    BelowOther(t, mid, id);
    assert Folds(t, mid, s', id);
  }

  lemma FoldChecksHold(t: Tile, x: Psums, sched: Schedule, k: nat, s: FenNet, mid: FenNet, s': FenNet, r: nat, id: Id)
    requires t.Valid() && Foldable(t) && IsSwitch(t.levels, id)
    requires FenInv(t, x, sched, k, s, r) && FenRound(t, x, sched, s, mid, s', r)
    ensures FoldChecks(t, mid, id)
  {
    hide FenConfigOf, FoldOf, Below, RunNode, Foldable, FenNext, Loaded, Folded, Carries, FoldInv, Holds, Now,
      SentInv, Arrive;
    assert SentOnly(t, mid.sent);
    if i: nat :| i < |t.sizes| && id == FoldOf(t, i) {
      BelowRound(t, x, sched, k, s, mid, s', r, i);
      SumsJoin(t, x, i, Folded(t, sched, r, i), Folded(t, sched, r + 1, i));
      FoldRound(t, x, sched, k, s, mid, s', r, i);
      FoldIsSwitch(t, i);
      forall l: nat, n: nat | Carries(t.levels, mid, Now(t, mid), l, n, id)
        ensures l == Finish(t, i) && n == FinishAdder(t, i)
      {
        OneCarrier(t, mid, l, n, i);
      }
    } else {
      BelowOther(t, mid, id);
      NotFolding(t, id);
    }
  }

  lemma HoldsNode(t: Tile, x: Psums, s: Net, prev: Count, cur: Count, l: nat, n: nat)
    requires t.Valid() && Holds(t, x, s, prev, cur) && l < t.levels && n < Pow2(l)
    ensures NodeInv(t, x, s, prev, cur, l, n)
  {
  }

  /** In every round no check fails. */
  lemma RoundOk(t: Tile, x: Psums, sched: Schedule, k: nat, s: FenNet, mid: FenNet, s': FenNet, r: nat)
    requires t.Valid() && Foldable(t) && FenInv(t, x, sched, k, s, r) && FenRound(t, x, sched, s, mid, s', r)
    ensures FenOk(t, mid)
  {
    hide FenConfigOf, Foldable, Holds, AdderChecks, FoldChecks, NodeInv, FenInv, FenRound;
    TreeRound(t, x, sched, k, s, mid, s', r);
    forall l: nat, n: nat | l < t.levels && n < Pow2(l)
      ensures AdderChecks(FenConfigOf(t, l, n), mid.tree, l, n)
    {
      HoldsNode(t, x, mid.tree, PrevAt(t, sched, r), MidCount(t, sched, r), l, n);
      AdderChecksHold(t, x, mid.tree, PrevAt(t, sched, r), MidCount(t, sched, r), l, n);
    }
    forall id: Id | IsSwitch(t.levels, id)
      ensures FoldChecks(t, mid, id)
    {
      FoldChecksHold(t, x, sched, k, s, mid, s', r, id);
    }
  }

  /** Every round keeps the invariant. */
  lemma RoundInv(t: Tile, x: Psums, sched: Schedule, k: nat, s: FenNet, mid: FenNet, s': FenNet, r: nat)
    requires t.Valid() && Foldable(t) && FenInv(t, x, sched, k, s, r) && FenRound(t, x, sched, s, mid, s', r)
    ensures FenInv(t, x, sched, k, s', r + 1)
  {
    hide Foldable, Holds, SentInv, FoldInv, Folded, FoldsOne, Arrive, FenNext, Now, CountAt, PrevAt;
    TreeRound(t, x, sched, k, s, mid, s', r);
    assert SentOnly(t, s'.sent) by { SentNow(t, mid, s'); }
    ghost var r' := r + 1;
    forall i: nat | i < |t.sizes|
      ensures SentInv(t, x, sched, s', r', i) && FoldInv(t, x, k, s', i, Folded(t, sched, r', i))
    {
      SentRound(t, x, sched, k, s, mid, s', r, i);
      FoldRound(t, x, sched, k, s, mid, s', r, i);
    }
    forall id: Id | IsSwitch(t.levels, id) && !FoldsOne(t, |t.sizes|, id)
      ensures QuietAt(s', id)
    {
      assert QuietAt(s, id) && QuietAt(mid, id);
      OtherRound(t, mid, s', id);
    }
  }

  lemma SentNow(t: Tile, s: FenNet, s': FenNet)
    requires t.Valid() && FenNext(t, s, s')
    ensures SentOnly(t, s'.sent)
  {
    hide CompletesOne, Next, Folds, Now;
    NowOnly(t, s);
  }

  lemma FoldStart(t: Tile, x: Psums, k: nat, s: FenNet, i: nat)
    requires t.Valid() && i < |t.sizes| && s.accs(FoldOf(t, i)) == Fresh(k) && s.written(FoldOf(t, i)) == []
    ensures FoldInv(t, x, k, s, i, 0)
  {
    QuotientOf(0, BlockLength(k), 0, 0);
    assert Sums(t, x, i, 0) == [];
  }

  lemma StartInv(t: Tile, x: Psums, sched: Schedule, k: nat, s: FenNet)
    requires t.Valid() && Foldable(t) && FenSilent(s, t.levels, k)
    ensures FenInv(t, x, sched, k, s, 0)
  {
    hide Foldable, Holds, FoldInv, FoldsOne, Delivered, FoldOf, FinishFrom;
    EmptyHolds(t, x, sched, s.tree);
    forall i: nat | i < |t.sizes|
      ensures SentInv(t, x, sched, s, 0, i) && FoldInv(t, x, k, s, i, Folded(t, sched, 0, i))
    {
      DeliveredNone(t, sched, i);
      FoldIsSwitch(t, i);
      FoldStart(t, x, k, s, i);
      assert IsSwitch(t.levels, (Finish(t, i), FinishAdder(t, i)));
    }
  }

  // ----- whole runs

  lemma RunStep(t: Tile, x: Psums, sched: Schedule, k: nat, states: nat -> FenNet, mids: nat -> FenNet, r: nat)
    requires t.Valid() && FenRun(t, x, sched, k, states, mids)
    ensures FenRound(t, x, sched, states(r), mids(r), states(r + 1), r)
  {
    hide FenNext, Arrive, SameFolds;
    assert Arrive(t, x, sched, r, states(r).tree, mids(r).tree);
  }

  lemma {:induction false} FenHolds(t: Tile, x: Psums, sched: Schedule, k: nat, states: nat -> FenNet,
                                    mids: nat -> FenNet, r: nat)
    requires t.Valid() && Foldable(t) && FenRun(t, x, sched, k, states, mids)
    ensures FenInv(t, x, sched, k, states(r), r)
  {
    hide FenInv, FenRound, Foldable;
    if r == 0 {
      StartInv(t, x, sched, k, states(0));
    } else {
      FenHolds(t, x, sched, k, states, mids, r - 1);
      RunStep(t, x, sched, k, states, mids, r - 1);
      RoundInv(t, x, sched, k, states(r - 1), mids(r - 1), states(r), r - 1);
    }
  }

  ghost function Trees(nets: nat -> FenNet): nat -> Net {
    (r: nat) => nets(r).tree
  }

  /** The tree inside a run of the fold network is a run of the plain tree. */
  lemma TreeIsRun(t: Tile, x: Psums, sched: Schedule, k: nat, states: nat -> FenNet, mids: nat -> FenNet)
    requires t.Valid() && Foldable(t) && FenRun(t, x, sched, k, states, mids)
    ensures IsRun(t, x, sched, Trees(states), Trees(mids))
  {
    hide Keep, RoleAt, Holds, Next, Arrive, Foldable, FenInv, FenNext;
    forall r: nat
      ensures Arrive(t, x, sched, r, Trees(states)(r), Trees(mids)(r))
      ensures Next(t.levels, Compiled(t), Trees(mids)(r), Trees(states)(r + 1))
    {
      FenHolds(t, x, sched, k, states, mids, r);
      RunStep(t, x, sched, k, states, mids, r);
      TreeRound(t, x, sched, k, states(r), mids(r), states(r + 1), r);
    }
  }

  // ----- what the fold nodes have written, as plain sums

  /** The sums of VN i, wave by wave. */
  ghost function WaveSums(t: Tile, x: Psums, i: nat): nat -> real
    requires t.Valid() && i < |t.sizes|
  {
    (q: nat) => VNSum(t, x, i, q)
  }

  /** out: for every complete block of b among the first w waves, the plain sum of VN i over those waves. */
  ghost predicate BlockTotals(t: Tile, x: Psums, i: nat, out: seq<Pkg>, w: nat, b: nat)
    requires t.Valid() && i < |t.sizes| && b >= 1
  {
    && |out| == w / b
    && (forall j: nat :: j < |out| ==>
          0 <= j * b && out[j] == Package(i, Sigma(WaveSums(t, x, i), j * b, j * b + b)))
  }

  /** Folding sums of one VN by addition is summing them. */
  lemma {:induction false} FoldIsSigma(t: Tile, x: Psums, i: nat, w: nat, lo: nat, hi: nat)
    requires t.Valid() && i < |t.sizes| && lo < hi <= w
    ensures FoldLeft(Sums(t, x, i, w)[lo..hi], PLUS) == Package(i, Sigma(WaveSums(t, x, i), lo, hi))
    decreases hi
  {
    hide VNSum;
    var all := Sums(t, x, i, w);
    var s, f := all[lo..hi], WaveSums(t, x, i);
    assert s[|s| - 1] == Package(i, f(hi - 1)) && s[..|s| - 1] == all[lo..hi - 1];
    SigmaLast(f, lo, hi);
    if lo < hi - 1 {
      FoldIsSigma(t, x, i, w, lo, hi - 1);
    } else {
      assert Sigma(f, lo, lo) == 0.0;
    }
  }

  lemma TotalsOf(t: Tile, x: Psums, i: nat, out: seq<Pkg>, w: nat, b: nat)
    requires t.Valid() && i < |t.sizes| && b >= 1 && AreBlockSums(out, Sums(t, x, i, w), b, PLUS)
    ensures BlockTotals(t, x, i, out, w, b)
  {
    hide VNSum, FoldLeft, Sigma;
    SumsLength(t, x, i, w);
    forall j: nat | j < |out|
      ensures 0 <= j * b && out[j] == Package(i, Sigma(WaveSums(t, x, i), j * b, j * b + b))
    {
      BlockFits(w, b, j);
      FoldIsSigma(t, x, i, w, j * b, j * b + b);
    }
  }

  /** Every fold node has written the block sums of its own VN, and no other switch anything. */
  ghost predicate FoldsCorrect(t: Tile, x: Psums, sched: Schedule, k: nat, s: FenNet, r: nat)
    requires t.Valid()
  {
    && (forall i: nat :: i < |t.sizes| ==>
          && (k >= 1 ==> BlockTotals(t, x, i, s.written(FoldOf(t, i)), Folded(t, sched, r, i), k))
          && (k == 0 ==> BlockTotals(t, x, i, s.written(FoldOf(t, i)), Folded(t, sched, r, i), 0x1_0000_0000)))
    && (forall id: Id :: IsSwitch(t.levels, id) && s.written(id) != [] ==> FoldsOne(t, |t.sizes|, id))
  }

  lemma InvFolds(t: Tile, x: Psums, sched: Schedule, k: nat, s: FenNet, r: nat)
    requires t.Valid() && FenInv(t, x, sched, k, s, r)
    ensures FoldsCorrect(t, x, sched, k, s, r)
  {
    hide FoldOf, Holds, AreBlockSums, Accounts, Sums, Folded, FoldsOne, SentOnly, SentInv, BlockTotals;
    forall i: nat | i < |t.sizes|
      ensures BlockTotals(t, x, i, s.written(FoldOf(t, i)), Folded(t, sched, r, i), BlockLength(k))
    {
      assert FoldInv(t, x, k, s, i, Folded(t, sched, r, i));
      TotalsOf(t, x, i, s.written(FoldOf(t, i)), Folded(t, sched, r, i), BlockLength(k));
    }
  }

  /**
   The fold network.  In every run, whatever the psums and however they are skewed, no check ever
   fails; the fold node of VN i has written, for every complete block of k among the sums of VN i that
   have reached it, the plain sum over that block, in order; and no other switch has written anything.
   */
  lemma FoldCorrect(t: Tile, x: Psums, sched: Schedule, k: nat, states: nat -> FenNet, mids: nat -> FenNet, r: nat)
    requires t.Valid() && Foldable(t) && FenRun(t, x, sched, k, states, mids)
    ensures FenOk(t, mids(r))
    ensures FoldsCorrect(t, x, sched, k, states(r), r)
  {
    hide FenRun, Foldable, FenInv, FenRound, FenOk, FoldsCorrect;
    FenHolds(t, x, sched, k, states, mids, r);
    RunStep(t, x, sched, k, states, mids, r);
    RoundOk(t, x, sched, k, states(r), mids(r), states(r + 1), r);
    InvFolds(t, x, sched, k, states(r), r);
  }
}
