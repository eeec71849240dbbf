/** The fold network runs on every tile, and on which dense tiles it runs without failing a check. */
module FoldExactness {
  import opened Prelude
  import opened Layout
  import opened Tiles
  import opened Signals
  import opened Switches
  import opened Flow
  import opened Networks
  import opened Runs
  import opened Exactness
  import opened FoldNodes
  import opened FoldCompiler
  import opened Accumulation
  import opened FoldNetworks
  import opened FoldRuns
  import opened FoldSwitches

  // ----- runs exist

  /** The state after one cycle of the fold network. */
  ghost function FenStep(t: Tile, s: FenNet): FenNet
    requires t.Valid()
  {
    var now := Now(t, s);
    var once := (id: Id) =>
      if id.0 < t.levels then
        var c := FenConfigOf(t, id.0, id.1);
        FoldOnce(c, Loaded(t.levels, s, now, id), Emitted(c, s.tree, id))
      else (s.accs(id), []);
    FenNet(NextNet(t.levels, FenTree(t), s.tree), now, (id: Id) => once(id).0, (id: Id) => s.written(id) + once(id).1)
  }

  lemma StepIsNext(t: Tile, s: FenNet)
    requires t.Valid()
    ensures FenNext(t, s, FenStep(t, s))
  {
    hide FenConfigOf, NextNet, Next, Below, Now, FoldOnce, Emitted;
    FenWellLinked(t);
    NextExists(t.levels, FenTree(t), s.tree);
  }

  ghost function FenStart(k: nat): FenNet {
    FenNet(Net(map[], map[], map[], map[]), (id: Id) => [], (id: Id) => Fresh(k), (id: Id) => [])
  }

  ghost function FenMid(t: Tile, x: Psums, sched: Schedule, r: nat, s: FenNet): FenNet {
    s.(tree := MidState(t, x, sched, r, s.tree))
  }

  ghost function FenAt(t: Tile, x: Psums, sched: Schedule, k: nat, r: nat): FenNet
    requires t.Valid()
  {
    if r == 0 then FenStart(k) else FenStep(t, FenMid(t, x, sched, r - 1, FenAt(t, x, sched, k, r - 1)))
  }

  ghost function FenStates(t: Tile, x: Psums, sched: Schedule, k: nat): nat -> FenNet
    requires t.Valid()
  {
    (r: nat) => FenAt(t, x, sched, k, r)
  }

  ghost function FenMids(t: Tile, x: Psums, sched: Schedule, k: nat): nat -> FenNet
    requires t.Valid()
  {
    (r: nat) => FenMid(t, x, sched, r, FenAt(t, x, sched, k, r))
  }

  /** Every tile has a run of the fold network, for any psums, any schedule and any block length. */
  lemma FenRunExists(t: Tile, x: Psums, sched: Schedule, k: nat)
    requires t.Valid()
    ensures FenRun(t, x, sched, k, FenStates(t, x, sched, k), FenMids(t, x, sched, k))
  {
    hide Arrive, MidState, FenStep, FenNext;
    var states, mids := FenStates(t, x, sched, k), FenMids(t, x, sched, k);
    forall r: nat
      ensures Arrive(t, x, sched, r, states(r).tree, mids(r).tree) && SameFolds(states(r), mids(r))
      ensures FenNext(t, mids(r), states(r + 1))
    {
      MidArrives(t, x, sched, r, states(r).tree);
      StepIsNext(t, mids(r));
    }
  }

  // ----- dense tiles

  /** A dense tile is foldable when its VNs have two or more multipliers, or when there is only one. */
  lemma DenseFoldable(levels: nat, count: nat, size: nat)
    requires levels >= 1 && size >= 1 && count * size <= Pow2(levels) && (size >= 2 || count <= 1)
    ensures var t := Tile(levels, seq(count, _ => size)); t.Valid() && Foldable(t)
  {
    hide Sum;
    DenseReducible(levels, count, size);
  }

  lemma FirstTwo(t: Tile)
    requires t.Valid() && |t.sizes| >= 2 && t.sizes[0] == t.sizes[1] == 1
    ensures t.Leaves(0) == Span(0, 0) && t.Leaves(1) == Span(1, 1)
    ensures t.Kept(0, t.levels - 1) == t.Kept(1, t.levels - 1) == Span(0, 0)
    ensures Finish(t, 0) == Finish(t, 1) == t.levels - 1 && FinishAdder(t, 0) == FinishAdder(t, 1) == 0
  {
    SumSlice(t.sizes, 0);
    assert t.Kept(0, t.levels) == t.Leaves(0) == Span(0, 0) && t.Kept(1, t.levels) == t.Leaves(1) == Span(1, 1);
    FinishUnique(t, 0, t.levels - 1, 0);
    FinishUnique(t, 1, t.levels - 1, 0);
  }

  /** VNs 0 and 1 of one multiplier each meet in the first adder, so they would share a fold node. */
  lemma SingleClash(t: Tile)
    requires t.Valid() && |t.sizes| >= 2 && t.sizes[0] == t.sizes[1] == 1
    ensures FoldOf(t, 0) == FoldOf(t, 1)
  {
    hide FoldNode, FinishFrom, Keep;
    FirstTwo(t);
  }

  /** The VNs of a dense tile get distinct fold nodes exactly when they have two multipliers or more. */
  lemma DenseFoldNodes(levels: nat, count: nat, size: nat)
    requires levels >= 1 && size >= 1 && count * size <= Pow2(levels)
    ensures var t := Tile(levels, seq(count, _ => size));
      && t.Valid()
      && ((forall i: nat, j: nat :: i < j < count ==> FoldOf(t, i) != FoldOf(t, j)) <==> size >= 2 || count <= 1)
  {
    hide FoldOf, Foldable;
    DenseReducible(levels, count, size);
    var t := Tile(levels, seq(count, _ => size));
    if size >= 2 {
      DenseFoldable(levels, count, size);
      forall i: nat, j: nat | i < j < count
        ensures FoldOf(t, i) != FoldOf(t, j)
      {
        if FoldOf(t, i) == FoldOf(t, j) {
          FoldNodesDistinct(t, i, j);
        }
      }
    } else if count >= 2 {
      SingleClash(t);
    }
  }

  // ----- one multiplier per VN

  /** The signals of the first last-level adder when the first two VNs have one multiplier each and
      no later VN reaches it: the second VN finds the adder taken and has both passed through. */
  lemma {:induction false} FirstSignal(t: Tile, k: nat)
    requires t.Valid() && 2 <= k <= |t.sizes| && t.sizes[0] == t.sizes[1] == 1
    ensures FenSignalAfter(t, k, t.levels - 1, 0) == Signal(Some(Fw22), None)
  {
    hide FoldNode, FinishFrom, Keep, RoleAt;
    var l := t.levels - 1;
    FirstTwo(t);
    NotLastLevel(t, k - 1);
    if k == 2 {
      NotLastLevel(t, 0);
      PlainAt(t.Leaves(0));
      PlainAt(t.Leaves(1));
      assert FenSignalAfter(t, 1, l, 0) == Claim(BLANK, t.RoleOf(0, l, 0));
    } else {
      FirstSignal(t, k - 1);
      KeptOrdered(t, 1, k - 1, t.levels);
      IdleClaim(t.Kept(k - 1, t.levels), 0, FenSignalAfter(t, k - 1, l, 0));
    }
  }

  lemma PlainAt(c: Span)
    requires c == Span(0, 0) || c == Span(1, 1)
    ensures RoleAt(c, 0) == Plain
  {
  }

  /** A fold node is never on the last level. */
  lemma NotLastLevel(t: Tile, i: nat)
    requires t.Valid() && i < |t.sizes|
    ensures FoldOf(t, i) != (t.levels - 1, 0)
  {
    hide Keep, FinishFrom, RightEdge, Position;
    FoldPosition(t.levels, Finish(t, i), FinishAdder(t, i));
  }

  /** The first adder then passes everything on to one fold node. */
  lemma FirstConfig(t: Tile)
    requires t.Valid() && |t.sizes| >= 2 && t.sizes[0] == t.sizes[1] == 1
    ensures var c := FenConfigOf(t, t.levels - 1, 0);
      c.adder.mode == Fw22 && c.adder.fw == None && !c.adder.memory && c.toFold
  {
    hide FenSignalAfter, FenChildEnabled, FoldNode, FinishFrom, Keep;
    FirstSignal(t, |t.sizes|);
    FirstTwo(t);
    forall i: nat | i < |t.sizes|
      ensures FoldOf(t, i) != (t.levels - 1, 0)
    {
      NotLastLevel(t, i);
    }
  }

  /** In the first cycle of a wave that adder hands over two packages at once. */
  lemma TwoHanded(t: Tile, x: Psums, s: FenNet, mid: FenNet)
    requires t.Valid() && |t.sizes| >= 2 && t.sizes[0] == t.sizes[1] == 1
    requires Silent(s.tree) && Arrive(t, x, ONCE, 0, s.tree, mid.tree)
    ensures |Now(t, mid)((t.levels - 1, 0))| == 2
  {
    hide FenConfigOf, Keep, FinishFrom, Sum;
    var l := t.levels - 1;
    FirstTwo(t);
    FirstConfig(t);
    FirstArrival(t, 0, 0);
    FirstArrival(t, 1, 1);
    assert s.tree.Q(l, 0) == NO_QUEUES && mid.tree.Q(l, 0) == NO_QUEUES;
    assert |mid.tree.Wire(t.levels, 0)| == 1 && |mid.tree.Wire(t.levels, 1)| == 1;
  }

  /** A link with two packages fails the check of the switch it ends in. */
  lemma TwoFail(t: Tile, s: FenNet, l: nat, n: nat)
    requires t.Valid() && l < t.levels && n < Pow2(l) && |Seen(s, Now(t, s), (l, n))| == 2
    ensures !FenOk(t, s)
  {
    hide FenConfigOf, Now, Seen, Loaded, AdderChecks, RightEdge, Position;
    var id := FoldNode(l, n);
    FoldPosition(t.levels, l, n);
    assert IsSwitch(t.levels, id) && Carries(t.levels, s, Now(t, s), l, n, id);
    if FoldChecks(t, s, id) {
      OnlyBelow(t.levels, s, Now(t, s), l, n, id);
    }
  }

  /** No run of the fold network ever fails a check. */
  ghost predicate AlwaysFolds(t: Tile)
    requires t.Valid()
  {
    forall x: Psums, sched: Schedule, k: nat, states: nat -> FenNet, mids: nat -> FenNet, r: nat ::
      FenRun(t, x, sched, k, states, mids) ==> FenOk(t, mids(r))
  }

  lemma NotAlways(t: Tile, x: Psums, sched: Schedule, k: nat, states: nat -> FenNet, mids: nat -> FenNet, r: nat)
    requires t.Valid() && FenRun(t, x, sched, k, states, mids) && !FenOk(t, mids(r))
    ensures !AlwaysFolds(t)
  {
    hide FenRun, FenOk;
  }

  /** One wave is enough: the two packages reach the fold node in the same cycle when it is the extra
      switch beside the root, and one cycle later otherwise. */
  lemma WaveFails(t: Tile, x: Psums, k: nat, states: nat -> FenNet, mids: nat -> FenNet) returns (r: nat)
    requires t.Valid() && |t.sizes| >= 2 && t.sizes[0] == t.sizes[1] == 1 && FenRun(t, x, ONCE, k, states, mids)
    ensures !FenOk(t, mids(r))
  {
    hide FenRun, FenOk, Now, Seen;
    r := if t.levels == 1 then 0 else 1;
    FirstHanded(t, x, k, states, mids);
    if r == 0 {
      SeenNow(mids(r), Now(t, mids(r)));
    } else {
      SeenLater(t, x, ONCE, k, states, mids, (t.levels - 1, 0));
    }
    TwoFail(t, mids(r), t.levels - 1, 0);
  }

  lemma FirstHanded(t: Tile, x: Psums, k: nat, states: nat -> FenNet, mids: nat -> FenNet)
    requires t.Valid() && |t.sizes| >= 2 && t.sizes[0] == t.sizes[1] == 1 && FenRun(t, x, ONCE, k, states, mids)
    ensures |Now(t, mids(0))((t.levels - 1, 0))| == 2
  {
    hide FenRun, Now, FenNext, Arrive, Silent, SameFolds;
    RunSilent(t, x, ONCE, k, states, mids);
    RunStep(t, x, ONCE, k, states, mids, 0);
    TwoHanded(t, x, states(0), mids(0));
  }

  lemma SeenNow(s: FenNet, now: Id -> seq<Pkg>)
    ensures Seen(s, now, (0, 0)) == now((0, 0))
  {
  }

  lemma SeenLater(t: Tile, x: Psums, sched: Schedule, k: nat, states: nat -> FenNet, mids: nat -> FenNet, id: Id)
    requires t.Valid() && FenRun(t, x, sched, k, states, mids) && IsAdder(t.levels, id) && id != (0, 0)
    ensures Seen(mids(1), Now(t, mids(1)), id) == Now(t, mids(0))(id)
  {
    hide FenRun, Now, FenNext, Arrive;
    RunStep(t, x, sched, k, states, mids, 0);
    RunStep(t, x, sched, k, states, mids, 1);
    SentIs(t, mids(0), states(1), id);
  }

  lemma SinglesFail(t: Tile)
    requires t.Valid() && |t.sizes| >= 2 && t.sizes[0] == t.sizes[1] == 1
    ensures !AlwaysFolds(t)
  {
    hide FenRun, FenOk, AlwaysFolds, FenStates, FenMids;
    FenRunExists(t, ONES, ONCE, 1);
    var r := WaveFails(t, ONES, 1, FenStates(t, ONES, ONCE, 1), FenMids(t, ONES, ONCE, 1));
    NotAlways(t, ONES, ONCE, 1, FenStates(t, ONES, ONCE, 1), FenMids(t, ONES, ONCE, 1), r);
  }

  lemma RunSilent(t: Tile, x: Psums, sched: Schedule, k: nat, states: nat -> FenNet, mids: nat -> FenNet)
    requires t.Valid() && FenRun(t, x, sched, k, states, mids)
    ensures Silent(states(0).tree)
  {
    hide Silent, FenNext, Arrive;
  }

  lemma SentIs(t: Tile, s: FenNet, s': FenNet, id: Id)
    requires t.Valid() && FenNext(t, s, s') && IsAdder(t.levels, id)
    ensures s'.sent(id) == Now(t, s)(id)
  {
    hide Next, Folds, Now;
  }

  /** The exact condition: no run of the fold network on a dense tile ever fails a check if and only
      if its VNs have two or more multipliers, or there is only one VN. */
  lemma DenseFoldsExactly(levels: nat, count: nat, size: nat)
    requires levels >= 1 && size >= 1 && count * size <= Pow2(levels)
    ensures var t := Tile(levels, seq(count, _ => size));
      t.Valid() && (AlwaysFolds(t) <==> size >= 2 || count <= 1)
  {
    hide FenRun, FenOk, Foldable, FoldsCorrect;
    var t := Tile(levels, seq(count, _ => size));
    DenseReducible(levels, count, size);
    if size >= 2 || count <= 1 {
      DenseFoldable(levels, count, size);
      forall x: Psums, sched: Schedule, k: nat, states: nat -> FenNet, mids: nat -> FenNet, r: nat
        | FenRun(t, x, sched, k, states, mids)
        ensures FenOk(t, mids(r))
      {
        FoldCorrect(t, x, sched, k, states, mids, r);
      }
    } else {
      SinglesFail(t);
    }
  }
}
