/**
 The fold network: every VN hands its sums to a fold node, the in-order successor of the
 adder that completes the VN.  The compiler and the wiring find that node by separate
 climbs; both find the same node, and no two VNs share one.
 */
module FoldNodes {
  import opened Prelude
  import opened Layout
  import opened Tiles
  import opened Exclusivity
  import opened Configured
  import opened Runs

  /** The extra switch beside the root. */
  const SPECIAL: Id := (0, 1)

  /** The first ancestor reached from a left child, or the extra switch. */
  function FoldNode(l: nat, n: nat): Id
    decreases l
  {
    if l == 0 then SPECIAL
    else if n % 2 == 0 then (l - 1, n / 2)
    else FoldNode(l - 1, n / 2)
  }

  /** A number with c trailing one bits under a zero bit leads c + 1 levels up; all ones lead to the extra switch,
      number 1 of level 0. */
  lemma {:induction false} FoldNodeIs(l: nat, c: nat, k: nat)
    requires c <= l
    ensures c < l ==> FoldNode(l, 2 * Pow2(c) * k + Pow2(c) - 1) == (l - c - 1, k)
    ensures FoldNode(l, Pow2(l) - 1) == (0, 1)
  {
    if c < l {
      OnesUnderZero(l, c, k);
    }
    AllOnes(l);
  }

  lemma {:induction false} OnesUnderZero(l: nat, c: nat, k: nat)
    requires c < l
    ensures FoldNode(l, 2 * Pow2(c) * k + Pow2(c) - 1) == (l - c - 1, k)
    decreases l
  {
    if c > 0 {
      OnesUnderZero(l - 1, c - 1, k);
      DropBit(Pow2(c - 1), k);
    }
  }

  lemma DropBit(p: nat, k: nat)
    requires p >= 1
    ensures var n := 2 * (2 * p) * k + 2 * p - 1; n % 2 == 1 && n / 2 == 2 * p * k + p - 1
  {
    assert 2 * (2 * p) * k == 2 * (2 * p * k);
  }

  lemma {:induction false} AllOnes(l: nat)
    ensures FoldNode(l, Pow2(l) - 1) == (0, 1)
  {
    if l > 0 {
      AllOnes(l - 1);
    }
  }

  /** Strips trailing one bits: how many, and what is left. */
  method StripOnes(n: nat, ghost l: nat) returns (count: nat, rest: nat)
    requires n < Pow2(l)
    ensures rest % 2 == 0 && count <= l && rest < Pow2(l - count)
    ensures FoldNode(l, n) == FoldNode(l - count, rest)
  {
    count, rest := 0, n;
    while rest % 2 != 0
      invariant count <= l && rest < Pow2(l - count)
      invariant FoldNode(l, n) == FoldNode(l - count, rest)
      decreases rest
    {
      count := count + 1;
      rest := rest / 2;
    }
  }

  /** The fold node the compiler enables for a VN completed in adder (l, n). */
  method CompilerTarget(l: nat, n: nat) returns (id: Id)
    requires n < Pow2(l)
    ensures id == FoldNode(l, n)
  {
    if l == 0 {
      id := SPECIAL;
    } else if n % 2 == 0 {
      id := (l - 1, n / 2);
    } else {
      var count, rest := StripOnes(n, l);
      var level: int := l - count - 1;
      if level < 0 {
        id := SPECIAL;
      } else {
        id := (level, rest / 2);
      }
    }
  }

  /** The switch the network wires the folding link of adder (i, j) to. */
  method WiredTarget(i: nat, j: nat) returns (id: Id)
    requires j < Pow2(i)
    ensures id == FoldNode(i, j)
  {
    if i == 0 {
      id := SPECIAL;
    } else {
      if j % 2 == 0 {
        id := (i - 1, j / 2);
      } else {
        var count, rest := StripOnes(j, i);
        var level: int := i - count - 1;
        if level < 0 {
          id := SPECIAL;
        } else {
          id := (level, rest / 2);
        }
      }
    }
  }

  // ----- in-order positions, counted in adders of the last level

  /** The first last-level adder to the right of the subtree of (l, n). */
  function RightEdge(levels: nat, l: nat, n: nat): nat
    requires l < levels
  {
    (n + 1) * Pow2(levels - 1 - l)
  }

  /** Where adder id sits between the last-level adders. */
  function Position(levels: nat, id: Id): nat
    requires id.0 < levels
  {
    if id == SPECIAL then Pow2(levels - 1)
    else if id.0 == levels - 1 then 0
    else (2 * id.1 + 1) * Pow2(levels - 2 - id.0)
  }

  /** The fold node is the in-order successor: it sits at the right edge of the subtree. */
  lemma {:induction false} FoldPosition(levels: nat, l: nat, n: nat)
    requires l < levels && n < Pow2(l)
    ensures var id := FoldNode(l, n);
      && id.0 < levels && Position(levels, id) == RightEdge(levels, l, n)
      && (id == SPECIAL || (id.0 < l && id.1 < Pow2(id.0)))
    decreases l
  {
    if l == 0 {
    } else if n % 2 == 0 {
      assert (2 * (n / 2) + 1) == n + 1;
    } else {
      FoldPosition(levels, l - 1, n / 2);
      assert Pow2(levels - 1 - (l - 1)) == 2 * Pow2(levels - 1 - l);
      DoubleEdge(n, Pow2(levels - 1 - l));
    }
  }

  lemma DoubleEdge(n: nat, w: nat)
    requires n % 2 == 1
    ensures (n / 2 + 1) * (2 * w) == (n + 1) * w
  {
    assert n == 2 * (n / 2) + 1;
  }

  // ----- allocation

  /** The fold node of VN i. */
  ghost function FoldOf(t: Tile, i: nat): Id
    requires t.Valid() && i < |t.sizes|
  {
    FoldNode(Finish(t, i), FinishAdder(t, i))
  }

  /** All last-level adders below an adder that VN i keeps, or uses above the last level, are the VN's. */
  lemma {:induction false} SubtreeKept(t: Tile, i: nat, l: nat, n: nat, p: nat)
    requires t.Valid() && i < |t.sizes| && l < t.levels
    requires Keeps(t, i, l, n) || (Uses(t, i, l, n) && l < t.levels - 1)
    requires n * Pow2(t.levels - 1 - l) <= p < (n + 1) * Pow2(t.levels - 1 - l)
    ensures t.Kept(i, t.levels - 1).Has(p)
    decreases t.levels - l
  {
    hide Keep, RoleAt;
    if l < t.levels - 1 {
      KeepShape(t.Kept(i, l + 1));
      ActiveFull(t, i, l, n);
      var w := Pow2(t.levels - 2 - l);
      assert Pow2(t.levels - 1 - l) == 2 * w;
      var c := if p < (2 * n + 1) * w then 2 * n else 2 * n + 1;
      HalfRange(n, w, p, c);
      SubtreeKept(t, i, l + 1, c, p);
    }
  }

  lemma HalfRange(n: nat, w: nat, p: nat, c: nat)
    requires n * (2 * w) <= p < (n + 1) * (2 * w)
    requires c == if p < (2 * n + 1) * w then 2 * n else 2 * n + 1
    ensures c * w <= p < (c + 1) * w
  {
    assert n * (2 * w) == (2 * n) * w && (n + 1) * (2 * w) == (2 * n + 2) * w;
  }

  /** The right edge of the completing adder lies within the VN's last-level adders, or just after. */
  lemma EdgeInVN(t: Tile, i: nat)
    requires t.Valid() && i < |t.sizes|
    ensures var e := RightEdge(t.levels, Finish(t, i), FinishAdder(t, i));
      e > 0 && t.Kept(i, t.levels - 1).Has(e - 1)
  {
    hide Keep, RoleAt;
    var l, n := Finish(t, i), FinishAdder(t, i);
    var w := Pow2(t.levels - 1 - l);
    assert (n + 1) * w == n * w + w;
    assert Keeps(t, i, l, n);
    SubtreeKept(t, i, l, n, (n + 1) * w - 1);
  }

  /** No two VNs of one multiplier share an adder: every VN then has last-level adders of its own. */
  ghost predicate Foldable(t: Tile)
    requires t.Valid()
  {
    t.Reducible() && forall i :: 0 <= i < |t.sizes| - 1 ==> ApartAt(t, i)
  }

  ghost predicate ApartAt(t: Tile, i: nat)
    requires i + 1 < |t.sizes|
  {
    t.sizes[i] == t.sizes[i + 1] == 1 ==> t.Offset(i) % 2 == 1
  }

  lemma OwnLastLevel(t: Tile, i: nat, j: nat, p: nat)
    requires t.Valid() && Foldable(t) && i < |t.sizes| && j < |t.sizes|
    requires t.Kept(i, t.levels - 1).Has(p) && t.Kept(j, t.levels - 1).Has(p)
    ensures i == j
  {
    hide Keep, RoleAt, Foldable;
    if i < j {
      NotShared(t, i, j, p);
    } else if j < i {
      NotShared(t, j, i, p);
    }
  }

  lemma NotShared(t: Tile, i: nat, j: nat, p: nat)
    requires t.Valid() && Foldable(t) && i < j < |t.sizes|
    ensures !(t.Kept(i, t.levels - 1).Has(p) && t.Kept(j, t.levels - 1).Has(p))
  {
    hide Keep, RoleAt, Sum;
    if t.Kept(i, t.levels - 1).Has(p) && t.Kept(j, t.levels - 1).Has(p) {
      KeepShape(t.Kept(i, t.levels));
      KeepShape(t.Kept(j, t.levels));
      LeafNeighbours(t, i, j, p);
      assert ApartAt(t, i);
      LeafKeptExclusive(t, i, j, p);
    }
  }

  /** Distinct VNs get distinct fold nodes. */
  lemma FoldNodesDistinct(t: Tile, i: nat, j: nat)
    requires t.Valid() && Foldable(t) && i < |t.sizes| && j < |t.sizes|
    requires FoldOf(t, i) == FoldOf(t, j)
    ensures i == j
  {
    hide Keep, RoleAt, RightEdge, Position;
    EdgeInVN(t, i);
    EdgeInVN(t, j);
    FoldPosition(t.levels, Finish(t, i), FinishAdder(t, i));
    FoldPosition(t.levels, Finish(t, j), FinishAdder(t, j));
    OwnLastLevel(t, i, j, RightEdge(t.levels, Finish(t, i), FinishAdder(t, i)) - 1);
  }

  lemma ActiveBelowFinish(t: Tile, i: nat, l: nat)
    requires t.Valid() && i < |t.sizes| && l < Finish(t, i)
    ensures !t.Active(i, l)
  {
    hide Keep, RoleAt;
    StaysSingle(t, i, Finish(t, i), l + 1);
  }

  /** The last-level adder just left of adder (l, n) is in its subtree. */
  lemma PositionInSubtree(levels: nat, l: nat, n: nat)
    requires l + 1 < levels && (l, n) != SPECIAL
    ensures var e := Position(levels, (l, n));
      e > 0 && n * Pow2(levels - 1 - l) <= e - 1 < (n + 1) * Pow2(levels - 1 - l)
  {
    var w := Pow2(levels - 2 - l);
    assert Pow2(levels - 1 - l) == 2 * w;
    assert (2 * n + 1) * w == n * (2 * w) + w;
    assert (n + 1) * (2 * w) == n * (2 * w) + 2 * w;
  }

  /** No fold node is used as an adder by any VN. */
  lemma FoldNodesUnused(t: Tile, i: nat, j: nat)
    requires t.Valid() && Foldable(t) && i < |t.sizes|
    ensures FoldOf(t, i).0 < t.levels && !Uses(t, j, FoldOf(t, i).0, FoldOf(t, i).1)
  {
    hide Keep, RoleAt, RightEdge, Position;
    var id := FoldOf(t, i);
    FoldPosition(t.levels, Finish(t, i), FinishAdder(t, i));
    if Uses(t, j, id.0, id.1) {
      KeptBounds(t, j, id.0);
      var e := Position(t.levels, id);
      EdgeInVN(t, i);
      PositionInSubtree(t.levels, id.0, id.1);
      SubtreeKept(t, j, id.0, id.1, e - 1);
      OwnLastLevel(t, i, j, e - 1);
      ActiveBelowFinish(t, i, id.0);
    }
  }
}
