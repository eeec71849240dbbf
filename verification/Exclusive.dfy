/**
 Exclusivity: on a reducible tile an adder that a running VN uses is touched by no other
 VN, except for last-level adders split between two neighbouring VNs.
 */
module Exclusivity {
  import opened Layout
  import opened Tiles

  /** Two VNs that meet on an adder of the last level are neighbours and split its inputs. */
  lemma LeafNeighbours(t: Tile, i: nat, j: nat, n: nat)
    requires t.Valid() && i < j < |t.sizes|
    requires t.Cover(i, t.levels - 1).Has(n) && t.Cover(j, t.levels - 1).Has(n)
    ensures j == i + 1
    ensures t.Leaves(i).hi == 2 * n && t.Leaves(j).lo == 2 * n + 1
  {
    hide Keep, RoleAt;
    KeptOrdered(t, i, j, t.levels);
    OffsetMonotone(t, i, i + 1);
    OffsetMonotone(t, i + 1, j);
    SumSlice(t.sizes, i);
  }

  /** The adder over the last child of a range that ends on a left child. */
  lemma RightEnd(c: Span, n: nat)
    requires c.Valid() && c.hi == 2 * n
    ensures n % 2 == 1 ==> RoleAt(c, n) == Plain
    ensures n % 2 == 0 && c.hi - c.lo >= 2 ==> RoleAt(c, n) == Sender
  {
  }

  /** The adder over the first child of a range that starts on a right child. */
  lemma LeftEnd(c: Span, n: nat)
    requires c.Valid() && c.lo == 2 * n + 1
    ensures n % 2 == 0 ==> RoleAt(c, n) == Plain
    ensures n % 2 == 1 && c.hi - c.lo >= 2 ==> RoleAt(c, n) == Sender
  {
  }

  /** The left of two neighbours on an even adder leaves through the link. */
  lemma ShareEven(a: Span, b: Span, n: nat)
    requires a.Valid() && b.Valid() && a.hi == 2 * n && b.lo == 2 * n + 1 && n % 2 == 0
    requires a.hi - a.lo == 1 ==> a.lo % 4 != 3
    requires a.Single() && a.lo % 4 == 0 ==> b.Single()
    ensures (RoleAt(a, n) == Sender && RoleAt(b, n) == Plain) || (a.Single() && b.Single())
  {
    hide Keep, RoleAt;
    RightEnd(a, n);
    LeftEnd(b, n);
  }

  /** The right of two neighbours on an odd adder leaves through the link. */
  lemma ShareOdd(a: Span, b: Span, n: nat)
    requires a.Valid() && b.Valid() && a.hi == 2 * n && b.lo == 2 * n + 1 && n % 2 == 1
    requires b.hi - b.lo == 1 ==> b.lo % 4 != 3
    requires b.Single() && b.lo % 4 == 3 ==> a.Single()
    ensures (RoleAt(a, n) == Plain && RoleAt(b, n) == Sender) || (a.Single() && b.Single())
  {
    hide Keep, RoleAt;
    RightEnd(a, n);
    LeftEnd(b, n);
  }

  /** How two neighbours share an adder on a reducible tile. */
  lemma LeafShare(t: Tile, i: nat, n: nat)
    requires t.Valid() && t.Reducible() && i + 1 < |t.sizes|
    requires t.Cover(i, t.levels - 1).Has(n) && t.Cover(i + 1, t.levels - 1).Has(n)
    ensures t.Leaves(i).hi == 2 * n && t.Leaves(i + 1).lo == 2 * n + 1
    ensures var l := t.levels - 1;
      || (n % 2 == 1 && t.RoleOf(i, l, n) == Plain && t.RoleOf(i + 1, l, n) == Sender)
      || (n % 2 == 0 && t.RoleOf(i, l, n) == Sender && t.RoleOf(i + 1, l, n) == Plain)
      || (t.sizes[i] == t.sizes[i + 1] == 1)
  {
    hide Keep, RoleAt;
    LeafNeighbours(t, i, i + 1, n);
    assert t.ReducibleAt(i) && t.ReducibleAt(i + 1);
    if n % 2 == 0 {
      ShareEven(t.Leaves(i), t.Leaves(i + 1), n);
    } else {
      ShareOdd(t.Leaves(i), t.Leaves(i + 1), n);
    }
  }

  /** Two VNs on a last-level adder do not both keep it, unless both are complete there. */
  lemma LeafKeptExclusive(t: Tile, i: nat, j: nat, n: nat)
    requires t.Valid() && t.Reducible() && i < j < |t.sizes|
    requires t.Kept(i, t.levels - 1).Has(n) && t.Kept(j, t.levels - 1).Has(n)
    ensures t.sizes[i] == t.sizes[j] == 1
  {
    var a, b := t.Leaves(i), t.Leaves(j);
    assert t.Kept(i, t.levels) == a && t.Kept(j, t.levels) == b;
    KeepShape(a);
    KeepShape(b);
    LeafNeighbours(t, i, j, n);
    LeafShare(t, i, n);
    assert RoleAt(a, n) != Sender && RoleAt(b, n) != Sender;
  }

  lemma {:induction false} KeptExclusive(t: Tile, i: nat, j: nat, l: nat, n: nat)
    requires t.Valid() && t.Reducible() && i < |t.sizes| && j < |t.sizes| && i != j
    requires l < t.levels && !t.Kept(i, l).Single()
    ensures !(t.Kept(i, l).Has(n) && t.Kept(j, l).Has(n))
    decreases t.levels - l, 0
  {
    if t.Kept(i, l).Has(n) && t.Kept(j, l).Has(n) {
      if l == t.levels - 1 {
        if i < j {
          LeafKeptExclusive(t, i, j, n);
        } else {
          LeafKeptExclusive(t, j, i, n);
        }
      } else {
        KeepShape(t.Kept(i, l + 1));
        KeepShape(t.Kept(j, l + 1));
        assert t.Active(i, l);
        CoverExclusive(t, i, j, l, n);
      }
    }
  }

  lemma {:induction false} CoverExclusive(t: Tile, i: nat, j: nat, l: nat, n: nat)
    requires t.Valid() && t.Reducible() && i < |t.sizes| && j < |t.sizes| && i != j
    requires l < t.levels - 1 && t.Active(i, l)
    ensures !(t.Cover(i, l).Has(n) && t.Cover(j, l).Has(n))
    decreases t.levels - l - 1, 1
  {
    hide Keep, RoleAt;
    KeptBounds(t, i, l + 1);
    if i < j {
      KeptOrdered(t, i, j, l + 1);
      KeptOrdered(t, i, j, l);
      KeptExclusive(t, i, j, l + 1, t.Kept(i, l + 1).hi);
    } else {
      KeptOrdered(t, j, i, l + 1);
      KeptOrdered(t, j, i, l);
      KeptExclusive(t, i, j, l + 1, t.Kept(i, l + 1).lo);
    }
  }
}
