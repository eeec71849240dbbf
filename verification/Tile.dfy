/**
 A tile: contiguous virtual neurons laid out from multiplier 0 on a tree with
 2^levels multipliers, and what each VN holds at every level of the tree.
 */
module Tiles {
  import opened Prelude
  import opened Layout

  datatype Tile = Tile(levels: nat, sizes: seq<nat>) {

    /** At least one adder, no empty VN, and all VNs fit on the multipliers. */
    ghost predicate Valid() {
      && levels >= 1
      && (forall i :: 0 <= i < |sizes| ==> sizes[i] >= 1)
      && Used() <= Pow2(levels)
    }

    function Used(): nat {
      Sum(sizes)
    }

    function Offset(i: nat): nat
      requires i <= |sizes|
    {
      Sum(sizes[..i])
    }

    /** The multipliers of VN i. */
    function Leaves(i: nat): Span
      requires i < |sizes| && sizes[i] >= 1
    {
      Span(Offset(i), Offset(i) + sizes[i] - 1)
    }

    /** The adders of level l (or the multipliers) that hold a partial sum of VN i. */
    ghost function Kept(i: nat, l: nat): (k: Span)
      requires Valid() && i < |sizes| && l <= levels
      ensures k.Valid()
      decreases levels - l
    {
      if l == levels then Leaves(i)
      else
        KeepShape(Kept(i, l + 1));
        Keep(Kept(i, l + 1))
    }

    /** The adders of level l above some kept child of VN i. */
    ghost function Cover(i: nat, l: nat): (k: Span)
      requires Valid() && i < |sizes| && l < levels
    {
      Kept(i, l + 1).Parents()
    }

    ghost function RoleOf(i: nat, l: nat, n: nat): Role
      requires Valid() && i < |sizes| && l < levels
    {
      RoleAt(Kept(i, l + 1), n)
    }

    /** VN i is not complete below level l, so its data still flows through level l. */
    ghost predicate Active(i: nat, l: nat)
      requires Valid() && i < |sizes| && l < levels
    {
      l == levels - 1 || !Kept(i, l + 1).Single()
    }

    /** VN i gets complete in adder n of level l. */
    ghost predicate Completes(i: nat, l: nat, n: nat)
      requires Valid() && i < |sizes| && l < levels
    {
      Active(i, l) && Kept(i, l) == Span(n, n)
    }

    /**
     The tiles the tree can reduce.  A two-multiplier VN must not start at 3 mod 4, and a
     one-multiplier VN sharing an adder with a longer VN must be on the side of that adder
     that the longer VN leaves through the forwarding link.
     */
    ghost predicate Reducible()
      requires Valid()
    {
      forall i :: 0 <= i < |sizes| ==> ReducibleAt(i)
    }

    ghost predicate ReducibleAt(i: nat)
      requires Valid() && i < |sizes|
    {
      && (sizes[i] == 2 ==> Offset(i) % 4 != 3)
      && (sizes[i] == 1 && Offset(i) % 4 == 0 && i + 1 < |sizes| ==> sizes[i + 1] == 1)
      && (sizes[i] == 1 && Offset(i) % 4 == 3 && i > 0 ==> sizes[i - 1] == 1)
    }
  }

  // ----- offsets

  lemma SumSlice(sizes: seq<nat>, i: nat)
    requires i < |sizes|
    ensures Sum(sizes[..i + 1]) == Sum(sizes[..i]) + sizes[i]
  {
    assert sizes[..i + 1][..i] == sizes[..i];
  }

  lemma {:induction false} OffsetMonotone(t: Tile, i: nat, j: nat)
    requires i <= j <= |t.sizes|
    ensures t.Offset(i) <= t.Offset(j) <= t.Used()
    ensures i < j ==> t.Offset(i) + t.sizes[i] <= t.Offset(j)
    decreases |t.sizes| - i, |t.sizes| - j
  {
    assert t.sizes[..|t.sizes|] == t.sizes;
    if j < |t.sizes| {
      SumSlice(t.sizes, j);
      OffsetMonotone(t, i, j + 1);
      if i < j {
        SumSlice(t.sizes, i);
        OffsetMonotone(t, i + 1, j);
      }
    } else if i < j {
      SumSlice(t.sizes, i);
      OffsetMonotone(t, i + 1, j);
    }
  }

  lemma {:induction false} DenseOffset(n: nat, size: nat)
    ensures Sum(seq(n, _ => size)) == n * size
  {
    if n > 0 {
      var s := seq(n, _ => size);
      assert s[..n - 1] == seq(n - 1, _ => size);
      DenseOffset(n - 1, size);
    }
  }

  lemma {:induction false} OwnerExists(t: Tile, m: nat, i: nat) returns (j: nat)
    requires t.Valid() && i <= |t.sizes| && m < t.Offset(i)
    ensures j < i && t.Leaves(j).Has(m)
  {
    SumSlice(t.sizes, i - 1);
    if t.Offset(i - 1) <= m {
      j := i - 1;
    } else {
      j := OwnerExists(t, m, i - 1);
    }
  }

  // ----- the level invariant

  lemma {:induction false} KeptBounds(t: Tile, i: nat, l: nat)
    requires t.Valid() && i < |t.sizes| && l <= t.levels
    ensures t.Kept(i, l).hi < Pow2(l)
    ensures l < t.levels ==> t.Kept(i, l).Single() || t.Kept(i, l).Run()
    ensures l < t.levels ==> t.Cover(i, l).hi < Pow2(l)
    decreases t.levels - l
  {
    if l == t.levels {
      OffsetMonotone(t, i, |t.sizes|);
    } else {
      KeptBounds(t, i, l + 1);
      KeepShape(t.Kept(i, l + 1));
    }
  }

  /** Later VNs lie weakly to the right at every level. */
  lemma {:induction false} KeptOrdered(t: Tile, i: nat, j: nat, l: nat)
    requires t.Valid() && i < j < |t.sizes| && l <= t.levels
    ensures t.Kept(i, l).hi <= t.Kept(j, l).lo
    ensures l == t.levels ==> t.Kept(i, l).hi < t.Kept(j, l).lo
    ensures l < t.levels ==> t.Cover(i, l).hi <= t.Cover(j, l).lo
    decreases t.levels - l
  {
    if l == t.levels {
      OffsetMonotone(t, i, j);
    } else {
      KeptOrdered(t, i, j, l + 1);
      KeepShape(t.Kept(i, l + 1));
      KeepShape(t.Kept(j, l + 1));
    }
  }

  /** A VN that is complete stays a single adder up to the root. */
  lemma {:induction false} SingleStays(t: Tile, i: nat, l: nat)
    requires t.Valid() && i < |t.sizes| && 0 < l <= t.levels
    requires t.Kept(i, l).Single()
    ensures t.Kept(i, l - 1).Single()
  {
    KeepShape(t.Kept(i, l));
  }

  /** Above the last adder level every adder a running VN covers has both children kept by that VN. */
  lemma ActiveFull(t: Tile, i: nat, l: nat, n: nat)
    requires t.Valid() && i < |t.sizes| && l < t.levels - 1
    requires t.Active(i, l) && t.Cover(i, l).Has(n)
    ensures t.Kept(i, l + 1).Run()
    ensures t.Kept(i, l + 1).Has(2 * n) && t.Kept(i, l + 1).Has(2 * n + 1)
    ensures t.Active(i, l + 1)
  {
    KeptBounds(t, i, l + 1);
    if l + 1 < t.levels - 1 && t.Kept(i, l + 2).Single() {
      SingleStays(t, i, l + 2);
    }
  }
}
