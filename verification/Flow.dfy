/**
 What flows through the configured tree: the value of every package on every wire, and
 the state of the network as a function of how many packages each adder has emitted.
 */
module Flow {
  import opened Layout
  import opened Tiles

  /** x(m, k) is the k-th partial sum that multiplier m produces. */
  type Psums = (nat, nat) -> real

  // ----- values

  /** The k-th sum of the kept children of adder (l, n). */
  ghost function In(t: Tile, x: Psums, i: nat, l: nat, n: nat, k: nat): real
    requires t.Valid() && i < |t.sizes| && l < t.levels
    decreases t.levels - l, 0
  {
    (if t.Kept(i, l + 1).Has(2 * n) then Out(t, x, i, l + 1, 2 * n, k) else 0.0) +
    (if t.Kept(i, l + 1).Has(2 * n + 1) then Out(t, x, i, l + 1, 2 * n + 1, k) else 0.0)
  }

  /** The k-th value that adder (l, n), or multiplier n, emits for VN i. */
  ghost function Out(t: Tile, x: Psums, i: nat, l: nat, n: nat, k: nat): real
    requires t.Valid() && i < |t.sizes| && l <= t.levels
    decreases t.levels - l, 1
  {
    if l == t.levels then x(n, k)
    else if t.RoleOf(i, l, n) == Receiver && Partner(n) >= 0 then
      In(t, x, i, l, n, k) + In(t, x, i, l, Partner(n), k)
    else In(t, x, i, l, n, k)
  }

  /** f(lo) + ... + f(hi - 1). */
  ghost function Sigma(f: nat -> real, lo: nat, hi: nat): real
    decreases hi - lo
  {
    if lo >= hi then 0.0 else f(lo) + Sigma(f, lo + 1, hi)
  }

  ghost function InRow(t: Tile, x: Psums, i: nat, l: nat, k: nat): nat -> real
    requires t.Valid() && i < |t.sizes| && l < t.levels
  {
    (n: nat) => In(t, x, i, l, n, k)
  }

  ghost function OutRow(t: Tile, x: Psums, i: nat, l: nat, k: nat): nat -> real
    requires t.Valid() && i < |t.sizes| && l <= t.levels
  {
    (n: nat) => Out(t, x, i, l, n, k)
  }

  /** The reference: the plain sum of the k-th partial sums of the multipliers of VN i. */
  ghost function VNSum(t: Tile, x: Psums, i: nat, k: nat): real
    requires t.Valid() && i < |t.sizes|
  {
    Sigma((m: nat) => x(m, k), t.Leaves(i).lo, t.Leaves(i).hi + 1)
  }

  lemma {:induction false} SigmaLast(f: nat -> real, lo: nat, hi: nat)
    requires lo < hi
    ensures Sigma(f, lo, hi) == Sigma(f, lo, hi - 1) + f(hi - 1)
    decreases hi - lo
  {
    if lo + 1 < hi {
      SigmaLast(f, lo + 1, hi);
    }
  }

  lemma {:induction false} SigmaEqual(f: nat -> real, g: nat -> real, lo: nat, hi: nat)
    requires forall n :: lo <= n < hi ==> f(n) == g(n)
    ensures Sigma(f, lo, hi) == Sigma(g, lo, hi)
    decreases hi - lo
  {
    if lo < hi {
      SigmaEqual(f, g, lo + 1, hi);
    }
  }

  /** Every parent value is the sum of the values of its kept children. */
  ghost predicate Paired(c: Span, child: nat -> real, parent: nat -> real) {
    forall p: nat :: parent(p) ==
      (if c.Has(2 * p) then child(2 * p) else 0.0) + (if c.Has(2 * p + 1) then child(2 * p + 1) else 0.0)
  }

  lemma LevelPaired(t: Tile, x: Psums, i: nat, l: nat, k: nat)
    requires t.Valid() && i < |t.sizes| && l < t.levels
    ensures Paired(t.Kept(i, l + 1), OutRow(t, x, i, l + 1, k), InRow(t, x, i, l, k))
  {
  }

  /** The kept children, summed parent by parent, are the kept children summed in a row. */
  lemma {:induction false} ChildrenInRow(c: Span, child: nat -> real, parent: nat -> real, n: nat)
    requires c.Valid() && c.lo / 2 <= n <= c.hi / 2 + 1
    requires Paired(c, child, parent)
    ensures Sigma(parent, n, c.hi / 2 + 1) == Sigma(child, if 2 * n < c.lo then c.lo else 2 * n, c.hi + 1)
    decreases c.hi / 2 + 1 - n
  {
    if n <= c.hi / 2 {
      ChildrenInRow(c, child, parent, n + 1);
      assert Sigma(child, 2 * n, c.hi + 1) == child(2 * n) + Sigma(child, 2 * n + 1, c.hi + 1);
    }
  }

  /** Which adders receive, and from where, when a range is reduced. */
  lemma KeepLinks(c: Span)
    requires c.Valid()
    ensures var a, b := Keep(c), c.Parents();
      && (a.Single() && b.lo < b.hi ==>
            b.hi == b.lo + 1 && RoleAt(c, a.lo) == Receiver && Partner(a.lo) == b.lo + b.hi - a.lo)
      && (!a.Single() && b.lo < a.lo ==>
            a.lo == b.lo + 1 && RoleAt(c, a.lo) == Receiver && Partner(a.lo) == b.lo)
      && (!a.Single() && a.hi < b.hi ==>
            b.hi == a.hi + 1 && RoleAt(c, a.hi) == Receiver && Partner(a.hi) == b.hi)
      && (forall n :: Inner(a, b).lo <= n < Inner(a, b).hi && !(a.Single() && b.lo < b.hi) ==> RoleAt(c, n) != Receiver)
  {
  }

  /** The kept adders that are not next to a dropped one, as a half-open range. */
  function Inner(a: Span, b: Span): Span {
    Span(if b.lo < a.lo then a.lo + 1 else a.lo, if a.hi < b.hi then a.hi else a.hi + 1)
  }

  /** What the rows of sums before (inp) and after (out) the links have to do with each other. */
  ghost predicate Relinked(inp: nat -> real, out: nat -> real, a: Span, b: Span) {
    && b.lo <= a.lo <= a.hi <= b.hi
    && if a.Single() && b.lo < b.hi then b.hi == b.lo + 1 && out(a.lo) == inp(b.lo) + inp(b.hi)
       else
         && (b.lo < a.lo ==> a.lo == b.lo + 1 && a.lo < a.hi && out(a.lo) == inp(a.lo) + inp(b.lo))
         && (a.hi < b.hi ==> b.hi == a.hi + 1 && a.lo < a.hi && out(a.hi) == inp(a.hi) + inp(b.hi))
         && (forall n :: Inner(a, b).lo <= n < Inner(a, b).hi ==> out(n) == inp(n))
  }

  /** Links only move a sum from the sender to the receiver. */
  lemma RelinkedConserves(inp: nat -> real, out: nat -> real, a: Span, b: Span)
    requires Relinked(inp, out, a, b)
    ensures Sigma(out, a.lo, a.hi + 1) == Sigma(inp, b.lo, b.hi + 1)
  {
    if a.Single() && b.lo < b.hi {
      assert Sigma(inp, b.hi, b.hi + 1) == inp(b.hi);
      assert Sigma(out, a.lo + 1, a.lo + 1) == 0.0;
    } else {
      var u, v := Inner(a, b).lo, Inner(a, b).hi;
      SigmaEqual(out, inp, u, v);
      if b.lo < a.lo {
        assert Sigma(inp, b.lo, v) == inp(b.lo) + Sigma(inp, a.lo, v);
      }
      assert Sigma(out, a.lo, v) == Sigma(inp, b.lo, v);
      if a.hi < b.hi {
        SigmaLast(out, a.lo, a.hi + 1);
        SigmaLast(inp, b.lo, b.hi + 1);
        SigmaLast(inp, b.lo, b.hi);
      }
    }
  }

  lemma LevelRelinked(t: Tile, x: Psums, i: nat, l: nat, k: nat)
    requires t.Valid() && i < |t.sizes| && l < t.levels
    ensures Relinked(InRow(t, x, i, l, k), OutRow(t, x, i, l, k), t.Kept(i, l), t.Cover(i, l))
  {
    var c := t.Kept(i, l + 1);
    KeepShape(c);
    KeepLinks(c);
  }

  lemma ReducedConserves(c: Span, child: nat -> real, inp: nat -> real, out: nat -> real, a: Span)
    requires c.Valid() && Paired(c, child, inp) && Relinked(inp, out, a, c.Parents())
    ensures Sigma(out, a.lo, a.hi + 1) == Sigma(child, c.lo, c.hi + 1)
  {
    hide Keep, RoleAt;
    RelinkedConserves(inp, out, a, c.Parents());
    ChildrenInRow(c, child, inp, c.lo / 2);
  }

  /** Reducing one level keeps the sum of what a VN holds. */
  lemma LevelConserves(t: Tile, x: Psums, i: nat, l: nat, k: nat)
    requires t.Valid() && i < |t.sizes| && l < t.levels
    ensures Sigma(OutRow(t, x, i, l, k), t.Kept(i, l).lo, t.Kept(i, l).hi + 1)
         == Sigma(OutRow(t, x, i, l + 1, k), t.Kept(i, l + 1).lo, t.Kept(i, l + 1).hi + 1)
  {
    hide Keep, RoleAt, In, Out, InRow, OutRow, Sigma, Paired, Relinked;
    LevelRelinked(t, x, i, l, k);
    LevelPaired(t, x, i, l, k);
    ReducedConserves(t.Kept(i, l + 1), OutRow(t, x, i, l + 1, k),
                     InRow(t, x, i, l, k), OutRow(t, x, i, l, k), t.Kept(i, l));
  }

  /** Conservation: at every level the kept partial sums of a VN add up to the VN's sum. */
  lemma {:induction false} Conservation(t: Tile, x: Psums, i: nat, l: nat, k: nat)
    requires t.Valid() && i < |t.sizes| && l <= t.levels
    ensures Sigma(OutRow(t, x, i, l, k), t.Kept(i, l).lo, t.Kept(i, l).hi + 1) == VNSum(t, x, i, k)
    decreases t.levels - l
  {
    hide Keep, RoleAt;
    if l == t.levels {
      SigmaEqual(OutRow(t, x, i, l, k), (m: nat) => x(m, k), t.Leaves(i).lo, t.Leaves(i).hi + 1);
    } else {
      LevelConserves(t, x, i, l, k);
      Conservation(t, x, i, l + 1, k);
    }
  }

  /** The adder that completes a VN emits exactly the VN's sums. */
  lemma CompleteValue(t: Tile, x: Psums, i: nat, l: nat, n: nat, k: nat)
    requires t.Valid() && i < |t.sizes| && l < t.levels && t.Kept(i, l) == Span(n, n)
    ensures Out(t, x, i, l, n, k) == VNSum(t, x, i, k)
  {
    Conservation(t, x, i, l, k);
    assert Sigma(OutRow(t, x, i, l, k), n + 1, n + 1) == 0.0;
  }
}
