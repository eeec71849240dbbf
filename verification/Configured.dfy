/**
 What the compiled signals of a reducible tile mean for every adder: it either serves one
 VN, splits its inputs between two neighbouring VNs, or sees no data at all.
 */
module Configured {
  import opened Prelude
  import opened Layout
  import opened Tiles
  import opened Exclusivity
  import opened Signals

  /** VN i sends partial sums through child c of level l + 1 to adder (l, c / 2). */
  ghost predicate Feeds(t: Tile, i: nat, l: nat, c: nat)
    requires t.Valid() && l < t.levels
  {
    i < |t.sizes| && t.Active(i, l) && t.Kept(i, l + 1).Has(c)
  }

  ghost predicate Unfed(t: Tile, l: nat, c: nat)
    requires t.Valid() && l < t.levels
  {
    forall i :: !Feeds(t, i, l, c)
  }

  /** Data of VN i passes through adder (l, n). */
  ghost predicate Uses(t: Tile, i: nat, l: nat, n: nat)
    requires t.Valid() && l < t.levels
  {
    i < |t.sizes| && t.Active(i, l) && t.Cover(i, l).Has(n)
  }

  /** VN i leaves adder (l, n) through its output, to the parent or to memory. */
  ghost predicate Keeps(t: Tile, i: nat, l: nat, n: nat)
    requires t.Valid() && l < t.levels
  {
    i < |t.sizes| && t.Active(i, l) && t.Kept(i, l).Has(n)
  }

  /** The VNs i and i + 1 meet on last-level adder n. */
  ghost predicate SharedBy(t: Tile, i: nat, n: nat)
    requires t.Valid()
  {
    i + 1 < |t.sizes| && t.Cover(i, t.levels - 1).Has(n) && t.Cover(i + 1, t.levels - 1).Has(n)
  }

  /** Every adder with data has one owner, or two owners on the last level. */
  lemma Owners(t: Tile, i: nat, l: nat, n: nat)
    requires t.Valid() && t.Reducible() && l < t.levels && Uses(t, i, l, n)
    ensures OnlyOwner(t, i, l, n) || (l == t.levels - 1 && (SharedBy(t, i, n) || (i > 0 && SharedBy(t, i - 1, n))))
  {
    hide Keep, RoleAt;
    if j :| 0 <= j < |t.sizes| && j != i && t.Cover(j, l).Has(n) {
      if l < t.levels - 1 {
        CoverExclusive(t, i, j, l, n);
      } else if i < j {
        LeafNeighbours(t, i, j, n);
      } else {
        LeafNeighbours(t, j, i, n);
      }
    }
  }

  /** A multiplier below an adder with one owner is that owner's, or unused. */
  lemma SoloLeaf(t: Tile, i: nat, n: nat, m: nat)
    requires t.Valid() && i < |t.sizes| && OnlyOwner(t, i, t.levels - 1, n) && m / 2 == n
    ensures m < t.Used() <==> t.Leaves(i).Has(m)
  {
    if m < t.Used() {
      assert t.sizes[..|t.sizes|] == t.sizes;
      var j := OwnerExists(t, m, |t.sizes|);
      assert t.Cover(j, t.levels - 1).Has(n);
    } else {
      OffsetMonotone(t, i, |t.sizes|);
    }
  }

  /** The first child of an adder with one owner is never skipped. */
  lemma SoloLeft(t: Tile, i: nat, n: nat)
    requires t.Valid() && i < |t.sizes| && OnlyOwner(t, i, t.levels - 1, n)
    ensures t.Leaves(i).Has(2 * n)
  {
    SoloLeaf(t, i, n, 2 * n);
    OffsetMonotone(t, i, |t.sizes|);
  }

  /** The signals of a shared adder. */
  lemma SharedConfig(t: Tile, i: nat, n: nat)
    requires t.Valid() && t.Reducible() && SharedBy(t, i, n)
    ensures t.Leaves(i).hi == 2 * n && t.Leaves(i + 1).lo == 2 * n + 1
    ensures var l, c := t.levels - 1, ConfigOf(t, t.levels - 1, n);
      && c.left && c.right
      && if t.sizes[i] == t.sizes[i + 1] == 1 then
           && c.mode == Fw22 && c.fw == None && c.memory
           && t.RoleOf(i, l, n) == t.RoleOf(i + 1, l, n) == Plain
         else
           && c.mode == Add11PlusFw11 && c.fw == Some(Send)
           && t.RoleOf(i, l, n) == (if n % 2 == 0 then Sender else Plain)
           && t.RoleOf(i + 1, l, n) == (if n % 2 == 0 then Plain else Sender)
           && (c.memory <==> t.Kept(if n % 2 == 0 then i + 1 else i, l) == Span(n, n))
  {
    var l := t.levels - 1;
    LeafShare(t, i, n);
    SharedSignal(t, i, l, n);
    OffsetMonotone(t, i + 1, |t.sizes|);
    var a, b := t.Leaves(i), t.Leaves(i + 1);
    assert t.Kept(i, t.levels) == a && t.Kept(i + 1, t.levels) == b;
    SharedRoles(a, b, n);
  }

  lemma SharedRoles(a: Span, b: Span, n: nat)
    requires a.Valid() && b.Valid() && a.hi == 2 * n && b.lo == 2 * n + 1
    ensures a.Single() ==> RoleAt(a, n) == Plain && Keep(a) == Span(n, n)
    ensures b.Single() ==> RoleAt(b, n) == Plain && Keep(b) == Span(n, n)
    ensures RoleAt(a, n) == Sender ==> Keep(a) != Span(n, n)
    ensures RoleAt(b, n) == Sender ==> Keep(b) != Span(n, n)
  {
  }

  lemma KeptRole(c: Span, n: nat)
    requires c.Valid() && Keep(c).Has(n)
    ensures c.Parents().Has(n) && RoleAt(c, n) in {Plain, Receiver}
  {
  }

  /** An adder kept by a VN that goes on above it is configured to send to its parent. */
  lemma KeptFeedsParent(t: Tile, i: nat, l: nat, n: nat)
    requires t.Valid() && t.Reducible() && l < t.levels && Keeps(t, i, l, n) && !t.Kept(i, l).Single()
    ensures FeedsParent(SignalOf(t, l, n))
  {
    hide Keep, RoleAt;
    KeptRole(t.Kept(i, l + 1), n);
    var r := t.RoleOf(i, l, n);
    assert r in {Plain, Receiver};
    Owners(t, i, l, n);
    if OnlyOwner(t, i, l, n) {
      SoloSignal(t, i, l, n);
      assert SignalOf(t, l, n) == Claim(BLANK, r);
    } else {
      SharedFeedsParent(t, if SharedBy(t, i, n) then i else i - 1, n);
    }
  }

  lemma SharedFeedsParent(t: Tile, i: nat, n: nat)
    requires t.Valid() && t.Reducible() && SharedBy(t, i, n)
    ensures FeedsParent(SignalOf(t, t.levels - 1, n))
  {
    SharedConfig(t, i, n);
    SharedSignal(t, i, t.levels - 1, n);
  }

  /** A child that feeds the level above is enabled there. */
  lemma FeedEnabled(t: Tile, i: nat, l: nat, c: nat)
    requires t.Valid() && t.Reducible() && l < t.levels && Feeds(t, i, l, c)
    ensures ChildEnabled(t, l, c)
  {
    hide Keep, RoleAt;
    if l == t.levels - 1 {
      OffsetMonotone(t, i, |t.sizes|);
    } else {
      ActiveFull(t, i, l, c / 2);
      KeptFeedsParent(t, i, l + 1, c);
    }
  }

  /** The signals of an adder that serves VN i alone. */
  lemma SoloConfig(t: Tile, i: nat, l: nat, n: nat)
    requires t.Valid() && t.Reducible() && l < t.levels && Uses(t, i, l, n) && OnlyOwner(t, i, l, n)
    ensures t.Kept(i, l + 1).Has(2 * n)
    ensures var c, r := ConfigOf(t, l, n), t.RoleOf(i, l, n);
      && c.left && (c.right <==> t.Kept(i, l + 1).Has(2 * n + 1))
      && (c.memory <==> t.Kept(i, l) == Span(n, n))
      && c.mode == (if r == Receiver then Add31 else Add21)
      && c.fw == (match r case Receiver => Some(Receive) case Sender => Some(Send) case _ => None)
      && (r == Receiver ==> t.Kept(i, l + 1).Has(2 * n + 1))
  {
    hide Keep, RoleAt;
    SoloSignal(t, i, l, n);
    if l < t.levels - 1 {
      ActiveFull(t, i, l, n);
      FeedEnabled(t, i, l, 2 * n);
      FeedEnabled(t, i, l, 2 * n + 1);
    } else {
      SoloLeft(t, i, n);
      SoloLeaf(t, i, n, 2 * n);
      SoloLeaf(t, i, n, 2 * n + 1);
      assert t.ReducibleAt(i);
      assert t.Kept(i, t.levels) == t.Leaves(i);
      if t.RoleOf(i, l, n) == Receiver {
        SoloReceiver(t.Leaves(i), n);
      }
    }
  }

  lemma SoloReceiver(c: Span, n: nat)
    requires c.Valid() && (c.hi - c.lo == 1 ==> c.lo % 4 != 3)
    requires RoleAt(c, n) == Receiver
    ensures c.Has(2 * n + 1)
  {
  }
}
