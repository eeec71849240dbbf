/**
 What the enabled inputs and the memory flags of a compiled tree stand for: an input is enabled
 exactly when the child below it can send something up, and a flag stands on the way from the
 adder that completes a VN to the root.
 */
module Enabling {
  import opened Prelude
  import opened Arithmetic
  import opened Layout
  import opened Tiles
  import opened Signals
  import opened Switches
  import opened Runs
  import opened FoldNodes
  import opened FoldCompiler

  /** Some contents of its FIFOs make the adder send something to its parent. */
  ghost predicate CanSendUp(cfg: Config, n: nat) {
    exists q: Queues :: Route(cfg, n, q).up != []
  }

  lemma {:induction false} SendsUp(cfg: Config, n: nat)
    ensures FeedsParent(Signal(Some(cfg.mode), cfg.fw)) <==> CanSendUp(cfg, n)
  {
    var p := [Package(1, 0.0)];
    assert Route(cfg, n, Queues(p, p, p)).up != [] || !FeedsParent(Signal(Some(cfg.mode), cfg.fw));
  }

  // ----- the plain tree

  lemma {:induction false} Claimed(t: Tile, k: nat, l: nat, n: nat)
    requires t.Valid() && k <= |t.sizes| && l < t.levels
    ensures SignalAfter(t, k, l, n).mode.Some? <==> exists i: nat :: i < k && t.Cover(i, l).Has(n)
  {
    hide Keep;
    if k > 0 {
      Claimed(t, k - 1, l, n);
      assert t.RoleOf(k - 1, l, n) == Idle <==> !t.Cover(k - 1, l).Has(n);
      hide RoleAt;
    }
  }

  /** The adder above (l, c) has that input enabled if and only if (l, c) is used by a VN and can send up. */
  lemma {:induction false} EnabledExactly(t: Tile, l: nat, c: nat)
    requires t.Valid() && 0 < l < t.levels
    ensures ChildEnabled(t, l - 1, c) <==>
      (exists i: nat :: i < |t.sizes| && t.Cover(i, l).Has(c)) && CanSendUp(ConfigOf(t, l, c), c)
  {
    hide Keep, RoleAt, CanSendUp, FeedsParent, SignalAfter, ToMemory;
    Claimed(t, |t.sizes|, l, c);
    SendsUp(ConfigOf(t, l, c), c);
    BlankSilent(SignalOf(t, l, c));
  }

  lemma {:induction false} BlankSilent(s: Signal)
    ensures FeedsParent(s) <==> s.mode.Some? && FeedsParent(Signal(Some(s.mode.value), s.fw))
    ensures s.mode == Some(Fold) ==> !FeedsParent(s)
  {
  }

  /** An input of a last-level adder is enabled if and only if its multiplier belongs to a VN. */
  lemma {:induction false} LeafEnabledExactly(t: Tile, c: nat)
    requires t.Valid()
    ensures ChildEnabled(t, t.levels - 1, c) <==> exists i: nat :: i < |t.sizes| && t.Leaves(i).Has(c)
    ensures FenChildEnabled(t, t.levels - 1, c) <==> exists i: nat :: i < |t.sizes| && t.Leaves(i).Has(c)
  {
    if c < t.Used() {
      assert t.sizes[..|t.sizes|] == t.sizes;
      var i := OwnerExists(t, c, |t.sizes|);
    }
    forall i: nat | i < |t.sizes| && t.Leaves(i).Has(c)
      ensures c < t.Used()
    {
      OffsetMonotone(t, i, |t.sizes|);
    }
  }

  /** The flagged adders are those on the way from the adder that completes a VN to the root. */
  lemma {:induction false} MemoryFlags(t: Tile, l: nat, n: nat)
    requires t.Valid() && l < t.levels
    ensures ToMemory(t, l, n) <==>
      exists i: nat :: i < |t.sizes| && l <= Finish(t, i) && n == FinishAdder(t, i) / Pow2(Finish(t, i) - l)
  {
    hide Keep, FinishFrom;
    forall i: nat | i < |t.sizes|
      ensures t.Kept(i, l) == Span(n, n) <==>
        l <= Finish(t, i) && n == FinishAdder(t, i) / Pow2(Finish(t, i) - l)
    {
      if l <= Finish(t, i) {
        Upwards(t, i, Finish(t, i), FinishAdder(t, i), l);
        AncestorIs(FinishAdder(t, i), Finish(t, i) - l);
      } else if t.Kept(i, l) == Span(n, n) {
        StaysSingle(t, i, l, Finish(t, i) + 1);
      }
    }
  }

  /** The number of the adder k levels above adder m. */
  function Ancestor(m: nat, k: nat): nat {
    if k == 0 then m else Ancestor(m, k - 1) / 2
  }

  lemma {:induction false} AncestorIs(m: nat, k: nat)
    ensures Ancestor(m, k) == m / Pow2(k)
  {
    if k > 0 {
      AncestorIs(m, k - 1);
      Halved(m, Pow2(k - 1));
    }
  }

  lemma {:induction false} Upwards(t: Tile, i: nat, f: nat, m: nat, l: nat)
    requires t.Valid() && i < |t.sizes| && l <= f < t.levels && t.Kept(i, f) == Span(m, m)
    ensures t.Kept(i, l) == Span(Ancestor(m, f - l), Ancestor(m, f - l))
    decreases f - l
  {
    hide Keep, Tile.Kept, Tile.Valid;
    if l < f {
      Upwards(t, i, f, m, l + 1);
      OneUp(t, i, l, Ancestor(m, f - l - 1));
    }
  }

  lemma {:induction false} OneUp(t: Tile, i: nat, l: nat, a: nat)
    requires t.Valid() && i < |t.sizes| && l < t.levels && t.Kept(i, l + 1) == Span(a, a)
    ensures t.Kept(i, l) == Span(a / 2, a / 2)
  {
  }

  lemma {:induction false} Halved(m: nat, p: nat)
    requires p > 0
    ensures m / (2 * p) == m / p / 2
  {
    var q, r := m / p, m % p;
    var h := q / 2;
    Twice(p, h);
    if q == 2 * h {
      QuotientOf(m, 2 * p, h, r);
    } else {
      QuotientOf(m, 2 * p, h, p + r);
    }
  }

  lemma Twice(p: nat, h: nat)
    ensures p * (2 * h) == h * (2 * p) && p * (2 * h + 1) == h * (2 * p) + p
  {
  }

  // ----- the tree with fold nodes

  /** VN i has data in (l, n), as an adder. */
  ghost predicate Carries(t: Tile, i: nat, l: nat, n: nat)
    requires t.Valid() && l < t.levels
  {
    i < |t.sizes| && t.Active(i, l) && t.Cover(i, l).Has(n)
  }

  lemma {:induction false} FenClaimed(t: Tile, k: nat, l: nat, n: nat)
    requires t.Valid() && k <= |t.sizes| && l < t.levels
    ensures FenSignalAfter(t, k, l, n).mode.None? ==> forall i: nat :: i < k ==> !Carries(t, i, l, n)
    ensures FenSignalAfter(t, k, l, n).mode !in {None, Some(Fold)} ==> exists i: nat :: i < k && Carries(t, i, l, n)
  {
    hide Keep, FoldOf;
    if k > 0 {
      FenClaimed(t, k - 1, l, n);
      var s := FenSignalAfter(t, k - 1, l, n);
      if Walked(t, s, k - 1, l, n) != s {
        assert Carries(t, k - 1, l, n);
      }
      assert Carries(t, k - 1, l, n) ==> Walked(t, s, k - 1, l, n).mode.Some?;
    }
  }

  /** In the tree with fold nodes: (l, c) carries data of some VN, as an adder, and can send up. */
  lemma {:induction false} FenEnabledExactly(t: Tile, l: nat, c: nat)
    requires t.Valid() && 0 < l < t.levels
    ensures FenChildEnabled(t, l - 1, c) <==>
      (exists i: nat :: i < |t.sizes| && Carries(t, i, l, c)) && CanSendUp(FenConfigOf(t, l, c).adder, c)
  {
    hide Keep, RoleAt, CanSendUp, FeedsParent, FenSignalAfter, CompletesOne, FoldsOne, Carries;
    FenClaimed(t, |t.sizes|, l, c);
    var s := FenSignalAfter(t, |t.sizes|, l, c);
    SendsUp(FenConfigOf(t, l, c).adder, c);
    BlankSilent(s);
  }
}
