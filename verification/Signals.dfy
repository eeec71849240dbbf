/**
 The control signals of the reduction tree: what each adder ends up configured as after
 every VN of a tile has claimed its adders in turn.
 */
module Signals {
  import opened Prelude
  import opened Layout
  import opened Tiles
  import opened Exclusivity

  datatype AdderConfig = Add21 | Add31 | Add11PlusFw11 | Fw22 | Fold

  datatype FwDirection = Receive | Send

  /** The entries of one adder in the two signal maps. */
  datatype Signal = Signal(mode: Option<AdderConfig>, fw: Option<FwDirection>)

  const BLANK := Signal(None, None)

  /** One VN claims an adder. */
  function Claim(s: Signal, r: Role): Signal {
    match r
    case Idle => s
    case Plain =>
      Signal(Some(if s.mode.None? then Add21 else if s.fw.Some? then Add11PlusFw11 else Fw22), s.fw)
    case Sender => Signal(Some(if s.mode.None? then Add21 else Add11PlusFw11), Some(Send))
    case Receiver => Signal(Some(Add31), Some(Receive))
  }

  /** The signals of adder (l, n) after the first i VNs. */
  ghost function SignalAfter(t: Tile, i: nat, l: nat, n: nat): Signal
    requires t.Valid() && i <= |t.sizes| && l < t.levels
  {
    if i == 0 then BLANK else Claim(SignalAfter(t, i - 1, l, n), t.RoleOf(i - 1, l, n))
  }

  ghost function SignalOf(t: Tile, l: nat, n: nat): Signal
    requires t.Valid() && l < t.levels
  {
    SignalAfter(t, |t.sizes|, l, n)
  }

  ghost predicate MemoryAfter(t: Tile, i: nat, l: nat, n: nat)
    requires t.Valid() && i <= |t.sizes| && l < t.levels
  {
    exists j :: 0 <= j < i && t.Kept(j, l) == Span(n, n)
  }

  ghost predicate ToMemory(t: Tile, l: nat, n: nat)
    requires t.Valid() && l < t.levels
  {
    MemoryAfter(t, |t.sizes|, l, n)
  }

  /** An adder with these signals sends something to its parent. */
  predicate FeedsParent(s: Signal) {
    s.mode.Some? && (s.mode.value in {Add31, Add11PlusFw11, Fw22} || (s.mode.value == Add21 && s.fw.None?))
  }

  /** Whether child c of the row above level l is enabled as an input of adder (l, c / 2). */
  ghost predicate ChildEnabled(t: Tile, l: nat, c: nat)
    requires t.Valid() && l < t.levels
  {
    if l == t.levels - 1 then c < t.Used() else FeedsParent(SignalOf(t, l + 1, c))
  }

  /** Everything an adder is configured with. */
  datatype Config = Config(mode: AdderConfig, fw: Option<FwDirection>, left: bool, right: bool, memory: bool)

  ghost function ConfigOf(t: Tile, l: nat, n: nat): Config
    requires t.Valid() && l < t.levels
  {
    var s := SignalOf(t, l, n);
    Config(if s.mode.Some? then s.mode.value else Add21, s.fw,
           ChildEnabled(t, l, 2 * n), ChildEnabled(t, l, 2 * n + 1), ToMemory(t, l, n))
  }

  // ----- facts about every tile

  /** Where a range's links meet a later range: only as a sender, on an even adder. */
  lemma LinkBeforeLater(c: Span, d: Span, n: nat)
    requires c.Valid() && d.Valid() && c.Parents().hi <= d.Parents().lo && d.Parents().Has(n)
    requires c.hi < d.lo || c.Single() || c.Run()
    ensures RoleAt(c, n) != Receiver
    ensures RoleAt(c, n) == Sender ==> n % 2 == 0
  {
  }

  lemma EdgeRole(c: Span, n: nat, width: nat)
    requires c.Valid() && c.Parents().hi < width && (width == 1 || width % 2 == 0)
    requires n == 0 || n == width - 1
    ensures RoleAt(c, n) in {Idle, Plain}
  {
  }

  lemma SenderCovers(c: Span, n: nat)
    requires c.Valid()
    ensures RoleAt(c, n) == Sender ==> c.Parents().Has(n)
  {
  }

  lemma EarlierRole(t: Tile, i: nat, j: nat, l: nat, n: nat)
    requires t.Valid() && j < i < |t.sizes| && l < t.levels
    requires t.Cover(i, l).Has(n)
    ensures t.RoleOf(j, l, n) != Receiver
    ensures t.RoleOf(j, l, n) == Sender ==> n % 2 == 0 && n == t.Cover(i, l).lo
  {
    hide Keep, RoleAt;
    KeptOrdered(t, j, i, l);
    KeptOrdered(t, j, i, l + 1);
    KeptBounds(t, j, l + 1);
    LinkBeforeLater(t.Kept(j, l + 1), t.Kept(i, l + 1), n);
    SenderCovers(t.Kept(j, l + 1), n);
  }

  /** A forwarding link an earlier VN switched on is, for a later VN, a sender on its first adder. */
  lemma {:induction false} EarlierLinks(t: Tile, i: nat, k: nat, l: nat, n: nat)
    requires t.Valid() && k <= i < |t.sizes| && l < t.levels
    requires t.Cover(i, l).Has(n)
    ensures var fw := SignalAfter(t, k, l, n).fw; fw.Some? ==> fw == Some(Send) && n % 2 == 0 && n == t.Cover(i, l).lo
  {
    hide Keep, RoleAt;
    if k > 0 {
      EarlierLinks(t, i, k - 1, l, n);
      EarlierRole(t, i, k - 1, l, n);
    }
  }

  /** The first and the last adder of a level never take part in a link. */
  lemma {:induction false} EdgesUnlinked(t: Tile, i: nat, l: nat, n: nat)
    requires t.Valid() && i <= |t.sizes| && l < t.levels
    requires n == 0 || n == Pow2(l) - 1
    ensures SignalAfter(t, i, l, n).fw == None
  {
    hide Keep, RoleAt;
    if i > 0 {
      EdgesUnlinked(t, i - 1, l, n);
      KeptBounds(t, i - 1, l);
      EdgeRole(t.Kept(i - 1, l + 1), n, Pow2(l));
    }
  }

  /** Every link is switched on at both ends, as one sender and one receiver, or at neither. */
  ghost predicate Linked(a: Option<FwDirection>, b: Option<FwDirection>) {
    (a == None && b == None) || (a == Some(Send) && b == Some(Receive)) || (a == Some(Receive) && b == Some(Send))
  }

  lemma {:induction false} LinksPaired(t: Tile, i: nat, l: nat, n: nat)
    requires t.Valid() && i <= |t.sizes| && l < t.levels && n % 2 == 1
    ensures Linked(SignalAfter(t, i, l, n).fw, SignalAfter(t, i, l, n + 1).fw)
  {
    hide Keep, RoleAt;
    if i > 0 {
      LinksPaired(t, i - 1, l, n);
      LinkPairs(t.Kept(i - 1, l + 1), n);
      LinkPairs(t.Kept(i - 1, l + 1), n + 1);
    }
  }

  // ----- which VNs decide the signals of an adder

  lemma {:induction false} IdleRange(t: Tile, x: nat, y: nat, l: nat, n: nat)
    requires t.Valid() && x <= y <= |t.sizes| && l < t.levels
    requires forall j :: x <= j < y ==> !t.Cover(j, l).Has(n)
    ensures SignalAfter(t, y, l, n) == SignalAfter(t, x, l, n)
  {
    hide Keep;
    if x < y {
      assert !t.Cover(y - 1, l).Has(n);
      assert t.RoleOf(y - 1, l, n) == Idle;
      IdleRange(t, x, y - 1, l, n);
    }
  }

  ghost predicate OnlyOwner(t: Tile, i: nat, l: nat, n: nat)
    requires t.Valid() && i < |t.sizes| && l < t.levels
  {
    t.Cover(i, l).Has(n) && forall j :: 0 <= j < |t.sizes| && j != i ==> !t.Cover(j, l).Has(n)
  }

  lemma SoloSignal(t: Tile, i: nat, l: nat, n: nat)
    requires t.Valid() && i < |t.sizes| && l < t.levels
    requires OnlyOwner(t, i, l, n)
    ensures SignalOf(t, l, n) == Claim(BLANK, t.RoleOf(i, l, n))
    ensures ToMemory(t, l, n) <==> t.Kept(i, l) == Span(n, n)
  {
    hide Keep, RoleAt;
    IdleRange(t, 0, i, l, n);
    IdleRange(t, i + 1, |t.sizes|, l, n);
    forall j | 0 <= j < |t.sizes| && t.Kept(j, l) == Span(n, n)
      ensures j == i
    {
      KeepShape(t.Kept(j, l + 1));
      assert t.Cover(j, l).Has(n);
    }
  }

  lemma SharedSignal(t: Tile, i: nat, l: nat, n: nat)
    requires t.Valid() && i + 1 < |t.sizes| && l == t.levels - 1
    requires t.Cover(i, l).Has(n) && t.Cover(i + 1, l).Has(n)
    ensures SignalOf(t, l, n) == Claim(Claim(BLANK, t.RoleOf(i, l, n)), t.RoleOf(i + 1, l, n))
    ensures ToMemory(t, l, n) <==> t.Kept(i, l) == Span(n, n) || t.Kept(i + 1, l) == Span(n, n)
  {
    forall j | 0 <= j < |t.sizes| && t.Cover(j, l).Has(n)
      ensures j == i || j == i + 1
    {
      if j < i {
        LeafNeighbours(t, j, i + 1, n);
      } else if j > i + 1 {
        LeafNeighbours(t, i, j, n);
      }
    }
    IdleRange(t, 0, i, l, n);
    IdleRange(t, i + 2, |t.sizes|, l, n);
    assert SignalAfter(t, i + 2, l, n) == Claim(SignalAfter(t, i + 1, l, n), t.RoleOf(i + 1, l, n));
    forall j | 0 <= j < |t.sizes| && t.Kept(j, l) == Span(n, n)
      ensures j == i || j == i + 1
    {
      KeepShape(t.Kept(j, l + 1));
      assert t.Cover(j, l).Has(n);
    }
  }

  /** An adder no running VN covers neither adds three ways, nor splits, nor uses its link. */
  lemma {:induction false} QuietSignal(t: Tile, k: nat, l: nat, n: nat)
    requires t.Valid() && k <= |t.sizes| && l < t.levels
    requires forall j :: 0 <= j < |t.sizes| && t.Active(j, l) ==> !t.Cover(j, l).Has(n)
    ensures var s := SignalAfter(t, k, l, n); s.fw == None && s.mode in {None, Some(Add21), Some(Fw22)}
  {
    if k > 0 {
      QuietSignal(t, k - 1, l, n);
      if t.Cover(k - 1, l).Has(n) {
        KeepShape(t.Kept(k - 1, l + 1));
      }
    }
  }
}
