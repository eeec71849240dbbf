/**
 The geometry of a tile on a reduction tree: which multipliers a virtual neuron
 (VN) occupies, and which adders of every level it keeps, drops or merges.

 Level `levels` is the row of multipliers; level l < `levels` has Pow2(l) adders,
 and adder n of level l has the children 2n and 2n+1 of level l+1.
 */
module Layout {

  function Pow2(k: nat): (r: nat)
    ensures r >= 1
    ensures k >= 1 ==> r % 2 == 0
  {
    if k == 0 then 1 else 2 * Pow2(k - 1)
  }

  /** A contiguous, inclusive range of indices of one level. */
  datatype Span = Span(lo: nat, hi: nat) {
    predicate Valid() {
      lo <= hi
    }

    predicate Has(n: int) {
      lo <= n <= hi
    }

    predicate Single() {
      lo == hi
    }

    /** An even start and an odd end: a union of whole sibling pairs. */
    predicate Run() {
      lo < hi && lo % 2 == 0 && hi % 2 == 1
    }

    function Parents(): Span {
      Span(lo / 2, hi / 2)
    }
  }

  /**
   The adders that still hold a partial sum of a VN after a level has been
   configured, when `c` are the children that held one before.
   */
  function Keep(c: Span): Span
    requires c.Valid()
  {
    var p, q := c.lo / 2, c.hi / 2;
    if p == q then
      Span(p, p)
    else if q == p + 1 then
      if p % 2 == 0 then Span(p, q)
      else if 2 * p + 2 - c.lo >= c.hi - 2 * p - 1 then Span(p, p)
      else Span(q, q)
    else
      Span(if p % 2 == 1 then p + 1 else p, if q % 2 == 0 then q - 1 else q)
  }

  /** What one VN wants from an adder. */
  datatype Role =
    | Idle      // not a parent of any kept child
    | Plain     // keeps the sum of its own children
    | Sender    // hands the sum of its children to a neighbour
    | Receiver  // keeps the sum of its children and of a neighbour

  function RoleAt(c: Span, n: int): Role
    requires c.Valid()
  {
    var p, k := c.Parents(), Keep(c);
    if !p.Has(n) then Idle
    else if !k.Has(n) then Sender
    else if (!k.Has(p.lo) && n == p.lo + 1) || (!k.Has(p.hi) && n == p.hi - 1) then Receiver
    else Plain
  }

  /** The neighbour at the other end of an adder's forwarding link. */
  function Partner(n: nat): int {
    if n % 2 == 1 then n + 1 else n - 1
  }

  // ----- the level invariant

  lemma KeepShape(c: Span)
    requires c.Valid()
    ensures Keep(c).Single() || Keep(c).Run()
    ensures c.Parents().lo <= Keep(c).lo <= Keep(c).hi <= c.Parents().hi
    ensures Keep(c).lo <= c.Parents().lo + 1 && c.Parents().hi <= Keep(c).hi + 1
    ensures c.Run() || c.hi - c.lo >= 2 ==> Keep(c).hi - Keep(c).lo < c.hi - c.lo
    ensures c.Single() ==> Keep(c) == c.Parents()
  {
  }

  /** Senders and receivers come in pairs across one forwarding link. */
  lemma LinkPairs(c: Span, n: nat)
    requires c.Valid()
    ensures RoleAt(c, n) == Sender <==> Partner(n) >= 0 && RoleAt(c, Partner(n)) == Receiver
    ensures RoleAt(c, n).Sender? || RoleAt(c, n).Receiver? ==> n > 0 && c.Parents().Has(Partner(n))
  {
  }
}
