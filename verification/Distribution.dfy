/**
 The distribution tree: packages with a unicast, multicast or broadcast header go down a
 binary tree of switches.  One cycle of the tree refines a plain filter per leaf.
 */
module Distribution {
  import opened Prelude
  import opened Layout

  datatype Header = Broadcast | Unicast(dest: nat) | Multicast(dests: seq<bool>)

  datatype Packet = Packet(header: Header, data: real)

  /** Leaf d of a tree with n leaves is a destination of p.  A unicast destination beyond the
      last leaf stands for the last leaf. */
  predicate Addressed(p: Packet, n: nat, d: nat) {
    match p.header
    case Broadcast => true
    case Unicast(dest) => d == if dest < n then dest else n - 1
    case Multicast(dests) => d < |dests| && dests[d]
  }

  /** Some leaf of [lo, lo + width) is a destination of p. */
  ghost predicate AddressedIn(p: Packet, n: nat, lo: nat, width: nat) {
    exists d: nat :: lo <= d < lo + width && Addressed(p, n, d)
  }

  /** A multicast header has one flag per leaf. */
  predicate WellFormed(p: Packet, n: nat) {
    p.header.Multicast? ==> |p.header.dests| >= n
  }

  ghost predicate AllWellFormed(s: seq<Packet>, n: nat) {
    forall p :: p in s ==> WellFormed(p, n)
  }

  /** The packets of s with a destination in [lo, lo + width), in order. */
  ghost function Select(s: seq<Packet>, n: nat, lo: nat, width: nat): (r: seq<Packet>)
    ensures forall p :: p in r ==> p in s && AddressedIn(p, n, lo, width)
  {
    if s == [] then []
    else
      var rest, p := Select(s[..|s| - 1], n, lo, width), s[|s| - 1];
      if AddressedIn(p, n, lo, width) then rest + [p] else rest
  }

  /** The packets of s for leaf d, in order: what the leaf should receive. */
  function ForLeaf(s: seq<Packet>, n: nat, d: nat): seq<Packet> {
    if s == [] then []
    else if Addressed(s[|s| - 1], n, d) then ForLeaf(s[..|s| - 1], n, d) + [s[|s| - 1]]
    else ForLeaf(s[..|s| - 1], n, d)
  }

  /** What a leaf receives of some packets and then of others: packets are neither reordered nor mixed. */
  lemma {:induction false} LeafInOrder(a: seq<Packet>, b: seq<Packet>, n: nat, d: nat)
    ensures ForLeaf(a + b, n, d) == ForLeaf(a, n, d) + ForLeaf(b, n, d)
  {
    if b == [] {
      assert a + b == a;
    } else {
      assert (a + b)[..|a + b| - 1] == a + b[..|b| - 1];
      LeafInOrder(a, b[..|b| - 1], n, d);
    }
  }

  /** How often a leaf receives a packet, by the kind of its header. */
  lemma {:induction false} LeafCount(s: seq<Packet>, n: nat, d: nat, p: Packet)
    requires d < n
    ensures multiset(ForLeaf(s, n, d))[p] ==
      if || p.header.Broadcast?
         || (p.header.Unicast? && (d == p.header.dest || (p.header.dest >= n && d == n - 1)))
         || (p.header.Multicast? && d < |p.header.dests| && p.header.dests[d])
      then multiset(s)[p] else 0
  {
    if s != [] {
      var front, last := s[..|s| - 1], s[|s| - 1];
      assert s == front + [last];
      LeafCount(front, n, d, p);
    }
  }

  lemma {:induction false} SelectLeaf(s: seq<Packet>, n: nat, d: nat)
    ensures Select(s, n, d, 1) == ForLeaf(s, n, d)
  {
    if s != [] {
      SelectLeaf(s[..|s| - 1], n, d);
      var p := s[|s| - 1];
      assert AddressedIn(p, n, d, 1) <==> Addressed(p, n, d);
    }
  }

  /** Selecting within a part of a selected range loses nothing. */
  lemma {:induction false} SelectPart(s: seq<Packet>, n: nat, lo: nat, width: nat, lo': nat, width': nat)
    requires lo <= lo' && lo' + width' <= lo + width
    ensures Select(Select(s, n, lo, width), n, lo', width') == Select(s, n, lo', width')
  {
    if s != [] {
      var front, p := s[..|s| - 1], s[|s| - 1];
      SelectPart(front, n, lo, width, lo', width');
      var inner := Select(front, n, lo, width);
      assert AddressedIn(p, n, lo', width') ==> AddressedIn(p, n, lo, width);
      if AddressedIn(p, n, lo, width) {
        assert (inner + [p])[..|inner + [p]| - 1] == inner;
      }
    }
  }

  // ----- one switch

  class DSwitch {
    const level: nat
    const num: nat
    const leaves: nat
    var data: seq<Packet>
    var pending: bool

    constructor (level: nat, num: nat, leaves: nat)
      ensures this.level == level && this.num == num && this.leaves == leaves && !pending
    {
      this.level, this.num, this.leaves := level, num, leaves;
      data, pending := [], false;
    }

    /** Some flag of dests[from .. to] is set. */
    static method AnyFlag(dests: seq<bool>, from: nat, to: nat) returns (found: bool)
      requires from <= to <= |dests|
      ensures found <==> exists d :: from <= d < to && dests[d]
    {
      found := false;
      var i := from;
      while i < to
        invariant from <= i <= to && !found
        invariant forall d :: from <= d < i ==> !dests[d]
      {
        if dests[i] {
          found := true;
          break;
        }
        i := i + 1;
      }
    }

    /** Which branches a packet takes at a switch that serves leaves first .. first + width. */
    static method Branches(p: Packet, n: nat, first: nat, width: nat) returns (left: bool, right: bool)
      requires WellFormed(p, n) && width >= 2 && width % 2 == 0 && first + width <= n
      requires AddressedIn(p, n, first, width) || (first == 0 && width == n)
      ensures left <==> AddressedIn(p, n, first, width / 2)
      ensures right <==> AddressedIn(p, n, first + width / 2, width / 2)
    {
      left, right := false, false;
      match p.header {
        case Broadcast =>
          assert Addressed(p, n, first) && Addressed(p, n, first + width / 2);
          left, right := true, true;
        case Unicast(dest) =>
          var d := if dest < n then dest else n - 1;
          assert Addressed(p, n, d);
          if 2 * dest < 2 * first + width - 1 {
            left := true;
          } else {
            right := true;
          }
        case Multicast(dests) =>
          var halfLim := first + (width - 1) / 2;
          left := AnyFlag(dests, first, halfLim + 1);
          right := AnyFlag(dests, halfLim + 1, first + width);
          assert left <==> AddressedIn(p, n, first, width / 2) by {
            if left {
              var d :| first <= d < halfLim + 1 && dests[d];
              assert Addressed(p, n, d);
            }
          }
          assert right <==> AddressedIn(p, n, first + width / 2, width / 2) by {
            if right {
              var d :| halfLim + 1 <= d < first + width && dests[d];
              assert Addressed(p, n, d);
            }
          }
      }
    }

    /** The switch belongs to a tree of the given height. */
    ghost predicate InTree(levels: nat) {
      level < levels && num < Pow2(level) && leaves == Pow2(levels)
    }

    /** How many leaves the switch serves, and the first of them. */
    function Width(): nat {
      ShiftRight(leaves, level)
    }

    function First(): nat {
      num * Width()
    }

    /** Sorts packets into the two branches of a switch that serves leaves first .. first + width. */
    static method Sort(data: seq<Packet>, n: nat, first: nat, width: nat)
      returns (left: seq<Packet>, right: seq<Packet>)
      requires width >= 2 && width % 2 == 0 && first + width <= n && AllWellFormed(data, n)
      requires (first == 0 && width == n) || forall p :: p in data ==> AddressedIn(p, n, first, width)
      ensures left == Select(data, n, first, width / 2) && right == Select(data, n, first + width / 2, width / 2)
    {
      hide AddressedIn;
      left, right := [], [];
      var i := 0;
      while i < |data|
        invariant i <= |data|
        invariant left == Select(data[..i], n, first, width / 2)
        invariant right == Select(data[..i], n, first + width / 2, width / 2)
      {
        var p := data[i];
        assert data[..i + 1][..i] == data[..i] && data[..i + 1][i] == p && p in data;
        var toLeft, toRight := Branches(p, n, first, width);
        if toLeft {
          left := left + [p];
        }
        if toRight {
          right := right + [p];
        }
        i := i + 1;
      }
      assert data[..|data|] == data;
    }

    /** Sends every packet down the branches that lead to one of its destinations. */
    method RoutePackages(ghost levels: nat) returns (left: seq<Packet>, right: seq<Packet>)
      requires pending && InTree(levels) && AllWellFormed(data, leaves)
      requires level > 0 ==> forall p :: p in data ==> AddressedIn(p, leaves, First(), Width())
      modifies this`pending
      ensures !pending
      ensures left == Select(data, leaves, First(), Width() / 2)
      ensures right == Select(data, leaves, First() + Width() / 2, Width() / 2)
    {
      hide AddressedIn, Select;
      TreeWidth(levels, level, num);
      left, right := Sort(data, leaves, First(), Width());
      pending := false;
    }

    /** Takes what is pending at the input and routes it. */
    method Cycle(incoming: seq<Packet>, ghost levels: nat) returns (left: seq<Packet>, right: seq<Packet>)
      requires !pending && InTree(levels) && AllWellFormed(incoming, leaves)
      requires level > 0 ==> forall p :: p in incoming ==> AddressedIn(p, leaves, First(), Width())
      modifies this`data, this`pending
      ensures !pending
      ensures left == Select(incoming, leaves, First(), Width() / 2)
      ensures right == Select(incoming, leaves, First() + Width() / 2, Width() / 2)
    {
      left, right := [], [];
      if incoming != [] {
        data, pending := incoming, true;
      }
      if pending {
        left, right := RoutePackages(levels);
      }
    }
  }

  /** n >> k. */
  function ShiftRight(n: nat, k: nat): nat {
    if k == 0 then n else ShiftRight(n, k - 1) / 2
  }

  /** The part of the leaves below switch (l, n). */
  lemma {:induction false} TreeWidth(levels: nat, l: nat, n: nat)
    requires l <= levels && n < Pow2(l)
    ensures ShiftRight(Pow2(levels), l) == Pow2(levels - l)
    ensures n * Pow2(levels - l) + Pow2(levels - l) <= Pow2(levels)
    ensures l < levels ==> Pow2(levels - l) % 2 == 0 && Pow2(levels - l) / 2 == Pow2(levels - l - 1)
  {
    if l > 0 {
      TreeWidth(levels, l - 1, n / 2);
      ChildRange(n, Pow2(levels - l));
    }
  }

  lemma ChildRange(n: nat, w: nat)
    ensures n * w + w <= (n / 2) * (2 * w) + 2 * w
  {
    var h := n / 2;
    assert h * (2 * w) == (2 * h) * w;
    if n == 2 * h + 1 {
      assert n * w == (2 * h) * w + w;
    } else {
      assert n == 2 * h;
    }
  }

  // ----- the tree

  /** What is pending at the input of switch (l, n), or at leaf n when l == levels. */
  ghost function Content(input: seq<Packet>, levels: nat, l: nat, n: nat): seq<Packet>
    requires l <= levels
  {
    if l == 0 then input else Select(input, Pow2(levels), n * Pow2(levels - l), Pow2(levels - l))
  }

  lemma HalfStart(n: nat, h: nat)
    ensures n * (2 * h) == (2 * n) * h && n * (2 * h) + h == (2 * n + 1) * h
  {
  }

  /** Routing what is pending at a switch leaves, at each child, what should be pending there. */
  lemma ContentStep(input: seq<Packet>, levels: nat, l: nat, n: nat)
    requires l < levels && n < Pow2(l)
    ensures var w := Pow2(levels - l);
      var c := Content(input, levels, l, n);
      && Select(c, Pow2(levels), n * w, w / 2) == Content(input, levels, l + 1, 2 * n)
      && Select(c, Pow2(levels), n * w + w / 2, w / 2) == Content(input, levels, l + 1, 2 * n + 1)
  {
    hide Select, Addressed, AddressedIn, Pow2;
    TreeWidth(levels, l, n);
    var w, h := Pow2(levels - l), Pow2(levels - l - 1);
    HalfStart(n, h);
    if l > 0 {
      SelectPart(input, Pow2(levels), n * w, w, n * w, h);
      SelectPart(input, Pow2(levels), n * w, w, n * w + h, h);
    }
  }

  function PendingIn(wires: map<Id, seq<Packet>>, i: nat, j: nat): seq<Packet> {
    if (i, j) in wires then wires[(i, j)] else []
  }

  /** What is pending at (l, n) once the switches before (i, j), level by level, have run. */
  ghost function Expected(levels: nat, input: seq<Packet>, i: nat, j: nat, l: nat, n: nat): seq<Packet>
    requires l <= levels
  {
    if (l == i && n >= j) || (l == i + 1 && n < 2 * j) then Content(input, levels, l, n) else []
  }

  ghost predicate FlowingIn(wires: map<Id, seq<Packet>>, levels: nat, input: seq<Packet>, i: nat, j: nat) {
    forall l: nat, n: nat :: l <= levels && n < Pow2(l) ==>
      PendingIn(wires, l, n) == Expected(levels, input, i, j, l, n)
  }

  ghost function Moved(wires: map<Id, seq<Packet>>, i: nat, j: nat, left: seq<Packet>, right: seq<Packet>, l: nat,
                       n: nat): seq<Packet> {
    if (l, n) == (i, j) then []
    else if (l, n) == (i + 1, 2 * j) then left
    else if (l, n) == (i + 1, 2 * j + 1) then right
    else PendingIn(wires, l, n)
  }

  lemma FlowingAt(wires: map<Id, seq<Packet>>, levels: nat, input: seq<Packet>, i: nat, j: nat)
    requires FlowingIn(wires, levels, input, i, j) && i < levels && j < Pow2(i)
    ensures PendingIn(wires, i, j) == Content(input, levels, i, j)
    ensures PendingIn(wires, i + 1, 2 * j) == PendingIn(wires, i + 1, 2 * j + 1) == []
  {
    hide Content;
  }

  lemma ContentAddressed(input: seq<Packet>, levels: nat, l: nat, n: nat)
    requires l <= levels && AllWellFormed(input, Pow2(levels))
    ensures AllWellFormed(Content(input, levels, l, n), Pow2(levels))
    ensures l > 0 ==> forall p :: p in Content(input, levels, l, n) ==>
      AddressedIn(p, Pow2(levels), n * Pow2(levels - l), Pow2(levels - l))
  {
  }

  lemma MovedExpected(wires: map<Id, seq<Packet>>, levels: nat, input: seq<Packet>, i: nat, j: nat,
                      left: seq<Packet>, right: seq<Packet>, l: nat, n: nat)
    requires i < levels && l <= levels && PendingIn(wires, l, n) == Expected(levels, input, i, j, l, n)
    requires left == Content(input, levels, i + 1, 2 * j) && right == Content(input, levels, i + 1, 2 * j + 1)
    ensures Moved(wires, i, j, left, right, l, n) == Expected(levels, input, i, j + 1, l, n)
  {
    hide Content;
  }

  lemma FlowStep(wires: map<Id, seq<Packet>>, w: map<Id, seq<Packet>>, levels: nat, input: seq<Packet>, i: nat, j: nat,
                 left: seq<Packet>, right: seq<Packet>)
    requires FlowingIn(wires, levels, input, i, j) && i < levels && j < Pow2(i)
    requires left == Content(input, levels, i + 1, 2 * j) && right == Content(input, levels, i + 1, 2 * j + 1)
    requires forall l: nat, n: nat :: PendingIn(w, l, n) == Moved(wires, i, j, left, right, l, n)
    ensures FlowingIn(w, levels, input, i, j + 1)
  {
    hide Content, Moved, Expected, PendingIn;
    var j' := j + 1;
    forall l: nat, n: nat | l <= levels && n < Pow2(l)
      ensures PendingIn(w, l, n) == Expected(levels, input, i, j', l, n)
    {
      MovedExpected(wires, levels, input, i, j, left, right, l, n);
    }
  }

  lemma FlowLevel(wires: map<Id, seq<Packet>>, levels: nat, input: seq<Packet>, i: nat)
    requires FlowingIn(wires, levels, input, i, Pow2(i)) && i < levels
    ensures FlowingIn(wires, levels, input, i + 1, 0)
  {
    hide Content, PendingIn;
    var i' := i + 1;
    forall l: nat, n: nat | l <= levels && n < Pow2(l)
      ensures PendingIn(wires, l, n) == Expected(levels, input, i', 0, l, n)
    {
    }
  }

  class DSNetwork {
    const levels: nat
    const switches: map<Id, DSwitch>
    var wires: map<Id, seq<Packet>>

    ghost predicate Valid()
      reads switches.Values
    {
      forall i: nat, j: nat :: i < levels && j < Pow2(i) ==>
        (i, j) in switches && var s := switches[(i, j)];
        s.level == i && s.num == j && s.leaves == Pow2(levels) && !s.pending
    }

    function Pending(i: nat, j: nat): seq<Packet>
      reads this`wires
    {
      PendingIn(wires, i, j)
    }

    constructor (levels: nat)
      ensures this.levels == levels && Valid() && wires == map[] && fresh(switches.Values)
    {
      this.levels := levels;
      var table: map<Id, DSwitch> := map[];
      var i, width := 0, 1;
      while i < levels
        invariant i <= levels && width == Pow2(i) && fresh(table.Values)
        invariant forall k: nat, j: nat :: k < i && j < Pow2(k) ==>
          (k, j) in table && table[(k, j)].level == k && table[(k, j)].num == j
            && table[(k, j)].leaves == Pow2(levels) && !table[(k, j)].pending
      {
        var j := 0;
        while j < width
          invariant j <= width && fresh(table.Values)
          invariant forall k: nat, n: nat :: (k < i && n < Pow2(k)) || (k == i && n < j) ==>
            (k, n) in table && table[(k, n)].level == k && table[(k, n)].num == n
              && table[(k, n)].leaves == Pow2(levels) && !table[(k, n)].pending
        {
          var s := new DSwitch(i, j, Pow2(levels));
          ghost var before := table;
          table := table[(i, j) := s];
          assert table.Values <= before.Values + {s};
          j := j + 1;
        }
        i := i + 1;
        width := width * 2;
      }
      switches := table;
      wires := map[];
    }

    ghost predicate Flowing(input: seq<Packet>, i: nat, j: nat)
      reads this`wires
    {
      FlowingIn(wires, levels, input, i, j)
    }

    /** Takes the input of switch (i, j) off its connection and sends its two outputs. */
    static method Transfer(wires: map<Id, seq<Packet>>, i: nat, j: nat, left: seq<Packet>, right: seq<Packet>)
      returns (w: map<Id, seq<Packet>>)
      requires PendingIn(wires, i + 1, 2 * j) == PendingIn(wires, i + 1, 2 * j + 1) == []
      ensures forall l: nat, n: nat :: PendingIn(w, l, n) == Moved(wires, i, j, left, right, l, n)
    {
      w := wires - {(i, j)};
      if left != [] {
        w := w[(i + 1, 2 * j) := left];
      }
      if right != [] {
        w := w[(i + 1, 2 * j + 1) := right];
      }
    }

    /** Runs switch (i, j). */
    method StepSwitch(i: nat, j: nat, ghost input: seq<Packet>)
      requires Valid() && i < levels && j < Pow2(i) && Flowing(input, i, j) && AllWellFormed(input, Pow2(levels))
      modifies this`wires, switches.Values
      ensures Valid() && Flowing(input, i, j + 1)
    {
      hide Select, Addressed, Content, FlowingIn, Moved;
      var s := switches[(i, j)];
      var incoming := Pending(i, j);
      FlowingAt(wires, levels, input, i, j);
      ContentStep(input, levels, i, j);
      TreeWidth(levels, i, j);
      ContentAddressed(input, levels, i, j);
      var left, right := s.Cycle(incoming, levels);
      var w := Transfer(wires, i, j, left, right);
      FlowStep(wires, w, levels, input, i, j, left, right);
      wires := w;
    }

    /** One cycle: what is pending at the root reaches, in this cycle, exactly the leaves it is addressed to. */
    method Cycle()
      requires Valid() && AllWellFormed(Pending(0, 0), Pow2(levels))
      requires forall l: nat, n: nat :: 0 < l <= levels && n < Pow2(l) ==> PendingIn(wires, l, n) == []
      modifies this`wires, switches.Values
      ensures Valid()
      ensures forall d: nat :: d < Pow2(levels) ==>
        PendingIn(wires, levels, d) ==
          if levels == 0 then old(Pending(0, 0)) else ForLeaf(old(Pending(0, 0)), Pow2(levels), d)
      ensures forall l: nat, n: nat :: l < levels && n < Pow2(l) ==> PendingIn(wires, l, n) == []
      ensures levels > 0 ==> forall d: nat, p: Packet :: d < Pow2(levels) ==>
        multiset(PendingIn(wires, levels, d))[p] ==
          if || p.header.Broadcast?
             || (p.header.Unicast? && (d == p.header.dest || (p.header.dest >= Pow2(levels) && d == Pow2(levels) - 1)))
             || (p.header.Multicast? && d < |p.header.dests| && p.header.dests[d])
          then multiset(old(Pending(0, 0)))[p] else 0
    {
      ghost var input := Pending(0, 0);
      assert Flowing(input, 0, 0);
      hide DSNetwork.Valid;
      var i, width := 0, 1;
      while i < levels
        invariant i <= levels && width == Pow2(i)
        invariant Valid() && Flowing(input, i, 0)
      {
        var j := 0;
        while j < width
          invariant j <= width
          invariant Valid() && Flowing(input, i, j)
        {
          StepSwitch(i, j, input);
          j := j + 1;
        }
        FlowLevel(wires, levels, input, i);
        i := i + 1;
        width := width * 2;
      }
      forall d: nat | d < Pow2(levels)
        ensures levels > 0 ==> Content(input, levels, levels, d) == ForLeaf(input, Pow2(levels), d)
      {
        SelectLeaf(input, Pow2(levels), d);
      }
      hide ForLeaf, Content, FlowingIn;
      forall d: nat, p: Packet | d < Pow2(levels)
        ensures multiset(ForLeaf(input, Pow2(levels), d))[p] ==
          if || p.header.Broadcast?
             || (p.header.Unicast? && (d == p.header.dest || (p.header.dest >= Pow2(levels) && d == Pow2(levels) - 1)))
             || (p.header.Multicast? && d < |p.header.dests| && p.header.dests[d])
          then multiset(input)[p] else 0
      {
        LeafCount(input, Pow2(levels), d, p);
      }
    }
  }
}
