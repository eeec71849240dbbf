/**
 The distribution network: one tree per memory port, side by side over all the leaves.
 */
module DistributionTop {
  import opened Arithmetic
  import opened Layout
  import opened Distribution

  /** The index, in the whole network, of leaf d of port p. */
  function GlobalLeaf(width: nat, p: nat, d: nat): nat {
    p * width + d
  }

  /** No global leaf belongs to two ports, or twice to one. */
  lemma GlobalLeafUnique(width: nat, p: nat, d: nat, p': nat, d': nat)
    requires d < width && d' < width && GlobalLeaf(width, p, d) == GlobalLeaf(width, p', d')
    ensures p == p' && d == d'
  {
    if p < p' {
      RowFits(p, p', width);
    } else if p' < p {
      RowFits(p', p, width);
    }
  }

  class DSNetworkTop {
    const levels: nat
    const nets: seq<DSNetwork>

    ghost function Owned(): set<object>
    {
      set n, s | n in nets && s in n.switches.Values :: s
    }

    ghost predicate Valid()
      reads nets, Owned()
    {
      && (forall p :: 0 <= p < |nets| ==> nets[p].levels == levels && nets[p].Valid())
      && (forall p, q :: 0 <= p < q < |nets| ==>
        nets[p] != nets[q] && nets[p].switches.Values !! nets[q].switches.Values)
    }

    /** Every port's input is well formed, and nothing is pending below the roots. */
    ghost predicate ReadyAt(p: nat)
      requires p < |nets|
      reads nets
    {
      && AllWellFormed(nets[p].Pending(0, 0), Pow2(levels))
      && (forall l: nat, n: nat :: 0 < l <= levels && n < Pow2(l) ==> PendingIn(nets[p].wires, l, n) == [])
    }

    /** What leaf d of a port should get of the packets sent on that port. */
    static function Share(input: seq<Packet>, levels: nat, d: nat): seq<Packet> {
      if levels == 0 then input else ForLeaf(input, Pow2(levels), d)
    }

    ghost predicate ServedAt(p: nat, input: seq<Packet>)
      requires p < |nets|
      reads nets
    {
      forall d: nat :: d < Pow2(levels) ==> PendingIn(nets[p].wires, levels, d) == Share(input, levels, d)
    }

    constructor (ports: nat, levels: nat)
      ensures this.levels == levels && |nets| == ports && Valid() && fresh(nets) && fresh(Owned())
      ensures forall p :: 0 <= p < ports ==> nets[p].wires == map[]
    {
      this.levels := levels;
      var all: seq<DSNetwork> := [];
      var i := 0;
      while i < ports
        invariant |all| == i <= ports && fresh(all)
        invariant forall p :: 0 <= p < i ==>
          all[p].levels == levels && all[p].Valid() && all[p].wires == map[] && fresh(all[p].switches.Values)
        invariant forall p, q :: 0 <= p < q < i ==> all[p] != all[q] && all[p].switches.Values !! all[q].switches.Values
      {
        var net := new DSNetwork(levels);
        all := all + [net];
        i := i + 1;
      }
      nets := all;
    }

    /** Runs the tree of port i; the other ports are not touched. */
    method CycleOne(i: nat, ghost input: seq<Packet>)
      requires Valid() && i < |nets| && ReadyAt(i) && nets[i].Pending(0, 0) == input
      modifies nets[i], nets[i].switches.Values
      ensures Valid() && ServedAt(i, input)
      ensures forall p :: 0 <= p < |nets| && p != i ==> nets[p].wires == old(nets[p].wires)
    {
      hide DSNetwork.Valid, AllWellFormed, ForLeaf;
      nets[i].Cycle();
    }

    /** One cycle: every port serves its own leaves, and only those. */
    method Cycle(ghost inputs: seq<seq<Packet>>)
      requires Valid() && |inputs| == |nets|
      requires forall p :: 0 <= p < |nets| ==> ReadyAt(p) && nets[p].Pending(0, 0) == inputs[p]
      modifies nets, Owned()
      ensures Valid()
      ensures forall p :: 0 <= p < |nets| ==> ServedAt(p, inputs[p])
      ensures levels > 0 ==> forall p: nat, d: nat, k: Packet :: p < |nets| && d < Pow2(levels) ==>
        multiset(PendingIn(nets[p].wires, levels, d))[k] ==
          if || k.header.Broadcast?
             || (k.header.Unicast? && (d == k.header.dest || (k.header.dest >= Pow2(levels) && d == Pow2(levels) - 1)))
             || (k.header.Multicast? && d < |k.header.dests| && k.header.dests[d])
          then multiset(inputs[p])[k] else 0
    {
      hide DSNetworkTop.Valid, AllWellFormed, ForLeaf;
      var i := 0;
      while i < |nets|
        invariant i <= |nets| && Valid()
        invariant forall p :: 0 <= p < i ==> ServedAt(p, inputs[p])
        invariant forall p :: i <= p < |nets| ==> ReadyAt(p) && nets[p].Pending(0, 0) == inputs[p]
      {
        CycleOne(i, inputs[i]);
        i := i + 1;
      }
      forall p: nat, d: nat, k: Packet | p < |nets| && d < Pow2(levels)
        ensures multiset(ForLeaf(inputs[p], Pow2(levels), d))[k] ==
          if || k.header.Broadcast?
             || (k.header.Unicast? && (d == k.header.dest || (k.header.dest >= Pow2(levels) && d == Pow2(levels) - 1)))
             || (k.header.Multicast? && d < |k.header.dests| && k.header.dests[d])
          then multiset(inputs[p])[k] else 0
      {
        LeafCount(inputs[p], Pow2(levels), d, k);
      }
    }

    /** A unicast for leaf d sent on port p alone is, after a cycle, at entry p * 2^levels + d of the table of
        last-level connections, as often as it was sent, and at no other entry. */
    lemma UnicastLands(table: seq<(nat, nat)>, inputs: seq<seq<Packet>>, k: Packet, p: nat, d: nat, g: nat)
      requires |inputs| == |nets| && forall q :: 0 <= q < |nets| ==> ServedAt(q, inputs[q])
      requires |table| == |nets| * Pow2(levels) && g < |table|
      requires table[g].0 < |nets| && table[g].1 < Pow2(levels) && g == table[g].0 * Pow2(levels) + table[g].1
      requires k.header == Unicast(d) && d < Pow2(levels) && p < |nets|
      requires forall q :: 0 <= q < |nets| && q != p ==> k !in inputs[q]
      ensures multiset(PendingIn(nets[table[g].0].wires, levels, table[g].1))[k] ==
        if g == p * Pow2(levels) + d then multiset(inputs[p])[k] else 0
    {
      hide ForLeaf;
      var w, q, e := Pow2(levels), table[g].0, table[g].1;
      if g == p * w + d {
        GlobalLeafUnique(w, q, e, p, d);
      }
      assert PendingIn(nets[q].wires, levels, e) == Share(inputs[q], levels, e);
      if levels > 0 {
        LeafCount(inputs[q], w, e, k);
      }
    }

    /** The global leaves in order: which port, and which leaf of its tree, each one is. */
    method LastLevelConnections() returns (table: seq<(nat, nat)>)
      ensures |table| == |nets| * Pow2(levels)
      ensures forall g :: 0 <= g < |table| ==>
        table[g].0 < |nets| && table[g].1 < Pow2(levels) && g == GlobalLeaf(Pow2(levels), table[g].0, table[g].1)
    {
      var width := Pow2(levels);
      table := [];
      var i := 0;
      while i < |nets|
        invariant i <= |nets| && |table| == i * width
        invariant forall g :: 0 <= g < |table| ==>
          table[g].0 < i && table[g].1 < width && g == GlobalLeaf(width, table[g].0, table[g].1)
      {
        var j := 0;
        while j < width
          invariant j <= width && |table| == GlobalLeaf(width, i, j)
          invariant forall g :: 0 <= g < |table| ==>
            table[g].0 <= i && table[g].1 < width && g == GlobalLeaf(width, table[g].0, table[g].1)
        {
          table := table + [(i, j)];
          j := j + 1;
        }
        assert (i + 1) * width == i * width + width;
        i := i + 1;
      }
    }
  }
}
