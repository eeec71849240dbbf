/** What a switch of the fold network does besides adding: it gathers the sums of one VN from the
    folding links that end in it, accumulates them, and sends what it has to where it is configured to. */
module FoldSwitches {
  import opened Prelude
  import opened Tiles
  import opened Signals
  import opened Switches
  import opened FoldNodes
  import opened FoldCompiler
  import opened Accumulation
  import opened FoldNetworks

  function Flatten(links: seq<seq<Pkg>>): seq<Pkg> {
    if links == [] then [] else Flatten(links[..|links| - 1]) + links[|links| - 1]
  }

  /** The checks on the links: at most one carries data, and only one package of it. */
  ghost predicate OneLink(links: seq<seq<Pkg>>) {
    && (forall i :: 0 <= i < |links| ==> |links[i]| <= 1)
    && (forall i, j :: 0 <= i < j < |links| ==> links[i] == [] || links[j] == [])
  }

  lemma {:induction false} FlattenNone(links: seq<seq<Pkg>>)
    requires forall i :: 0 <= i < |links| ==> links[i] == []
    ensures Flatten(links) == []
  {
    if links != [] {
      FlattenNone(links[..|links| - 1]);
    }
  }

  /** When the checks hold, what is gathered is what the one link with data carries. */
  lemma {:induction false} FlattenOne(links: seq<seq<Pkg>>, i: nat)
    requires OneLink(links) && i < |links| && links[i] != []
    ensures Flatten(links) == links[i] && |Flatten(links)| == 1
  {
    var last := |links| - 1;
    if i < last {
      FlattenOne(links[..last], i);
    } else {
      FlattenNone(links[..last]);
    }
  }

  // ----- what a switch gathers

  /** srcs are the adders whose folding links end in switch id, each once. */
  ghost predicate AllSources(levels: nat, id: Id, srcs: seq<Id>) {
    && (forall src: Id :: src in srcs <==> IsAdder(levels, src) && FoldNode(src.0, src.1) == id)
    && (forall a, b :: 0 <= a < b < |srcs| ==> srcs[a] != srcs[b])
  }

  /** What the folding links from srcs show in a cycle from s. */
  ghost function LinksSeen(t: Tile, s: FenNet, srcs: seq<Id>): (links: seq<seq<Pkg>>)
    requires t.Valid()
    ensures |links| == |srcs|
  {
    seq(|srcs|, k requires 0 <= k < |srcs| => Seen(s, Now(t, s), srcs[k]))
  }

  /** The links that carry data are those of the carriers. */
  lemma SeenCarries(t: Tile, s: FenNet, id: Id, srcs: seq<Id>, k: nat)
    requires t.Valid() && AllSources(t.levels, id, srcs) && k < |srcs|
    ensures LinksSeen(t, s, srcs)[k] != [] ==> Carries(t.levels, s, Now(t, s), srcs[k].0, srcs[k].1, id)
  {
    hide Seen, Now, FoldNode;
    assert srcs[k] in srcs;
  }

  lemma CarrierIn(t: Tile, s: FenNet, id: Id, srcs: seq<Id>, l: nat, n: nat) returns (k: nat)
    requires t.Valid() && AllSources(t.levels, id, srcs) && Carries(t.levels, s, Now(t, s), l, n, id)
    ensures k < |srcs| && srcs[k] == (l, n) && LinksSeen(t, s, srcs)[k] == Seen(s, Now(t, s), (l, n)) != []
  {
    hide Seen, Now, FoldNode;
    assert (l, n) in srcs;
    k :| k < |srcs| && srcs[k] == (l, n);
  }

  /** When the checks of a fold node hold, the links pass theirs, and what they bring together is what
      the one carrier has put on its link. */
  lemma GatheredIsBelow(t: Tile, s: FenNet, id: Id, srcs: seq<Id>)
    requires t.Valid() && id.0 < t.levels && AllSources(t.levels, id, srcs) && FoldChecks(t, s, id)
    ensures OneLink(LinksSeen(t, s, srcs))
    ensures Flatten(LinksSeen(t, s, srcs)) == Below(t.levels, s, Now(t, s), id)
  {
    hide FenConfigOf, Now, Seen, Loaded, Carries, Flatten, LinksSeen, AllSources;
    var links := LinksSeen(t, s, srcs);
    if l: nat, n: nat :| Carries(t.levels, s, Now(t, s), l, n, id) {
      var k := CarrierIn(t, s, id, srcs, l, n);
      OnlyBelow(t.levels, s, Now(t, s), l, n, id);
      forall j: nat | j < |srcs| && j != k
        ensures links[j] == []
      {
        SourcesApart(t.levels, id, srcs, j, k);
        SeenCarries(t, s, id, srcs, j);
      }
      OneOf(links, k);
      FlattenOne(links, k);
    } else {
      forall j: nat | j < |srcs|
        ensures links[j] == []
      {
        SeenCarries(t, s, id, srcs, j);
      }
      FlattenNone(links);
    }
  }

  lemma SourcesApart(levels: nat, id: Id, srcs: seq<Id>, j: nat, k: nat)
    requires AllSources(levels, id, srcs) && j < |srcs| && k < |srcs| && j != k
    ensures srcs[j] != srcs[k]
  {
  }

  lemma OneOf(links: seq<seq<Pkg>>, k: nat)
    requires k < |links| && |links[k]| <= 1 && forall j :: 0 <= j < |links| && j != k ==> links[j] == []
    ensures OneLink(links)
  {
  }

  lemma OnlyBelow(levels: nat, s: FenNet, now: Id -> seq<Pkg>, l: nat, n: nat, id: Id)
    requires Carries(levels, s, now, l, n, id)
    requires forall k: nat, m: nat :: Carries(levels, s, now, k, m, id) ==> k == l && m == n
    ensures Below(levels, s, now, id) == Seen(s, now, (l, n))
  {
    hide Carries, Seen;
  }

  // ----- the switch

  class FEASwitch {
    // configuration
    var mode: AdderConfig
    var fwDirection: Option<FwDirection>
    var leftEnabled: bool
    var rightEnabled: bool
    var toMemory: bool
    var toFold: bool
    var nPsums: nat
    // folding
    var current: nat
    var register: Option<Pkg>
    var below: seq<Pkg>
    // FIFOs for output
    var outputPsum: seq<Pkg>
    var outputFw: seq<Pkg>
    ghost var adds: nat
    ghost var writes: nat

    constructor ()
      ensures Cfg() == FenConfig(Config(Add21, None, false, false, false), false)
      ensures View() == Fresh(0) && Drained()
    {
      mode, fwDirection := Add21, None;
      leftEnabled, rightEnabled, toMemory, toFold := false, false, false, false;
      nPsums, current, register, below := 0, 0, None, [];
      outputPsum, outputFw := [], [];
      adds, writes := 0, 0;
    }

    ghost function Cfg(): FenConfig
      reads this`mode, this`fwDirection, this`leftEnabled, this`rightEnabled, this`toMemory, this`toFold
    {
      FenConfig(Config(mode, fwDirection, leftEnabled, rightEnabled, toMemory), toFold)
    }

    /** The accumulator of the switch; the source keeps no counters here. */
    ghost function View(): Acc<real>
      reads this
    {
      Acc(nPsums, below, register, current, adds, writes, adds)
    }

    ghost predicate Drained()
      reads this`outputPsum, this`outputFw
    {
      outputPsum == [] && outputFw == []
    }

    method Current() returns (c: FenConfig)
      ensures c == Cfg()
    {
      c := FenConfig(Config(mode, fwDirection, leftEnabled, rightEnabled, toMemory), toFold);
    }

    method Configure(c: FenConfig, n: nat)
      modifies this`mode, this`fwDirection, this`leftEnabled, this`rightEnabled, this`toMemory, this`toFold, this`nPsums
      ensures Cfg() == c && View() == old(View()).(nPsums := n)
    {
      mode, fwDirection, leftEnabled, rightEnabled := c.adder.mode, c.adder.fw, c.adder.left, c.adder.right;
      toMemory, toFold, nPsums := c.adder.memory, c.toFold, n;
    }

    /** Takes what is pending on the folding links, and reports whether the checks on them held. */
    method ReceiveBelow(links: seq<seq<Pkg>>) returns (ok: bool)
      modifies this`below
      ensures ok <==> OneLink(links)
      ensures below == old(below) + Flatten(links)
    {
      ok := true;
      var withData := 0;
      ghost var at := 0;
      assert Flatten(links[..0]) == [];
      for i := 0 to |links|
        invariant below == old(below) + Flatten(links[..i])
        invariant withData == 0 <==> forall k :: 0 <= k < i ==> links[k] == []
        invariant withData == 1 ==>
          0 <= at < i && links[at] != [] && forall k :: 0 <= k < i && k != at ==> links[k] == []
        invariant withData >= 2 ==> exists j, k :: 0 <= j < k < i && links[j] != [] && links[k] != []
        invariant ok <==> forall k :: 0 <= k < i ==> |links[k]| <= 1
      {
        assert links[..i + 1][..i] == links[..i];
        if links[i] != [] {
          if withData == 1 {
            assert links[at] != [] && links[i] != [];
          }
          at := i;
          withData := withData + 1;
          ok := ok && |links[i]| == 1;
          TakeLink(links[i]);
        }
      }
      assert links[..|links|] == links;
      ok := ok && withData <= 1;
    }

    method TakeLink(pkgs: seq<Pkg>)
      modifies this`below
      ensures below == old(below) + pkgs
    {
      for i := 0 to |pkgs|
        invariant below == old(below) + pkgs[..i]
      {
        below := below + [pkgs[i]];
      }
    }

    /** Accumulates one sum; the switch is configured to write to memory. */
    method RouteFold()
      requires toMemory && View().Valid() && View().Matches()
      modifies this`current, this`register, this`below, this`outputPsum, this`adds, this`writes
      ensures View() == Absorb(old(View()), PLUS).0 && outputPsum == old(outputPsum) + Absorb(old(View()), PLUS).1
      ensures old(below) != [] ==>
        if old(current) == (if nPsums >= 1 then nPsums - 1 else 0xFFFF_FFFF)
        then current == 0 && register.Some? && outputPsum == old(outputPsum) + [register.value]
        else current == old(current) + 1 && outputPsum == old(outputPsum)
      ensures old(below) != [] ==>
        var p := old(below)[0];
        register == Some(if old(current) == 0 then p else
                           Package(old(register).value.vn, old(register).value.data + p.data))
    {
      if below != [] {
        var p := below[0];
        below := below[1..];
        if current == 0 {
          register := Some(p);
        } else {
          register := Some(Package(register.value.vn, register.value.data + p.data));
          adds := adds + 1;
        }
        writes := writes + 1;
        if current == (if nPsums == 0 then 0xFFFF_FFFF else nPsums - 1) {
          outputPsum := outputPsum + [register.value];
          current := 0;
        } else {
          current := current + 1;
        }
      }
    }

    /** Sends what is for the forwarding link, which must be set to send. */
    method SendLink() returns (side: seq<Pkg>)
      requires outputFw != [] ==> fwDirection == Some(Send)
      modifies this`outputFw
      ensures outputFw == [] && side == old(outputFw)
    {
      side := [];
      while outputFw != []
        invariant side + outputFw == old(outputFw)
        decreases |outputFw|
      {
        side := side + [outputFw[0]];
        outputFw := outputFw[1..];
      }
      assert side + [] == side;
    }

    /** Sends what the switch has: on its forwarding link, and to memory, on its folding link, or to its parent. */
    method SendAll() returns (memory: seq<Pkg>, fold: seq<Pkg>, parent: seq<Pkg>, side: seq<Pkg>)
      requires outputFw != [] ==> fwDirection == Some(Send)
      requires toMemory && outputPsum != [] ==> !toFold
      modifies this`outputPsum, this`outputFw
      ensures Drained() && side == old(outputFw)
      ensures memory == (if toMemory then old(outputPsum) else [])
      ensures fold == (if toFold && !toMemory then old(outputPsum) else [])
      ensures parent == (if toFold || toMemory then [] else old(outputPsum))
    {
      side := SendLink();
      memory, fold, parent := [], [], [];
      var out := [];
      while outputPsum != []
        invariant out + outputPsum == old(outputPsum) && outputFw == []
        decreases |outputPsum|
      {
        out := out + [outputPsum[0]];
        outputPsum := outputPsum[1..];
      }
      assert out == old(outputPsum);
      if toMemory {
        memory := out;
      } else if toFold {
        fold := out;
      } else {
        parent := out;
      }
    }

    /** One cycle of the switch: the folding links are read, the sum of the adder or a fold is routed, and
        everything is sent.  up and side are what its adder routes. */
    method Cycle(links: seq<seq<Pkg>>, up: seq<Pkg>, side: seq<Pkg>)
      returns (memory: seq<Pkg>, fold: seq<Pkg>, parent: seq<Pkg>, link: seq<Pkg>)
      requires View().Valid() && Drained() && OneLink(links)
      requires mode == Fold ==> toMemory && up == [] && View().(input := below + Flatten(links)).Matches()
      requires (toMemory ==> !toFold) && (side != [] ==> fwDirection == Some(Send))
      modifies this`current, this`register, this`below, this`outputPsum, this`outputFw, this`adds, this`writes
      ensures View().Valid() && Drained() && link == side
      ensures (View(), memory) == FoldOnce(Cfg(), old(View()).(input := old(below) + Flatten(links)), up)
      ensures fold == (if toFold && !toMemory then up else []) && parent == (if toFold || toMemory then [] else up)
    {
      hide Absorb, Flatten, OneLink;
      var ok := ReceiveBelow(links);
      outputPsum, outputFw := up, side;
      if mode == Fold {
        RouteFold();
        assert outputPsum == Absorb(old(View()).(input := old(below) + Flatten(links)), PLUS).1;
      }
      memory, fold, parent, link := SendAll();
    }
  }
}
