/**
 The fold network: a table of switches, the folding links wired between them, and the loop that
 steps every switch once, which makes the synchronous cycle of the model.
 */
module FoldingNetwork {
  import opened Prelude
  import opened Layout
  import opened Tiles
  import opened Signals
  import opened Switches
  import opened Networks
  import opened Ordering
  import opened Runs
  import opened FoldNodes
  import opened FoldCompiler
  import opened Accumulation
  import opened FoldNetworks
  import opened FoldSwitches

  /** The adders before (i, j), level by level. */
  predicate Before(levels: nat, i: nat, j: nat, id: Id) {
    IsAdder(levels, id) && (id.0 < i || (id.0 == i && id.1 < j))
  }

  function PendingOn(pending: map<Id, seq<Pkg>>, id: Id): seq<Pkg> {
    if id in pending then pending[id] else []
  }

  function SourcesOf(inputs: map<Id, seq<Id>>, id: Id): seq<Id> {
    if id in inputs then inputs[id] else []
  }

  // ----- a cycle under way

  /** The switches that have run: the adders in done, and the extra switch if special is set. */
  datatype Progress = Progress(done: set<Id>, special: bool) {
    predicate Ran(id: Id) {
      if id == SPECIAL then special else id in done
    }
  }

  /** What is on the folding link of src: read by its fold node, then written by src; the extra switch
      reads what the root has written in the same cycle. */
  ghost function LinkNow(t: Tile, s: FenNet, p: Progress, src: Id): seq<Pkg>
    requires t.Valid()
  {
    if src in p.done then if src == (0, 0) && p.special then [] else Now(t, s)(src)
    else if src == (0, 0) || p.Ran(FoldNode(src.0, src.1)) then [] else s.sent(src)
  }

  /** Switch id may run next, as far as folding goes: it has not run, its fold node has, and of the adders
      whose links it reads only the root has. */
  ghost predicate MayFold(levels: nat, p: Progress, id: Id) {
    && IsSwitch(levels, id) && !p.Ran(id) && (id == (0, 0) ==> !p.special)
    && (IsAdder(levels, id) && id != (0, 0) ==> p.Ran(FoldNode(id.0, id.1)))
    && (forall src: Id :: IsAdder(levels, src) && FoldNode(src.0, src.1) == id ==> (src in p.done <==> src == (0, 0)))
  }

  function With(p: Progress, id: Id): Progress {
    if id == SPECIAL then p.(special := true) else p.(done := p.done + {id})
  }

  /** What the links that end in a switch show when its turn comes is what the cycle's start state says. */
  lemma LinkInTurn(t: Tile, s: FenNet, p: Progress, id: Id, src: Id)
    requires t.Valid() && MayFold(t.levels, p, id) && IsAdder(t.levels, src) && FoldNode(src.0, src.1) == id
    ensures LinkNow(t, s, p, src) == Seen(s, Now(t, s), src)
  {
    hide Now, IsAdder;
    if src == (0, 0) {
      assert FoldNode(0, 0) == SPECIAL;
    }
  }

  /** A turn empties the links that end in the switch and fills its own, which was empty; no other link changes. */
  lemma LinkAfterTurn(t: Tile, s: FenNet, p: Progress, id: Id, src: Id)
    requires t.Valid() && MayFold(t.levels, p, id) && IsAdder(t.levels, src)
    ensures src == id ==> LinkNow(t, s, p, src) == []
    ensures LinkNow(t, s, With(p, id), src) ==
      if src == id then Now(t, s)(src)
      else if FoldNode(src.0, src.1) == id then []
      else LinkNow(t, s, p, src)
  {
    hide Now;
    if src == (0, 0) {
      assert FoldNode(0, 0) == SPECIAL;
    }
    FoldPosition(t.levels, src.0, src.1);
  }

  /** What switch id ends the cycle with: its accumulator, and all it has written. */
  ghost function Result(t: Tile, s: FenNet, id: Id): (ValidAcc, seq<Pkg>)
    requires t.Valid() && id.0 < t.levels
  {
    var c := FenConfigOf(t, id.0, id.1);
    var r := FoldOnce(c, Loaded(t.levels, s, Now(t, s), id), Emitted(c, s.tree, id));
    (r.0, s.written(id) + r.1)
  }

  ghost predicate FoldSoFar(t: Tile, s: FenNet, p: Progress, accs: map<Id, Acc<real>>, written: map<Id, seq<Pkg>>,
                            id: Id)
    requires t.Valid() && id.0 < t.levels
  {
    id in accs && (accs[id], PendingOn(written, id)) ==
      if p.Ran(id) then Result(t, s, id) else (s.accs(id), s.written(id))
  }

  /** Folding, when the switches of p have run. */
  ghost predicate FoldsSoFar(t: Tile, s: FenNet, p: Progress, accs: map<Id, Acc<real>>, written: map<Id, seq<Pkg>>,
                             pending: map<Id, seq<Pkg>>)
    requires t.Valid()
  {
    && (forall id: Id :: IsSwitch(t.levels, id) ==> FoldSoFar(t, s, p, accs, written, id))
    && (forall src: Id :: IsAdder(t.levels, src) ==> PendingOn(pending, src) == LinkNow(t, s, p, src))
  }

  /** The links after the turn of id: those from srcs read, its own written. */
  ghost predicate LinksMoved(pending: map<Id, seq<Pkg>>, pending': map<Id, seq<Pkg>>, srcs: seq<Id>, id: Id,
                             fold: seq<Pkg>) {
    forall src: Id :: PendingOn(pending', src) ==
      if src == id && fold != [] then fold else if src in srcs then [] else PendingOn(pending, src)
  }

  /** The turn of one switch brings folding forward. */
  lemma FoldTurned(t: Tile, s: FenNet, p: Progress, id: Id, srcs: seq<Id>,
                   accs: map<Id, Acc<real>>, written: map<Id, seq<Pkg>>, pending: map<Id, seq<Pkg>>,
                   accs': map<Id, Acc<real>>, written': map<Id, seq<Pkg>>, pending': map<Id, seq<Pkg>>)
    requires t.Valid() && MayFold(t.levels, p, id) && AllSources(t.levels, id, srcs)
    requires FoldsSoFar(t, s, p, accs, written, pending)
    requires accs' == accs[id := Result(t, s, id).0] && written' == written[id := Result(t, s, id).1]
    requires LinksMoved(pending, pending', srcs, id, if IsAdder(t.levels, id) then Now(t, s)(id) else [])
    ensures FoldsSoFar(t, s, With(p, id), accs', written', pending')
  {
    hide Result, LinkNow, MayFold, Now;
    forall k: Id | IsSwitch(t.levels, k)
      ensures FoldSoFar(t, s, With(p, id), accs', written', k)
    {
      assert FoldSoFar(t, s, p, accs, written, k);
    }
    forall src: Id | IsAdder(t.levels, src)
      ensures PendingOn(pending', src) == LinkNow(t, s, With(p, id), src)
    {
      LinkAfterTurn(t, s, p, id, src);
      assert PendingOn(pending, src) == LinkNow(t, s, p, src);
      NotOwnSource(t.levels, id, srcs);
    }
  }

  /** No folding link ends where it starts. */
  lemma NotOwnSource(levels: nat, id: Id, srcs: seq<Id>)
    requires AllSources(levels, id, srcs)
    ensures id !in srcs
  {
    if id in srcs {
      FoldPosition(levels, id.0, id.1);
    }
  }

  /** The extra switch completes no VN. */
  lemma SpecialCompletesNothing(t: Tile)
    requires t.Valid()
    ensures !FenConfigOf(t, SPECIAL.0, SPECIAL.1).toFold
  {
    hide FenSignalAfter, FenChildEnabled, FinishFrom;
  }

  // ----- the order of the simulator

  /** All adders above level i have run, and none below it. */
  ghost predicate LevelOpen(levels: nat, done: set<Id>, i: nat) {
    forall l: nat, n: nat :: InTree(levels, l, n) ==> (l < i ==> (l, n) in done) && (l > i ==> (l, n) !in done)
  }

  lemma OpenAt(levels: nat, done: set<Id>, i: nat, j: nat)
    requires DoneUpTo(levels, done, i, j)
    ensures LevelOpen(levels, done, i) && forall n: nat :: LevelOpen(levels, done + {(i, n)}, i)
  {
  }

  /** The order that suits the tree suits the folding links, too: fold nodes are above the adders they serve. */
  lemma AdderMayFold(levels: nat, p: Progress, i: nat, j: nat)
    requires LevelOpen(levels, p.done, i) && InTree(levels, i, j) && (i, j) !in p.done && i > 0 && p.special
    ensures MayFold(levels, p, (i, j))
  {
    hide FoldNode, RightEdge, Position;
    FoldPosition(levels, i, j);
    var id := FoldNode(i, j);
    assert id != SPECIAL ==> InTree(levels, id.0, id.1);
    forall src: Id | IsAdder(levels, src) && FoldNode(src.0, src.1) == (i, j)
      ensures src !in p.done && src != (0, 0)
    {
      FoldPosition(levels, src.0, src.1);
      assert InTree(levels, src.0, src.1);
    }
  }

  lemma RootMayFold(levels: nat)
    requires levels > 0
    ensures MayFold(levels, Progress({}, false), (0, 0))
  {
    assert FoldNode(0, 0) == SPECIAL;
  }

  lemma SpecialMayFold(levels: nat)
    requires levels > 0
    ensures MayFold(levels, Progress({(0, 0)}, false), SPECIAL)
  {
    assert FoldNode(0, 0) == SPECIAL;
  }

  class FENetwork {
    const levels: nat
    const switches: map<Id, FEASwitch>
    /** The adders whose folding links end in each switch. */
    const inputs: map<Id, seq<Id>>
    var tree: Net
    var pending: map<Id, seq<Pkg>>
    var written: map<Id, seq<Pkg>>
    /** What each adder put on its folding link in the last cycle. */
    ghost var sent: map<Id, seq<Pkg>>

    ghost predicate Valid()
      reads switches.Values
    {
      && levels > 0 && Wired(inputs, levels, levels, 0)
      && (forall id: Id :: IsSwitch(levels, id) ==> id in switches)
      && (forall id :: id in switches ==> IsSwitch(levels, id) && switches[id].Drained() && switches[id].View().Valid())
      && (forall a, b :: a in switches && b in switches && a != b ==> switches[a] != switches[b])
    }

    ghost predicate ConfiguredFor(t: Tile)
      requires t.Valid()
      reads switches.Values
    {
      && t.levels == levels
      && (forall id :: id in switches ==> id.0 < levels && switches[id].Cfg() == FenConfigOf(t, id.0, id.1))
    }

    ghost function Accs(): map<Id, Acc<real>>
      reads switches.Values
    {
      map id | id in switches :: switches[id].View()
    }

    ghost function View(): FenNet
      reads this, switches.Values
    {
      var accs, out, last := Accs(), written, sent;
      FenNet(tree, (id: Id) => PendingOn(last, id),
             (id: Id) => if id in accs && accs[id].Valid() then accs[id] else Fresh(0),
             (id: Id) => PendingOn(out, id))
    }

    // ----- construction

    static ghost predicate NewSwitches(table: map<Id, FEASwitch>)
      reads table.Values
    {
      && (forall id :: id in table ==> table[id].View() == Fresh(0) && table[id].Drained())
      && (forall a, b :: a in table && b in table && a != b ==> table[a] != table[b])
    }

    static method AddSwitch(table: map<Id, FEASwitch>, i: nat, j: nat) returns (more: map<Id, FEASwitch>)
      requires NewSwitches(table) && (i, j) !in table
      ensures NewSwitches(more) && fresh(more.Values - table.Values) && more.Keys == table.Keys + {(i, j)}
    {
      var sw := new FEASwitch();
      more := table[(i, j) := sw];
    }

    /** Switch id is built before (i, j), where level 0 has two switches. */
    static predicate Built(levels: nat, i: nat, j: nat, id: Id) {
      Before(levels, i, j, id) || (id == SPECIAL && (i > 0 || j >= 2))
    }

    static lemma BuiltNext(levels: nat, i: nat, j: nat, id: Id)
      requires i < levels && j < (if i == 0 then 2 else Pow2(i))
      ensures Built(levels, i, j + 1, id) <==> Built(levels, i, j, id) || id == (i, j)
      ensures !Built(levels, i, j, (i, j))
    {
    }

    static lemma RowBuilt(levels: nat, i: nat, id: Id)
      requires i < levels
      ensures Built(levels, i, if i == 0 then 2 else Pow2(i), id) <==> Built(levels, i + 1, 0, id)
    {
    }

    static method AddRow(table: map<Id, FEASwitch>, levels: nat, i: nat) returns (more: map<Id, FEASwitch>)
      requires i < levels && NewSwitches(table) && forall id: Id :: id in table <==> Built(levels, i, 0, id)
      ensures NewSwitches(more) && fresh(more.Values - table.Values)
      ensures forall id: Id :: id in more <==> Built(levels, i + 1, 0, id)
    {
      hide FENetwork.NewSwitches, FENetwork.Built;
      more := table;
      var width := if i == 0 then 2 else Pow2(i);
      var j := 0;
      while j < width
        invariant j <= width && NewSwitches(more) && fresh(more.Values - table.Values)
        invariant forall id: Id :: id in more <==> Built(levels, i, j, id)
      {
        BuiltNext(levels, i, j, (i, j));
        more := AddSwitch(more, i, j);
        ghost var j' := j + 1;
        forall id: Id
          ensures Built(levels, i, j', id) <==> Built(levels, i, j, id) || id == (i, j)
        {
          BuiltNext(levels, i, j, id);
        }
        j := j + 1;
      }
      ghost var i' := i + 1;
      forall id: Id
        ensures Built(levels, i, width, id) <==> Built(levels, i', 0, id)
      {
        RowBuilt(levels, i, id);
      }
    }

    /** The switches of the tree and the extra one beside the root. */
    static method BuildTable(levels: nat) returns (table: map<Id, FEASwitch>)
      requires levels > 0
      ensures NewSwitches(table) && fresh(table.Values) && forall id: Id :: id in table <==> IsSwitch(levels, id)
    {
      hide FENetwork.NewSwitches;
      table := map[];
      assert NewSwitches(table) by { NoSwitches(table); }
      var i := 0;
      while i < levels
        invariant i <= levels && NewSwitches(table) && fresh(table.Values)
        invariant forall id: Id :: id in table <==> Built(levels, i, 0, id)
      {
        table := AddRow(table, levels, i);
        i := i + 1;
      }
    }

    static lemma NoSwitches(table: map<Id, FEASwitch>)
      requires table == map[]
      ensures NewSwitches(table)
    {
    }

    constructor (levels: nat)
      requires levels > 0
      ensures this.levels == levels && Valid() && Between() && fresh(switches.Values)
      ensures Silent(tree) && written == map[] && sent == map[]
      ensures forall id :: id in switches ==> switches[id].View() == Fresh(0)
    {
      hide FENetwork.Wired;
      this.levels := levels;
      var links := WireLinks(levels);
      var table := BuildTable(levels);
      switches, inputs := table, links;
      tree := Net(map[], map[], map[], map[]);
      pending, written, sent := map[], map[], map[];
    }

    // ----- configuration

    /** Loads one switch; the others keep theirs. */
    method LoadSwitch(id: Id, c: FenConfig, k: nat)
      requires Valid() && id in switches
      modifies switches.Values
      ensures Valid() && switches[id].Cfg() == c && switches[id].View() == old(switches[id].View()).(nPsums := k)
      ensures forall a :: a in switches && a != id ==>
        switches[a].Cfg() == old(switches[a].Cfg()) && switches[a].View() == old(switches[a].View())
    {
      hide FENetwork.Wired, IsSwitch;
      assert forall a :: a in switches && a != id ==> switches[a] != switches[id];
      switches[id].Configure(c, k);
    }

    ghost predicate LoadedAt(t: Tile, k: nat, id: Id)
      requires t.Valid()
      reads switches.Values
    {
      id in switches && id.0 < t.levels && switches[id].Cfg() == FenConfigOf(t, id.0, id.1)
        && switches[id].View() == Fresh(k)
    }

    ghost predicate Compiles(c: CompilerFEN, t: Tile)
      requires t.Valid()
      reads c, c.pass
    {
      forall id: Id :: IsSwitch(t.levels, id) ==> c.ConfigAt(id.0, id.1) == FenConfigOf(t, id.0, id.1)
    }

    /** Loads the compiled configuration of switch id. */
    method LoadCompiled(t: Tile, c: CompilerFEN, k: nat, id: Id)
      requires t.Valid() && Valid() && t.levels == levels && Compiles(c, t)
      requires id in switches && switches[id].View() == Fresh(0)
      modifies switches.Values
      ensures Valid() && Compiles(c, t) && LoadedAt(t, k, id)
      ensures forall a :: a in switches && a != id ==>
        switches[a].Cfg() == old(switches[a].Cfg()) && switches[a].View() == old(switches[a].View())
    {
      hide FENetwork.Wired, FenConfigOf, CompilerFEN.ConfigAt;
      assert IsSwitch(t.levels, id);
      var cfg := c.Lookup(id.0, id.1);
      LoadSwitch(id, cfg, k);
    }

    /** Loads every switch. */
    method LoadAll(t: Tile, c: CompilerFEN, k: nat)
      requires t.Valid() && Valid() && t.levels == levels && Compiles(c, t)
      requires forall id :: id in switches ==> switches[id].View() == Fresh(0)
      modifies switches.Values
      ensures Valid() && ConfiguredFor(t) && forall id :: id in switches ==> switches[id].View() == Fresh(k)
    {
      hide FenConfigOf, FENetwork.Valid, FENetwork.Compiles;
      var rest := switches.Keys;
      while rest != {}
        invariant Valid() && Compiles(c, t) && rest <= switches.Keys
        invariant forall id :: id in rest ==> switches[id].View() == Fresh(0)
        invariant forall id :: id in switches && id !in rest ==> LoadedAt(t, k, id)
        decreases |rest|
      {
        var id :| id in rest;
        LoadCompiled(t, c, k, id);
        rest := rest - {id};
      }
    }

    /** Compiles a tile and loads it, with blocks of k sums, into a new network. */
    method Configure(t: Tile, k: nat)
      requires t.Valid() && Valid() && t.levels == levels
      requires forall id :: id in switches ==> switches[id].View() == Fresh(0)
      modifies switches.Values
      ensures Valid() && ConfiguredFor(t) && forall id :: id in switches ==> switches[id].View() == Fresh(k)
    {
      hide FENetwork.Wired, FenConfigOf;
      var c := new CompilerFEN();
      c.ConfigureSignals(t);
      LoadAll(t, c, k);
    }

    // ----- wiring

    /** The links of the adders before (i, j) are wired, each to the fold node of its adder. */
    static ghost predicate Wired(inputs: map<Id, seq<Id>>, levels: nat, i: nat, j: nat) {
      forall id: Id :: WiredAt(SourcesOf(inputs, id), levels, i, j, id)
    }

    /** srcs are the adders before (i, j) whose fold node is id, each once. */
    static ghost predicate WiredAt(srcs: seq<Id>, levels: nat, i: nat, j: nat, id: Id) {
      && (forall src: Id :: src in srcs <==> Before(levels, i, j, src) && FoldNode(src.0, src.1) == id)
      && (forall a, b :: 0 <= a < b < |srcs| ==> srcs[a] != srcs[b])
    }

    /** Wires the folding link of adder (i, j). */
    static method WireLink(inputs: map<Id, seq<Id>>, levels: nat, i: nat, j: nat) returns (more: map<Id, seq<Id>>)
      requires Wired(inputs, levels, i, j) && i < levels && j < Pow2(i)
      ensures Wired(more, levels, i, j + 1)
    {
      var target := WiredTarget(i, j);
      more := inputs[target := SourcesOf(inputs, target) + [(i, j)]];
      WiredNext(inputs, more, levels, i, j);
    }

    static lemma WiredNext(inputs: map<Id, seq<Id>>, more: map<Id, seq<Id>>, levels: nat, i: nat, j: nat)
      requires Wired(inputs, levels, i, j) && i < levels && j < Pow2(i)
      requires var target := FoldNode(i, j); more == inputs[target := SourcesOf(inputs, target) + [(i, j)]]
      ensures Wired(more, levels, i, j + 1)
    {
      hide FoldNode, FENetwork.WiredAt;
      ghost var j' := j + 1;
      forall id: Id
        ensures WiredAt(SourcesOf(more, id), levels, i, j', id)
      {
        assert WiredAt(SourcesOf(inputs, id), levels, i, j, id);
        WiredAtNext(SourcesOf(inputs, id), levels, i, j, id);
      }
    }

    static lemma WiredAtNext(srcs: seq<Id>, levels: nat, i: nat, j: nat, id: Id)
      requires WiredAt(srcs, levels, i, j, id) && i < levels && j < Pow2(i)
      ensures WiredAt(if id == FoldNode(i, j) then srcs + [(i, j)] else srcs, levels, i, j + 1, id)
    {
      hide FoldNode, Before;
      var more := if id == FoldNode(i, j) then srcs + [(i, j)] else srcs;
      BeforeNext(levels, i, j, (i, j));
      forall src: Id
        ensures src in more <==> Before(levels, i, j + 1, src) && FoldNode(src.0, src.1) == id
      {
        BeforeNext(levels, i, j, src);
        assert src in srcs <==> Before(levels, i, j, src) && FoldNode(src.0, src.1) == id;
      }
      forall a, b | 0 <= a < b < |more|
        ensures more[a] != more[b]
      {
        assert more[a] == srcs[a] && srcs[a] in srcs;
      }
    }

    static lemma BeforeNext(levels: nat, i: nat, j: nat, src: Id)
      requires i < levels && j < Pow2(i)
      ensures Before(levels, i, j + 1, src) <==> Before(levels, i, j, src) || src == (i, j)
      ensures !Before(levels, i, j, (i, j))
    {
    }

    /** Wires every folding link, level by level from the root. */
    static method WireLinks(levels: nat) returns (inputs: map<Id, seq<Id>>)
      ensures Wired(inputs, levels, levels, 0)
    {
      hide FoldNode;
      inputs := map[];
      var i, width := 0, 1;
      while i < levels
        invariant i <= levels && width == Pow2(i) && Wired(inputs, levels, i, 0)
      {
        var j := 0;
        while j < width
          invariant j <= width && Wired(inputs, levels, i, j)
        {
          inputs := WireLink(inputs, levels, i, j);
          j := j + 1;
        }
        RowWired(inputs, levels, i);
        i := i + 1;
        width := width * 2;
      }
    }

    static lemma RowWired(inputs: map<Id, seq<Id>>, levels: nat, i: nat)
      requires Wired(inputs, levels, i, Pow2(i))
      ensures Wired(inputs, levels, i + 1, 0)
    {
      hide FoldNode;
      ghost var i' := i + 1;
      assert forall src: Id :: Before(levels, i, Pow2(i), src) <==> Before(levels, i', 0, src);
      forall id: Id
        ensures WiredAt(SourcesOf(inputs, id), levels, i', 0, id)
      {
        assert WiredAt(SourcesOf(inputs, id), levels, i, Pow2(i), id);
      }
    }

    lemma WiredSources(id: Id)
      requires Valid()
      ensures AllSources(levels, id, SourcesOf(inputs, id))
    {
      hide FoldNode;
      assert WiredAt(SourcesOf(inputs, id), levels, levels, 0, id);
      assert forall src: Id :: Before(levels, levels, 0, src) <==> IsAdder(levels, src);
    }

    // ----- one switch

    /** Reads the links from srcs: what they held, and the links with these emptied. */
    static method Gather(pending: map<Id, seq<Pkg>>, srcs: seq<Id>)
      returns (links: seq<seq<Pkg>>, rest: map<Id, seq<Pkg>>)
      requires forall a, b :: 0 <= a < b < |srcs| ==> srcs[a] != srcs[b]
      ensures |links| == |srcs| && forall k :: 0 <= k < |srcs| ==> links[k] == PendingOn(pending, srcs[k])
      ensures forall id: Id :: PendingOn(rest, id) == if id in srcs then [] else PendingOn(pending, id)
    {
      links, rest := [], pending;
      for i := 0 to |srcs|
        invariant |links| == i && forall k :: 0 <= k < i ==> links[k] == PendingOn(pending, srcs[k])
        invariant forall id: Id :: PendingOn(rest, id) == if id in srcs[..i] then [] else PendingOn(pending, id)
      {
        assert srcs[i] !in srcs[..i];
        links := links + [PendingOn(rest, srcs[i])];
        rest := rest - {srcs[i]};
        assert srcs[..i + 1] == srcs[..i] + [srcs[i]];
      }
      assert srcs[..|srcs|] == srcs;
    }

    /** A switch can make its cycle on these links and this output of its adder. */
    static ghost predicate CanRun(sw: FEASwitch, links: seq<seq<Pkg>>, up: seq<Pkg>, side: seq<Pkg>)
      reads sw
    {
      && OneLink(links) && sw.View().Valid() && sw.Drained()
      && (sw.mode == Fold ==> sw.toMemory && up == [] && sw.View().(input := sw.below + Flatten(links)).Matches())
      && (sw.toMemory ==> !sw.toFold) && (side != [] ==> sw.fwDirection == Some(Send))
    }

    /** Runs one switch; the others are not touched. */
    method RunAlone(id: Id, links: seq<seq<Pkg>>, up: seq<Pkg>, side: seq<Pkg>)
      returns (memory: seq<Pkg>, fold: seq<Pkg>)
      requires id in switches && CanRun(switches[id], links, up, side)
      requires forall k :: k in switches && k != id ==> switches[k] != switches[id]
      modifies switches[id]
      ensures switches[id].Cfg() == old(switches[id].Cfg()) && switches[id].Drained() && switches[id].View().Valid()
      ensures var c := switches[id].Cfg();
        var a := old(switches[id].View()).(input := old(switches[id].below) + Flatten(links));
        && (switches[id].View(), memory) == FoldOnce(c, a, up)
        && fold == (if c.toFold && !c.adder.memory then up else [])
    {
      hide Flatten, OneLink, FoldOnce, Acc.Matches;
      ghost var parent, link;
      memory, fold, parent, link := switches[id].Cycle(links, up, side);
    }

    /** Runs the switch id on the given links and the given output of its adder. */
    method RunSwitch(id: Id, links: seq<seq<Pkg>>, up: seq<Pkg>, side: seq<Pkg>, ghost t: Tile)
      returns (memory: seq<Pkg>, fold: seq<Pkg>)
      requires t.Valid() && Valid() && ConfiguredFor(t) && id in switches && CanRun(switches[id], links, up, side)
      modifies switches.Values
      ensures Valid() && ConfiguredFor(t)
      ensures var c := FenConfigOf(t, id.0, id.1);
        var a := old(switches[id].View()).(input := old(switches[id].below) + Flatten(links));
        && a.Valid()
        && Accs() == old(Accs())[id := FoldOnce(c, a, up).0] && memory == FoldOnce(c, a, up).1
        && fold == (if c.toFold && !c.adder.memory then up else [])
    {
      hide Flatten, FoldOnce, FenConfigOf, FENetwork.Wired, IsSwitch, FENetwork.CanRun;
      memory, fold := RunAlone(id, links, up, side);
      assert forall k :: k in switches && k != id ==> switches[k].View() == old(switches[k].View());
    }

    /** A cycle that started in state s is under way, and the switches of p have run. */
    ghost predicate Underway(t: Tile, s: FenNet, p: Progress)
      requires t.Valid()
      reads this, switches.Values
    {
      && Valid() && ConfiguredFor(t) && FenOk(t, s) && s.tree.Wire(0, 0) == []
      && SoFar(levels, FenTree(t), s.tree, tree, p.done)
      && FoldsSoFar(t, s, p, Accs(), written, pending)
    }

    /** The links that end in id, when its turn comes. */
    lemma LinksInTurn(t: Tile, s: FenNet, p: Progress, id: Id, links: seq<seq<Pkg>>)
      requires t.Valid() && Valid() && t.levels == levels && IsSwitch(levels, id)
      requires MayFold(levels, p, id) && FoldChecks(t, s, id)
      requires FoldsSoFar(t, s, p, Accs(), written, pending)
      requires var srcs := SourcesOf(inputs, id);
        |links| == |srcs| && forall k :: 0 <= k < |srcs| ==> links[k] == PendingOn(pending, srcs[k])
      ensures OneLink(links) && Flatten(links) == Below(levels, s, Now(t, s), id)
    {
      hide FenConfigOf, Now, Seen, Below, LinkNow, MayFold, FoldChecks, FoldSoFar, FoldNode, Flatten, OneLink;
      var srcs := SourcesOf(inputs, id);
      WiredSources(id);
      forall k: nat | k < |srcs|
        ensures links[k] == Seen(s, Now(t, s), srcs[k])
      {
        assert srcs[k] in srcs;
        LinkInTurn(t, s, p, id, srcs[k]);
      }
      assert links == LinksSeen(t, s, srcs);
      GatheredIsBelow(t, s, id, srcs);
    }

    /** A switch is ready to run in its turn: it has the configuration and the accumulator of the start
        of the cycle, and with what the links bring its checks hold. */
    lemma ReadyInTurn(t: Tile, s: FenNet, p: Progress, id: Id, links: seq<seq<Pkg>>)
      requires t.Valid() && Valid() && ConfiguredFor(t) && IsSwitch(levels, id)
      requires MayFold(levels, p, id) && FoldChecks(t, s, id) && FoldsSoFar(t, s, p, Accs(), written, pending)
      requires Flatten(links) == Below(levels, s, Now(t, s), id)
      ensures var c := FenConfigOf(t, id.0, id.1);
        && id in switches && switches[id].Cfg() == c
        && switches[id].View().(input := switches[id].below + Flatten(links)) == Loaded(levels, s, Now(t, s), id)
        && (c.adder.mode == Fold ==> c.adder.memory && Loaded(levels, s, Now(t, s), id).Matches())
        && PendingOn(written, id) == s.written(id)
        && switches[id].View().Valid() && switches[id].Drained()
    {
      hide FenConfigOf, Now, Below, LinkNow, FoldNode, Flatten;
      assert FoldSoFar(t, s, p, Accs(), written, id);
    }

    /** Switch id reads the links that end in it, runs, and says what it has for memory and for its own link. */
    method FoldRun(id: Id, up: seq<Pkg>, side: seq<Pkg>, ghost t: Tile, ghost s: FenNet, ghost p: Progress)
      returns (memory: seq<Pkg>, fold: seq<Pkg>, rest: map<Id, seq<Pkg>>)
      requires t.Valid() && Valid() && ConfiguredFor(t) && IsSwitch(levels, id)
      requires MayFold(levels, p, id) && FoldChecks(t, s, id) && FoldsSoFar(t, s, p, Accs(), written, pending)
      requires var c := FenConfigOf(t, id.0, id.1);
        && up == Emitted(c, s.tree, id) && (c.adder.mode == Fold ==> up == [])
        && (c.adder.memory ==> !c.toFold) && (side != [] ==> c.adder.fw == Some(Send))
      modifies switches.Values
      ensures Valid() && ConfiguredFor(t) && Accs() == old(Accs())[id := Result(t, s, id).0]
      ensures PendingOn(written, id) + memory == Result(t, s, id).1
      ensures fold == if IsAdder(levels, id) then Now(t, s)(id) else []
      ensures forall k: Id :: PendingOn(rest, k) == if k in SourcesOf(inputs, id) then [] else PendingOn(pending, k)
    {
      hide FenConfigOf, Now, Below, Flatten, OneLink, FoldOnce, MayFold, FoldChecks, FoldsSoFar, Emitted, Acc.Matches,
        FENetwork.Wired, FoldNode, Loaded, PendingOn;
      WiredSources(id);
      var links: seq<seq<Pkg>>;
      links, rest := Gather(pending, SourcesOf(inputs, id));
      LinksInTurn(t, s, p, id, links);
      ReadyInTurn(t, s, p, id, links);
      HandedIs(t, s, id, up);
      assert CanRun(switches[id], links, up, side);
      hide FENetwork.Valid, FENetwork.ConfiguredFor, FENetwork.Accs, AllSources;
      memory, fold := RunSwitch(id, links, up, side, t);
    }

    /** The folding part of the turn of switch id, whose adder routes up and side. */
    method FoldTurn(id: Id, up: seq<Pkg>, side: seq<Pkg>, ghost t: Tile, ghost s: FenNet, ghost p: Progress)
      requires t.Valid() && Valid() && ConfiguredFor(t) && IsSwitch(levels, id)
      requires MayFold(levels, p, id) && FoldChecks(t, s, id) && FoldsSoFar(t, s, p, Accs(), written, pending)
      requires var c := FenConfigOf(t, id.0, id.1);
        && up == Emitted(c, s.tree, id) && (c.adder.mode == Fold ==> up == [])
        && (c.adder.memory ==> !c.toFold) && (side != [] ==> c.adder.fw == Some(Send))
      modifies this`pending, this`written, switches.Values
      ensures Valid() && ConfiguredFor(t)
      ensures FoldsSoFar(t, s, With(p, id), Accs(), written, pending)
    {
      hide FenConfigOf, Now, MayFold, FoldChecks, FoldsSoFar, Emitted, AllSources, Result, LinksMoved,
        FENetwork.Valid, FENetwork.ConfiguredFor, FENetwork.Accs, PendingOn;
      WiredSources(id);
      SameLevels(t);
      ghost var accs, out, was := Accs(), written, pending;
      var memory, fold, rest := FoldRun(id, up, side, t, s, p);
      Install(Put(rest, id, fold), written[id := PendingOn(written, id) + memory], t);
      LinksPut(was, rest, pending, SourcesOf(inputs, id), id, fold);
      FoldTurned(t, s, p, id, SourcesOf(inputs, id), accs, out, was, Accs(), written, pending);
    }

    /** Puts new contents on the folding links and into memory; the switches are not touched. */
    method Install(pending': map<Id, seq<Pkg>>, written': map<Id, seq<Pkg>>, ghost t: Tile)
      requires t.Valid() && Valid() && ConfiguredFor(t)
      modifies this`pending, this`written
      ensures Valid() && ConfiguredFor(t) && Accs() == old(Accs()) && pending == pending' && written == written'
    {
      hide FENetwork.Valid, FENetwork.ConfiguredFor, FENetwork.Accs;
      pending, written := pending', written';
    }

    static lemma LinksPut(pending: map<Id, seq<Pkg>>, rest: map<Id, seq<Pkg>>, pending': map<Id, seq<Pkg>>,
                          srcs: seq<Id>, id: Id, fold: seq<Pkg>)
      requires forall k: Id :: PendingOn(rest, k) == if k in srcs then [] else PendingOn(pending, k)
      requires pending' == Put(rest, id, fold)
      ensures LinksMoved(pending, pending', srcs, id, fold)
    {
    }

    static lemma HandedIs(t: Tile, s: FenNet, id: Id, up: seq<Pkg>)
      requires t.Valid() && IsSwitch(t.levels, id) && up == Emitted(FenConfigOf(t, id.0, id.1), s.tree, id)
      ensures var c := FenConfigOf(t, id.0, id.1);
        (if c.toFold && !c.adder.memory then up else []) == if IsAdder(t.levels, id) then Now(t, s)(id) else []
    {
      hide FenConfigOf, RunNode;
    }

    // ----- one cycle

    /** What the adder of switch (l, n) routes in its turn is what the start of the cycle says. */
    lemma RoutedInTurn(t: Tile, s: FenNet, p: Progress, l: nat, n: nat)
      requires t.Valid() && Underway(t, s, p) && MayRun(levels, FenTree(t), p.done, l, n)
      ensures var c := FenConfigOf(t, l, n);
        && (l, n) in switches && switches[(l, n)].Cfg() == c
        && RunNode(c.adder, tree, l, n) == RunNode(c.adder, s.tree, l, n)
        && SideOk(c.adder, s.tree, l, n) && (c.adder.memory ==> !c.toFold)
        && (c.adder.mode == Fold ==> RunNode(c.adder, s.tree, l, n).up == [])
        && Clear(TreeOf(c), tree, l, n)
        && SoFar(levels, FenTree(t), s.tree, StepOne(TreeOf(c), tree, l, n), p.done + {(l, n)})
      ensures IsSwitch(levels, (l, n)) && (l, n) != SPECIAL && FoldChecks(t, s, (l, n))
    {
      hide FenConfigOf, RunNode, StepOne, SoFar, FoldsSoFar, FoldChecks, Clear, SidesOk, WellLinked;
      var c := FenConfigOf(t, l, n);
      FenWellLinked(t);
      FenSides(t, s);
      TurnTaken(levels, FenTree(t), s.tree, tree, p.done, l, n);
      MemoryFlagUnused(c.adder, s.tree, l, n, TreeOf(c).memory);
      MemoryFlagUnused(c.adder, tree, l, n, TreeOf(c).memory);
      assert AdderChecks(c, s.tree, l, n);
      FenSide(c, s.tree, l, n);
      if c.adder.mode == Fold {
        FoldRoutesNothing(c.adder, s.tree, l, n);
      }
    }

    /** Gives the switch (l, n) its turn. */
    method Turn(l: nat, n: nat, ghost t: Tile, ghost s: FenNet, ghost p: Progress)
      requires t.Valid() && Underway(t, s, p) && MayRun(levels, FenTree(t), p.done, l, n) && MayFold(levels, p, (l, n))
      modifies this`tree, this`pending, this`written, switches.Values
      ensures Underway(t, s, With(p, (l, n)))
    {
      hide FenConfigOf, RunNode, StepOne, SoFar, FoldsSoFar, FoldChecks, Clear, MayFold, MayRun, FenOk, FenTree,
        FENetwork.Underway, FENetwork.Valid, FENetwork.ConfiguredFor, FENetwork.Accs;
      RoutedInTurn(t, s, p, l, n);
      TakeApart(t, s, p);
      var c := switches[(l, n)].Current();
      var r := RunNode(c.adder, tree, l, n);
      FoldTurn((l, n), r.up, r.side, t, s, p);
      StepTree(StepOne(TreeOf(c), tree, l, n), t);
      PutTogether(t, s, With(p, (l, n)));
    }

    lemma TakeApart(t: Tile, s: FenNet, p: Progress)
      requires t.Valid() && Underway(t, s, p)
      ensures Valid() && ConfiguredFor(t) && FenOk(t, s) && s.tree.Wire(0, 0) == []
      ensures SoFar(levels, FenTree(t), s.tree, tree, p.done) && FoldsSoFar(t, s, p, Accs(), written, pending)
    {
    }

    lemma PutTogether(t: Tile, s: FenNet, p: Progress)
      requires t.Valid() && Valid() && ConfiguredFor(t) && FenOk(t, s) && s.tree.Wire(0, 0) == []
      requires SoFar(levels, FenTree(t), s.tree, tree, p.done) && FoldsSoFar(t, s, p, Accs(), written, pending)
      ensures Underway(t, s, p)
    {
    }

    /** Puts the tree into a new state; the switches and the folding links are not touched. */
    method StepTree(tree': Net, ghost t: Tile)
      requires t.Valid() && Valid() && ConfiguredFor(t)
      modifies this`tree
      ensures Valid() && ConfiguredFor(t) && Accs() == old(Accs()) && tree == tree'
    {
      hide FENetwork.Valid, FENetwork.ConfiguredFor, FENetwork.Accs;
      tree := tree';
    }

    /** Gives the extra switch its turn. */
    method SpecialTurn(ghost t: Tile, ghost s: FenNet, ghost p: Progress)
      requires t.Valid() && Underway(t, s, p) && MayFold(levels, p, SPECIAL)
      modifies this`pending, this`written, switches.Values
      ensures Underway(t, s, With(p, SPECIAL))
    {
      assert FoldChecks(t, s, SPECIAL);
      SpecialCompletesNothing(t);
      hide FenConfigOf, SoFar, FoldsSoFar, FoldChecks, MayFold, FenOk,
        FENetwork.Valid, FENetwork.ConfiguredFor, FENetwork.Accs;
      FoldTurn(SPECIAL, [], [], t, s, p);
    }

    /** The two ends of a link that is on: the receiver runs before the sender. */
    method PairTurn(i: nat, j: nat, fw: FwDirection, ghost t: Tile, ghost s: FenNet, ghost p: Progress)
      returns (ghost p': Progress)
      requires t.Valid() && Underway(t, s, p) && DoneUpTo(levels, p.done, i, j) && j % 2 == 1 && i > 0 && p.special
      requires InTree(levels, i, j) && InTree(levels, i, j + 1)
      requires FenTree(t)(i, j).fw == Some(fw) && FenTree(t)(i, j + 1).fw == Some(if fw == Send then Receive else Send)
      modifies this`tree, this`pending, this`written, switches.Values
      ensures Underway(t, s, p') && DoneUpTo(levels, p'.done, i, j + 2) && p'.special
    {
      hide DoneUpTo, LevelOpen, FENetwork.Underway, MayFold, FenTree, MayRun;
      OpenAt(levels, p.done, i, j);
      var first, second := if fw == Send then j + 1 else j, if fw == Send then j else j + 1;
      assert fw == Send || fw == Receive;
      PairMayRun(levels, FenTree(t), p.done, i, j, first, second);
      AdderMayFold(levels, p, i, first);
      Turn(i, first, t, s, p);
      ghost var q := With(p, (i, first));
      AdderMayFold(levels, q, i, second);
      Turn(i, second, t, s, q);
      p' := With(q, (i, second));
    }

    method LinkDirection(l: nat, n: nat, ghost t: Tile) returns (fw: Option<FwDirection>)
      requires t.Valid() && Valid() && ConfiguredFor(t) && InTree(levels, l, n)
      ensures fw == FenTree(t)(l, n).fw
    {
      hide FenConfigOf;
      assert IsSwitch(levels, (l, n));
      fw := switches[(l, n)].fwDirection;
    }

    /** Adder j of level i and, when its link is on, adder j + 1. */
    method NextTurn(i: nat, j: nat, ghost t: Tile, ghost s: FenNet, ghost p: Progress)
      returns (j': nat, ghost p': Progress)
      requires t.Valid() && Underway(t, s, p) && DoneUpTo(levels, p.done, i, j) && InTree(levels, i, j) && i > 0
        && p.special
      requires j % 2 == 0 ==> FenTree(t)(i, j).fw == None
      modifies this`tree, this`pending, this`written, switches.Values
      ensures Underway(t, s, p') && DoneUpTo(levels, p'.done, i, j') && p'.special
      ensures j < j' <= Pow2(i) && (j' % 2 == 0 && j' < Pow2(i) ==> FenTree(t)(i, j').fw == None)
    {
      hide SoFar, FoldsSoFar, FenOk, WellLinked, FENetwork.Valid, FENetwork.ConfiguredFor, FENetwork.Accs, DoneUpTo,
        FenTree, FENetwork.Underway, MayRun, MayFold, LevelOpen;
      TakeApart(t, s, p);
      SameLevels(t);
      FenWellLinked(t);
      LinkHead(levels, FenTree(t), i, j);
      var fw := LinkDirection(i, j, t);
      if fw.Some? {
        p' := PairTurn(i, j, fw.value, t, s, p);
        j' := j + 2;
      } else {
        NextMayRun(levels, FenTree(t), p.done, i, j);
        OpenAt(levels, p.done, i, j);
        AdderMayFold(levels, p, i, j);
        Turn(i, j, t, s, p);
        j', p' := j + 1, With(p, (i, j));
      }
    }

    lemma SameLevels(t: Tile)
      requires t.Valid() && Valid() && ConfiguredFor(t)
      ensures t.levels == levels > 0
    {
    }

    /** The folding links hold what the last cycle put on them, the root's having been read already. */
    ghost predicate Between()
      reads this`pending, this`sent
    {
      && PendingOn(pending, (0, 0)) == []
      && (forall id: Id :: IsAdder(levels, id) && id != (0, 0) ==> PendingOn(pending, id) == PendingOn(sent, id))
    }

    lemma StartUnderway(t: Tile)
      requires t.Valid() && Valid() && ConfiguredFor(t) && Between() && FenOk(t, View()) && tree.Wire(0, 0) == []
      ensures Underway(t, View(), Progress({}, false)) && DoneUpTo(levels, {}, 0, 0)
    {
      hide FenConfigOf, RunNode, SoFar, DoneUpTo, FoldChecks, AdderChecks, FoldNode, Result, Now, FENetwork.Wired;
      Start(levels, FenTree(t), tree);
    }

    /** The root and the extra switch, which reads in the same cycle what the root has sent. */
    method FirstTurns(ghost t: Tile, ghost s: FenNet) returns (ghost p: Progress)
      requires t.Valid() && levels > 0 && t.levels == levels
      requires Underway(t, s, Progress({}, false)) && DoneUpTo(levels, {}, 0, 0)
      modifies this`tree, this`pending, this`written, switches.Values
      ensures Underway(t, s, p) && DoneUpTo(levels, p.done, 1, 0) && p.special
    {
      hide FENetwork.Underway, DoneUpTo, MayFold, FenTree, MayRun;
      p := Progress({}, false);
      FenWellLinked(t);
      LinkHead(levels, FenTree(t), 0, 0);
      NextMayRun(levels, FenTree(t), {}, 0, 0);
      RootMayFold(levels);
      Turn(0, 0, t, s, p);
      p := With(p, (0, 0));
      LevelFinished(levels, p.done, 0);
      assert {} + {(0, 0)} == {(0, 0)};
      SpecialMayFold(levels);
      SpecialTurn(t, s, p);
      p := With(p, SPECIAL);
    }

    /** When every switch has run, the cycle of the model has been made. */
    lemma AllFolded(t: Tile, s: FenNet, p: Progress, s': FenNet)
      requires t.Valid() && Underway(t, s, p) && DoneUpTo(levels, p.done, levels, 0) && p.special && levels > 0
      requires s'.tree == tree && forall id: Id :: IsAdder(levels, id) ==> s'.sent(id) == Now(t, s)(id)
      requires forall id: Id :: IsSwitch(levels, id) && id in Accs() && Accs()[id].Valid() ==> s'.accs(id) == Accs()[id]
      requires forall id: Id :: s'.written(id) == PendingOn(written, id)
      ensures FenNext(t, s, s')
      ensures forall id: Id :: IsAdder(levels, id) ==>
        PendingOn(pending, id) == if id == (0, 0) then [] else s'.sent(id)
    {
      hide FenConfigOf, RunNode, SoFar, FoldNode, Now, FenOk, Next, FENetwork.Wired, FoldOnce, Loaded, Emitted;
      FenWellLinked(t);
      assert forall l: nat, n: nat :: InTree(levels, l, n) ==> (l, n) in p.done;
      AllRun(levels, FenTree(t), s.tree, tree, p.done);
      forall id: Id | IsSwitch(levels, id)
        ensures Folds(t, s, s', id)
      {
        assert p.Ran(id);
        assert FoldSoFar(t, s, p, Accs(), written, id);
      }
    }

    /** One cycle of the network: every switch runs exactly once, from the root to the leaves. */
    method Cycle(ghost t: Tile)
      requires t.Valid() && Valid() && ConfiguredFor(t) && Between() && FenOk(t, View()) && tree.Wire(0, 0) == []
      modifies this`tree, this`pending, this`written, this`sent, switches.Values
      ensures Valid() && ConfiguredFor(t) && Between()
      ensures FenNext(t, old(View()), View())
    {
      hide FENetwork.Underway, DoneUpTo, FenTree, FenOk, FenNext, FENetwork.Valid, FENetwork.ConfiguredFor,
        FENetwork.View, FENetwork.Accs, Now, FENetwork.Between;
      ghost var s, p := View(), Progress({}, false);
      StartUnderway(t);
      SameLevels(t);
      FenWellLinked(t);
      p := FirstTurns(t, s);
      var i, width := 1, 2;
      while i < levels
        invariant 0 < i <= levels && width == Pow2(i) && p.special
        invariant Underway(t, s, p) && DoneUpTo(levels, p.done, i, 0)
      {
        LinkHead(levels, FenTree(t), i, 0);
        var j := 0;
        while j < width
          invariant j <= width && Underway(t, s, p) && DoneUpTo(levels, p.done, i, j) && p.special
          invariant j % 2 == 0 && j < width ==> FenTree(t)(i, j).fw == None
        {
          j, p := NextTurn(i, j, t, s, p);
        }
        LevelFinished(levels, p.done, i);
        i := i + 1;
        width := width * 2;
      }
      RecordSent(t, s, p);
    }

    /** Records what the cycle has put on the folding links. */
    ghost method RecordSent(t: Tile, s: FenNet, p: Progress)
      requires t.Valid() && levels > 0 && t.levels == levels
      requires Underway(t, s, p) && DoneUpTo(levels, p.done, levels, 0) && p.special
      modifies this`sent
      ensures Valid() && ConfiguredFor(t) && Between() && FenNext(t, s, View())
    {
      hide SoFar, FoldsSoFar, FenOk, Now, FenNext, DoneUpTo, FENetwork.Valid, FENetwork.ConfiguredFor, FENetwork.Accs,
        FENetwork.Underway, FENetwork.View, PendingOn;
      TakeApart(t, s, p);
      sent := SentMap(t, s, levels);
      PutTogether(t, s, p);
      ViewParts();
      AllFolded(t, s, p, View());
    }

    static ghost function SentMap(t: Tile, s: FenNet, levels: nat): (m: map<Id, seq<Pkg>>)
      requires t.Valid()
      ensures forall id: Id :: IsAdder(levels, id) ==> PendingOn(m, id) == Now(t, s)(id)
    {
      var ids := set l: nat, n: nat | l < levels && n < Pow2(l) :: (l, n);
      assert forall id: Id :: IsAdder(levels, id) ==> (id.0, id.1) in ids;
      map id | id in ids :: Now(t, s)(id)
    }

    lemma ViewParts()
      ensures View().tree == tree
      ensures forall id: Id :: View().sent(id) == PendingOn(sent, id) && View().written(id) == PendingOn(written, id)
      ensures forall id: Id :: id in Accs() && Accs()[id].Valid() ==> View().accs(id) == Accs()[id]
    {
      hide FENetwork.Accs;
    }
  }
}
