/**
 The reduction network: a table of adder switches, the connections between them, and the
 cycle that steps every switch once.
 */
module ReductionNetwork {
  import opened Prelude
  import opened Layout
  import opened Tiles
  import opened Signals
  import opened Switches
  import opened Networks
  import opened Ordering
  import opened Adders
  import opened Invariants
  import Compiler

  /** The configuration of a switch before anything is loaded into it. */
  ghost function Unset(l: nat, n: nat): Config {
    Config(Add21, None, false, false, false)
  }

  class ASNetwork {
    const levels: nat
    const switches: map<Id, ASwitch>
    var wires: map<Id, seq<Pkg>>
    var links: map<Id, seq<Pkg>>
    var memory: map<Id, seq<Pkg>>

    constructor (levels: nat)
      requires levels > 0
      ensures this.levels == levels && Valid() && ConfiguredAs(Unset) && Silent(View())
      ensures fresh(switches.Values)
    {
      this.levels := levels;
      var table := BuildTable(levels);
      switches := table;
      wires, links, memory := map[], map[], map[];
    }

    /** A new switch: not configured, nothing in its FIFOs. */
    static ghost predicate NewSwitches(table: map<Id, ASwitch>)
      reads table.Values
    {
      && (forall id :: id in table ==>
            && table[id].num == id.1 && table[id].Cfg() == Unset(id.0, id.1)
            && table[id].Fifos() == NO_QUEUES && table[id].Drained())
      && (forall a, b :: a in table && b in table && a != b ==> table[a] != table[b])
    }

    /** The switch table of a tree, built level by level from the root. */
    static method BuildTable(levels: nat) returns (table: map<Id, ASwitch>)
      ensures fresh(table.Values) && NewSwitches(table)
      ensures forall id :: id in table <==> InTree(levels, id.0, id.1)
    {
      table := map[];
      var i, width := 0, 1;
      while i < levels
        invariant i <= levels && width == Pow2(i)
        invariant fresh(table.Values) && NewSwitches(table)
        invariant forall id :: id in table <==> InTree(levels, id.0, id.1) && id.0 < i
      {
        table := BuildRow(levels, table, i, width);
        i := i + 1;
        width := width * 2;
      }
    }

    static method AddSwitch(table: map<Id, ASwitch>, i: nat, j: nat) returns (more: map<Id, ASwitch>)
      requires NewSwitches(table) && (i, j) !in table
      ensures NewSwitches(more) && fresh(more.Values - table.Values) && more.Keys == table.Keys + {(i, j)}
    {
      var sw := new ASwitch(j);
      more := table[(i, j) := sw];
    }

    static method BuildRow(levels: nat, above: map<Id, ASwitch>, i: nat, width: nat) returns (table: map<Id, ASwitch>)
      requires i < levels && width == Pow2(i) && NewSwitches(above)
      requires forall id :: id in above <==> InTree(levels, id.0, id.1) && id.0 < i
      ensures fresh(table.Values - above.Values) && NewSwitches(table)
      ensures forall id :: id in table <==> InTree(levels, id.0, id.1) && id.0 < i + 1
    {
      hide ASNetwork.NewSwitches;
      table := above;
      var j := 0;
      while j < width
        invariant j <= width
        invariant fresh(table.Values - above.Values) && NewSwitches(table)
        invariant forall id :: id in table <==> InTree(levels, id.0, id.1) && (id.0 < i || (id.0 == i && id.1 < j))
      {
        table := AddSwitch(table, i, j);
        j := j + 1;
      }
    }

    /** One switch of its own for every place in the tree. */
    ghost predicate Valid()
      reads switches.Values
    {
      && levels > 0
      && (forall l: nat, n: nat :: InTree(levels, l, n) ==>
            (l, n) in switches && switches[(l, n)].num == n && switches[(l, n)].Drained())
      && (forall id :: id in switches ==> InTree(levels, id.0, id.1))
      && (forall a, b :: a in switches && b in switches && a != b ==> switches[a] != switches[b])
    }

    ghost function Fifos(): map<Id, Queues>
      reads switches.Values
    {
      map id | id in switches :: switches[id].Fifos()
    }

    ghost function View(): Net
      reads this, switches.Values
    {
      Net(Fifos(), wires, links, memory)
    }

    static function Pending(m: map<Id, seq<Pkg>>, id: Id): seq<Pkg> {
      if id in m then m[id] else []
    }

    /** Loads one switch; the configuration of the table goes from cfgs to cfgs'. */
    method LoadSwitch(l: nat, n: nat, cfg: Config, ghost cfgs: Configs, ghost cfgs': Configs)
      requires Valid() && ConfiguredAs(cfgs) && InTree(levels, l, n)
      requires cfgs'(l, n) == cfg
      requires forall k: nat, m: nat :: (k, m) != (l, n) ==> cfgs'(k, m) == cfgs(k, m)
      modifies switches.Values
      ensures Valid() && ConfiguredAs(cfgs') && Fifos() == old(Fifos())
    {
      hide InTree, ASwitch.Cfg, ASwitch.Drained;
      var sw := switches[(l, n)];
      assert forall id :: id in switches && id != (l, n) ==> switches[id] != sw;
      assert forall id :: id in switches && id != (l, n) ==> switches[id].Cfg() == cfgs(id.0, id.1);
      sw.Configure(cfg);
      assert forall id :: id in switches ==> switches[id].Cfg() == cfgs'(id.0, id.1);
    }

    /** The table once the adders before (i, j), level by level, are loaded. */
    static ghost function Loaded(t: Tile, i: nat, j: nat): Configs
      requires t.Valid()
    {
      (l: nat, n: nat) => if l < i || (l == i && n < j) then Compiled(t)(l, n) else Unset(l, n)
    }

    ghost predicate Compiles(c: Compiler.CompilerART, t: Tile)
      requires t.Valid()
      reads c
    {
      forall l: nat, n: nat :: l < t.levels && n < Pow2(l) ==> c.ConfigAt(l, n) == ConfigOf(t, l, n)
    }

    method LoadRow(t: Tile, c: Compiler.CompilerART, i: nat, width: nat)
      requires Valid() && t.Valid() && t.levels == levels && i < levels && width == Pow2(i)
      requires Compiles(c, t) && ConfiguredAs(Loaded(t, i, 0))
      modifies switches.Values
      ensures Valid() && Fifos() == old(Fifos()) && ConfiguredAs(Loaded(t, i, Pow2(i)))
    {
      hide ASNetwork.Valid, ASNetwork.Fifos, ASNetwork.ConfiguredAs, ASNetwork.Loaded, ConfigOf;
      var j := 0;
      while j < width
        invariant j <= width
        invariant Valid() && Fifos() == old(Fifos()) && ConfiguredAs(Loaded(t, i, j))
      {
        var cfg := c.Lookup(i, j);
        LoadedNext(t, i, j);
        LoadSwitch(i, j, cfg, Loaded(t, i, j), Loaded(t, i, j + 1));
        j := j + 1;
      }
    }

    /** Loads what the compiler produced into the switches, level by level. */
    method LoadTable(t: Tile, c: Compiler.CompilerART)
      requires Valid() && t.Valid() && t.levels == levels && Compiles(c, t) && ConfiguredAs(Loaded(t, 0, 0))
      modifies switches.Values
      ensures Valid() && Fifos() == old(Fifos()) && ConfiguredAs(Loaded(t, levels, 0))
    {
      hide ASNetwork.Valid, ASNetwork.Fifos, ASNetwork.ConfiguredAs, ASNetwork.Loaded, ASNetwork.Compiles;
      var i, width := 0, 1;
      while i < levels
        invariant i <= levels && width == Pow2(i)
        invariant Valid() && Fifos() == old(Fifos()) && ConfiguredAs(Loaded(t, i, 0)) && Compiles(c, t)
      {
        LoadRow(t, c, i, width);
        RowLoaded(t, i);
        i := i + 1;
        width := width * 2;
      }
    }

    /** Compiles a tile and loads its signals into the switches. */
    method Configure(t: Tile)
      requires Valid() && ConfiguredAs(Unset) && t.Valid() && t.levels == levels
      modifies switches.Values
      ensures Valid() && ConfiguredAs(Compiled(t)) && View() == old(View())
    {
      hide ConfigOf, ASNetwork.Valid, ASNetwork.Fifos;
      var c := new Compiler.CompilerART();
      c.ConfigureSignals(t);
      assert Compiles(c, t) && ConfiguredAs(Loaded(t, 0, 0));
      hide ASNetwork.ConfiguredAs, ASNetwork.Loaded, ASNetwork.Compiles;
      LoadTable(t, c);
      AllLoaded(t);
    }

    static lemma LoadedNext(t: Tile, i: nat, j: nat)
      requires t.Valid() && i < t.levels
      ensures Loaded(t, i, j + 1)(i, j) == ConfigOf(t, i, j)
      ensures forall k: nat, m: nat :: (k, m) != (i, j) ==> Loaded(t, i, j + 1)(k, m) == Loaded(t, i, j)(k, m)
    {
      assert Compiled(t)(i, j) == ConfigOf(t, i, j);
    }

    lemma RowLoaded(t: Tile, i: nat)
      requires Valid() && t.Valid() && ConfiguredAs(Loaded(t, i, Pow2(i)))
      ensures ConfiguredAs(Loaded(t, i + 1, 0))
    {
      hide ConfigOf;
    }

    lemma AllLoaded(t: Tile)
      requires Valid() && t.Valid() && t.levels == levels && ConfiguredAs(Loaded(t, levels, 0))
      ensures ConfiguredAs(Compiled(t))
    {
      hide ConfigOf;
    }

    /** Every switch is configured as cfgs says. */
    ghost predicate ConfiguredAs(cfgs: Configs)
      reads switches.Values
    {
      forall id :: id in switches ==> switches[id].Cfg() == cfgs(id.0, id.1)
    }

    /** Runs the switch (l, n) on the given packages. */
    method RunOn(l: nat, n: nat, sw: ASwitch, left: seq<Pkg>, right: seq<Pkg>, link: seq<Pkg>,
                 ghost q: Queues, ghost cfgs: Configs)
      returns (up: seq<Pkg>, side: seq<Pkg>)
      requires Valid() && ConfiguredAs(cfgs) && (l, n) in switches && switches[(l, n)] == sw
      requires cfgs(l, n).fw == Some(Receive) ==> |link| <= 1
      requires q == sw.Taken(left, right, link) && Route(cfgs(l, n), n, q).ok
      modifies switches.Values
      ensures Valid() && ConfiguredAs(cfgs)
      ensures Route(cfgs(l, n), n, q) == Routed(sw.Fifos(), up, side, true)
      ensures Fifos() == old(Fifos())[(l, n) := sw.Fifos()]
    {
      hide Route, InTree;
      assert forall id :: id in switches && id != (l, n) ==> switches[id] != sw;
      up, side := sw.Cycle(left, right, link);
    }

    /** Runs the switch (l, n) on what is pending at its inputs. */
    method RunSwitch(l: nat, n: nat, ghost cfgs: Configs) returns (up: seq<Pkg>, side: seq<Pkg>)
      requires Valid() && ConfiguredAs(cfgs) && InTree(levels, l, n) && NodeOk(cfgs(l, n), View(), l, n)
      modifies switches.Values
      ensures Valid() && ConfiguredAs(cfgs)
      ensures var r := RunNode(cfgs(l, n), old(View()), l, n);
        Fifos() == old(Fifos())[(l, n) := r.queues] && up == r.up && side == r.side
    {
      var sw := switches[(l, n)];
      assert sw.Cfg() == cfgs(l, n) && View().Q(l, n) == sw.Fifos();
      hide Route, ASNetwork.Valid, ASNetwork.ConfiguredAs, ASNetwork.Fifos;
      var left, right := Pending(wires, (l + 1, 2 * n)), Pending(wires, (l + 1, 2 * n + 1));
      var link := if sw.fwDirection == Some(Receive) then Pending(links, (l, EvenEnd(n))) else [];
      assert sw.Taken(left, right, link) == Inputs(cfgs(l, n), View(), l, n);
      up, side := RunOn(l, n, sw, left, right, link, Inputs(cfgs(l, n), View(), l, n), cfgs);
    }

    /** Puts new contents on the connections; the switches are not touched. */
    method Install(wires': map<Id, seq<Pkg>>, links': map<Id, seq<Pkg>>, memory': map<Id, seq<Pkg>>,
                   ghost cfgs: Configs)
      requires Valid() && ConfiguredAs(cfgs)
      modifies this`wires, this`links, this`memory
      ensures Valid() && ConfiguredAs(cfgs)
      ensures View() == Net(old(Fifos()), wires', links', memory')
    {
      hide ASNetwork.Valid, ASNetwork.ConfiguredAs, ASNetwork.Fifos;
      wires, links, memory := wires', links', memory';
    }

    /** The connections after (l, n) has taken its inputs and sent its outputs.  A connection it
        sends on must hold nothing unread. */
    static method Transfer(l: nat, n: nat, up: seq<Pkg>, side: seq<Pkg>, receives: bool, toMemory: bool,
                           wires: map<Id, seq<Pkg>>, links: map<Id, seq<Pkg>>, memory: map<Id, seq<Pkg>>)
      returns (wires': map<Id, seq<Pkg>>, links': map<Id, seq<Pkg>>, memory': map<Id, seq<Pkg>>)
      requires side != [] ==> receives || Pending(links, (l, EvenEnd(n))) == []
      requires up != [] && !toMemory ==> Pending(wires, (l, n)) == []
      ensures wires' == Put(wires - {(l + 1, 2 * n), (l + 1, 2 * n + 1)}, (l, n), if toMemory then [] else up)
      ensures links' == Put(if receives then links - {(l, EvenEnd(n))} else links, (l, EvenEnd(n)), side)
      ensures memory' == if toMemory && up != [] then memory[(l, n) := Pending(memory, (l, n)) + up] else memory
    {
      wires', links', memory' := wires - {(l + 1, 2 * n), (l + 1, 2 * n + 1)}, links, memory;
      if receives {
        links' := links' - {(l, EvenEnd(n))};
      }
      if side != [] {
        assert Pending(links', (l, EvenEnd(n))) == [];
        links' := links'[(l, EvenEnd(n)) := side];
      }
      if up != [] {
        if toMemory {
          memory' := memory[(l, n) := Pending(memory, (l, n)) + up];
        } else {
          assert Pending(wires', (l, n)) == [];
          wires' := wires'[(l, n) := up];
        }
      }
    }

    /** Runs one switch: it takes what is pending at its inputs, and sends what it emits. */
    method StepSwitch(l: nat, n: nat, ghost cfgs: Configs)
      requires Valid() && ConfiguredAs(cfgs) && InTree(levels, l, n)
      requires NodeOk(cfgs(l, n), View(), l, n) && Clear(cfgs(l, n), View(), l, n)
      modifies this`wires, this`links, this`memory, switches.Values
      ensures Valid() && ConfiguredAs(cfgs)
      ensures View() == StepOne(cfgs(l, n), old(View()), l, n)
    {
      var sw := switches[(l, n)];
      var receives, toMemory := sw.fwDirection == Some(Receive), sw.forwardToMemory;
      ghost var cfg, s := cfgs(l, n), View();
      ghost var r := RunNode(cfg, s, l, n);
      assert receives == (cfg.fw == Some(Receive)) && toMemory == cfg.memory;
      hide RunNode;
      assert r.side != [] && !receives ==> Pending(links, (l, EvenEnd(n))) == [];
      assert r.up != [] && !toMemory ==> Pending(wires, (l, n)) == [];
      hide StepOne, Put, RunNode, NodeOk, Clear, ASNetwork.Valid, ASNetwork.ConfiguredAs, ASNetwork.Fifos;
      var up, side := RunSwitch(l, n, cfgs);
      var wires', links', memory' := Transfer(l, n, up, side, receives, toMemory, wires, links, memory);
      StepParts(cfg, s, Net(Fifos(), wires', links', memory'), l, n, r);
      Install(wires', links', memory', cfgs);
    }

    /** A cycle that started in state s is under way, and the adders in `done` have run. */
    ghost predicate Underway(cfgs: Configs, s: Net, done: set<Id>)
      reads this, switches.Values
    {
      && Valid() && ConfiguredAs(cfgs) && WellLinked(levels, cfgs) && CycleOk(levels, cfgs, s) && s.Wire(0, 0) == []
      && SoFar(levels, cfgs, s, View(), done)
    }

    /** Gives the switch (l, n) its turn. */
    method Turn(l: nat, n: nat, ghost cfgs: Configs, ghost s: Net, ghost done: set<Id>)
      requires Underway(cfgs, s, done) && MayRun(levels, cfgs, done, l, n)
      modifies this`wires, this`links, this`memory, switches.Values
      ensures Underway(cfgs, s, done + {(l, n)})
    {
      hide SoFar, CycleOk, WellLinked, StepOne, NodeOk, Clear, ASNetwork.Valid, ASNetwork.ConfiguredAs;
      CycleSides(levels, cfgs, s);
      TurnTaken(levels, cfgs, s, View(), done, l, n);
      assert NodeOk(cfgs(l, n), s, l, n) by { CycleNode(levels, cfgs, s, l, n); }
      TurnOk(levels, cfgs, s, View(), done, l, n);
      StepSwitch(l, n, cfgs);
    }

    method LinkDirection(l: nat, n: nat, ghost cfgs: Configs) returns (fw: Option<FwDirection>)
      requires Valid() && ConfiguredAs(cfgs) && InTree(levels, l, n)
      ensures fw == cfgs(l, n).fw
    {
      fw := switches[(l, n)].fwDirection;
    }

    /** The two ends of a link that is on: the receiver runs before the sender. */
    method PairTurn(i: nat, j: nat, fw: FwDirection, ghost cfgs: Configs, ghost s: Net, ghost done: set<Id>)
      returns (ghost done': set<Id>)
      requires Underway(cfgs, s, done) && DoneUpTo(levels, done, i, j) && j % 2 == 1
      requires InTree(levels, i, j) && InTree(levels, i, j + 1)
      requires cfgs(i, j).fw == Some(fw) && cfgs(i, j + 1).fw == Some(if fw == Send then Receive else Send)
      modifies this`wires, this`links, this`memory, switches.Values
      ensures Underway(cfgs, s, done') && DoneUpTo(levels, done', i, j + 2)
    {
      hide MayRun, DoneUpTo, ASNetwork.Underway;
      var first, second := if fw == Send then j + 1 else j, if fw == Send then j else j + 1;
      assert fw == Send || fw == Receive;
      PairMayRun(levels, cfgs, done, i, j, first, second);
      Turn(i, first, cfgs, s, done);
      Turn(i, second, cfgs, s, done + {(i, first)});
      done' := done + {(i, first)} + {(i, second)};
    }

    /** Adder j of level i and, when its link is on, adder j + 1. */
    method NextTurn(i: nat, j: nat, ghost cfgs: Configs, ghost s: Net, ghost done: set<Id>)
      returns (j': nat, ghost done': set<Id>)
      requires Underway(cfgs, s, done) && DoneUpTo(levels, done, i, j) && InTree(levels, i, j)
      requires j % 2 == 0 ==> cfgs(i, j).fw == None
      modifies this`wires, this`links, this`memory, switches.Values
      ensures Underway(cfgs, s, done') && DoneUpTo(levels, done', i, j')
      ensures j < j' <= Pow2(i) && (j' % 2 == 0 && j' < Pow2(i) ==> cfgs(i, j').fw == None)
    {
      hide SoFar, CycleOk, WellLinked, ASNetwork.Valid, ASNetwork.ConfiguredAs, MayRun, DoneUpTo;
      LinkHead(levels, cfgs, i, j);
      var fw := LinkDirection(i, j, cfgs);
      if fw.Some? {
        LinkHead(levels, cfgs, i, j + 1);
        hide ASNetwork.Underway;
        done' := PairTurn(i, j, fw.value, cfgs, s, done);
        j' := j + 2;
      } else {
        NextMayRun(levels, cfgs, done, i, j);
        hide ASNetwork.Underway;
        Turn(i, j, cfgs, s, done);
        j', done' := j + 1, done + {(i, j)};
      }
    }

    /** One cycle of the network: every switch runs exactly once, from the root to the leaves. */
    method Cycle(ghost cfgs: Configs)
      requires Valid() && ConfiguredAs(cfgs) && WellLinked(levels, cfgs) && CycleOk(levels, cfgs, View())
      requires View().Wire(0, 0) == []
      modifies this`wires, this`links, this`memory, switches.Values
      ensures Valid() && ConfiguredAs(cfgs)
      ensures Next(levels, cfgs, old(View()), View())
    {
      assert levels > 0;
      hide SoFar, CycleOk, WellLinked, Next, ASNetwork.Valid, ASNetwork.ConfiguredAs, DoneUpTo, MayRun;
      ghost var s, done := View(), {};
      Start(levels, cfgs, s);
      LinkHead(levels, cfgs, 0, 0);
      NextMayRun(levels, cfgs, done, 0, 0);
      Turn(0, 0, cfgs, s, done);
      done := done + {(0, 0)};
      LevelFinished(levels, done, 0);
      var i, width := 1, 2;
      while i < levels
        invariant 0 < i <= levels && width == Pow2(i)
        invariant Underway(cfgs, s, done) && DoneUpTo(levels, done, i, 0)
      {
        LinkHead(levels, cfgs, i, 0);
        var j := 0;
        while j < width
          invariant j <= width && Underway(cfgs, s, done) && DoneUpTo(levels, done, i, j)
          invariant j % 2 == 0 && j < width ==> cfgs(i, j).fw == None
        {
          j, done := NextTurn(i, j, cfgs, s, done);
        }
        LevelFinished(levels, done, i);
        i := i + 1;
        width := width * 2;
      }
      AllDone(levels, done);
      AllRun(levels, cfgs, s, View(), done);
    }
  }

  lemma CycleNode(levels: nat, cfgs: Configs, s: Net, l: nat, n: nat)
    requires CycleOk(levels, cfgs, s) && InTree(levels, l, n)
    ensures NodeOk(cfgs(l, n), s, l, n)
  {
  }

  lemma AllDone(levels: nat, done: set<Id>)
    requires DoneUpTo(levels, done, levels, 0)
    ensures forall l: nat, n: nat :: InTree(levels, l, n) ==> (l, n) in done
  {
  }
}
