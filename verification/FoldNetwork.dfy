/**
 The fold network as a state machine: the adders of the reduction tree, the folding links, and
 an accumulator in every switch.
 */
module FoldNetworks {
  import opened Prelude
  import opened Layout
  import opened Tiles
  import opened Signals
  import opened Switches
  import opened Flow
  import opened Networks
  import opened Ordering
  import opened Runs
  import opened FoldNodes
  import opened FoldCompiler
  import opened Accumulation

  type ValidAcc = a: Acc<real> | a.Valid() witness Fresh(0)

  const PLUS: Addition<real> := (a: real, b: real) => a + b

  /** The tree, where tree.memory records all that has left it at each adder, what each adder put on
      its folding link in the last cycle, the accumulator of each switch, and what each switch has
      written to memory. */
  datatype FenNet = FenNet(tree: Net, sent: Id -> seq<Pkg>, accs: Id -> ValidAcc, written: Id -> seq<Pkg>)

  predicate IsAdder(levels: nat, id: Id) {
    id.0 < levels && id.1 < Pow2(id.0)
  }

  predicate IsSwitch(levels: nat, id: Id) {
    IsAdder(levels, id) || id == SPECIAL
  }

  /** How an adder is configured as far as the tree goes: what is for memory or for a fold node leaves it. */
  function TreeOf(c: FenConfig): Config {
    c.adder.(memory := c.adder.memory || c.toFold)
  }

  ghost function FenTree(t: Tile): Configs
    requires t.Valid()
  {
    (l: nat, n: nat) => if l < t.levels then TreeOf(FenConfigOf(t, l, n)) else Config(Add21, None, false, false, false)
  }

  /** The links of the fold network come in pairs, as those of the plain tree do. */
  lemma {:induction false} FenLinksPaired(t: Tile, k: nat, l: nat, n: nat)
    requires t.Valid() && k <= |t.sizes| && l < t.levels && n % 2 == 1
    ensures Linked(FenSignalAfter(t, k, l, n).fw, FenSignalAfter(t, k, l, n + 1).fw)
  {
    hide Keep, RoleAt, FoldOf;
    if k > 0 {
      FenLinksPaired(t, k - 1, l, n);
      LinkPairs(t.Kept(k - 1, l + 1), n);
      LinkPairs(t.Kept(k - 1, l + 1), n + 1);
      FenLinkNext(t, k, l, n);
      FenLinkNext(t, k, l, n + 1);
      hide FenSignalAfter;
    }
  }

  lemma FenWellLinked(t: Tile)
    requires t.Valid()
    ensures WellLinked(t.levels, FenTree(t))
  {
    hide FenSignalAfter, FenChildEnabled, FoldsOne, CompletesOne;
    forall l: nat, n: nat | l < t.levels && n < Pow2(l)
      ensures LinkedAt(FenTree(t), l, n)
    {
      if n == 0 || n == Pow2(l) - 1 {
        FenEdgesUnlinked(t, |t.sizes|, l, n);
      }
      if n % 2 == 1 {
        FenLinksPaired(t, |t.sizes|, l, n);
      }
    }
  }

  // ----- folding links

  /** What adder id puts on its folding link in a cycle that starts in s. */
  ghost function Handed(t: Tile, s: Net, id: Id): seq<Pkg>
    requires t.Valid()
  {
    if id.0 < t.levels && FenConfigOf(t, id.0, id.1).toFold && !FenConfigOf(t, id.0, id.1).adder.memory
    then RunNode(FenConfigOf(t, id.0, id.1).adder, s, id.0, id.1).up else []
  }

  ghost function Now(t: Tile, s: FenNet): Id -> seq<Pkg>
    requires t.Valid()
  {
    (id: Id) => Handed(t, s.tree, id)
  }

  /** What the switch at the far end of a folding link finds there: the extra switch runs after the
      root in the same cycle, every other fold node runs before the adders below it. */
  ghost function Seen(s: FenNet, now: Id -> seq<Pkg>, id: Id): seq<Pkg> {
    if id == (0, 0) then now(id) else s.sent(id)
  }

  ghost predicate Carries(levels: nat, s: FenNet, now: Id -> seq<Pkg>, l: nat, n: nat, id: Id) {
    l < levels && n < Pow2(l) && FoldNode(l, n) == id && Seen(s, now, (l, n)) != []
  }

  /** What arrives at switch id on the folding links that end there, when at most one carries data. */
  ghost function Below(levels: nat, s: FenNet, now: Id -> seq<Pkg>, id: Id): seq<Pkg> {
    if exists l: nat, n: nat :: Carries(levels, s, now, l, n, id) then
      var l: nat, n: nat :| Carries(levels, s, now, l, n, id);
      Seen(s, now, (l, n))
    else []
  }

  // ----- one cycle

  ghost function Loaded(levels: nat, s: FenNet, now: Id -> seq<Pkg>, id: Id): ValidAcc {
    var a := s.accs(id);
    a.(input := a.input + Below(levels, s, now, id))
  }

  /** What a switch with accumulator a, already loaded, does in a cycle in which its adder emits up:
      its new accumulator, and what it writes to memory. */
  ghost function FoldOnce(c: FenConfig, a: ValidAcc, up: seq<Pkg>): (ValidAcc, seq<Pkg>) {
    if c.adder.mode == Fold then Absorb(a, PLUS) else (a, if c.adder.memory then up else [])
  }

  /** What the adder of switch id emits; the extra switch has no children. */
  ghost function Emitted(c: FenConfig, s: Net, id: Id): seq<Pkg> {
    if id == SPECIAL then [] else RunNode(c.adder, s, id.0, id.1).up
  }

  ghost predicate Folds(t: Tile, s: FenNet, s': FenNet, id: Id)
    requires t.Valid() && id.0 < t.levels
  {
    var c := FenConfigOf(t, id.0, id.1);
    var r := FoldOnce(c, Loaded(t.levels, s, Now(t, s), id), Emitted(c, s.tree, id));
    s'.accs(id) == r.0 && s'.written(id) == s.written(id) + r.1
  }

  ghost predicate FenNext(t: Tile, s: FenNet, s': FenNet)
    requires t.Valid()
  {
    && Next(t.levels, FenTree(t), s.tree, s'.tree)
    && (forall id: Id :: IsAdder(t.levels, id) ==> s'.sent(id) == Now(t, s)(id))
    && (forall id: Id :: IsSwitch(t.levels, id) ==> Folds(t, s, s', id))
  }

  /** No check of any adder fails in this cycle. */
  ghost predicate AdderChecks(c: FenConfig, s: Net, l: nat, n: nat) {
    && (c.adder.mode != Fold ==> NodeOk(c.adder, s, l, n))
    && (c.adder.mode == Fold ==> c.adder.fw == None)
    && (c.adder.memory ==> !c.toFold)
  }

  /** No check of a fold node fails: one folding link at most brings data, one package of it, of the
      VN under way, and the node writes to memory. */
  ghost predicate FoldChecks(t: Tile, s: FenNet, id: Id)
    requires t.Valid() && id.0 < t.levels
  {
    var c := FenConfigOf(t, id.0, id.1);
    && (forall l: nat, n: nat, k: nat, m: nat ::
          Carries(t.levels, s, Now(t, s), l, n, id) && Carries(t.levels, s, Now(t, s), k, m, id) ==> l == k && n == m)
    && |Below(t.levels, s, Now(t, s), id)| <= 1
    && (c.adder.mode == Fold ==> c.adder.memory && Loaded(t.levels, s, Now(t, s), id).Matches())
  }

  ghost predicate FenOk(t: Tile, s: FenNet)
    requires t.Valid()
  {
    && (forall l: nat, n: nat :: l < t.levels && n < Pow2(l) ==> AdderChecks(FenConfigOf(t, l, n), s.tree, l, n))
    && (forall id: Id :: IsSwitch(t.levels, id) ==> FoldChecks(t, s, id))
  }

  // ----- runs

  ghost predicate SameFolds(s: FenNet, mid: FenNet) {
    forall id: Id :: mid.sent(id) == s.sent(id) && mid.accs(id) == s.accs(id) && mid.written(id) == s.written(id)
  }

  /** Nothing anywhere, and accumulators for blocks of k sums. */
  ghost predicate FenSilent(s: FenNet, levels: nat, k: nat) {
    && Silent(s.tree)
    && (forall id: Id :: IsSwitch(levels, id) ==> s.accs(id) == Fresh(k) && s.sent(id) == [] && s.written(id) == [])
  }

  /** A run of the network with blocks of k sums. */
  ghost predicate FenRun(t: Tile, x: Psums, sched: Schedule, k: nat, states: nat -> FenNet, mids: nat -> FenNet)
    requires t.Valid()
  {
    && FenSilent(states(0), t.levels, k)
    && forall r: nat ::
         && Arrive(t, x, sched, r, states(r).tree, mids(r).tree)
         && SameFolds(states(r), mids(r))
         && FenNext(t, mids(r), states(r + 1))
  }

  // ----- routing

  /** Routing does not look at where the result goes. */
  lemma RouteUnaimed(cfg: Config, n: nat, q: Queues, b: bool)
    ensures Route(cfg.(memory := b), n, q) == Route(cfg, n, q)
  {
    hide Route21, Route31, Route11, Route22;
    var c := cfg.(memory := b);
    assert Route21(c, q) == Route21(cfg, q) by { Aim21(cfg, q, b); }
    assert Route31(c, q) == Route31(cfg, q) by { Aim31(cfg, q, b); }
    assert Route11(c, n, q) == Route11(cfg, n, q) by { Aim11(cfg, n, q, b); }
  }

  lemma Aim21(cfg: Config, q: Queues, b: bool)
    ensures Route21(cfg.(memory := b), q) == Route21(cfg, q)
  {
  }

  lemma Aim31(cfg: Config, q: Queues, b: bool)
    ensures Route31(cfg.(memory := b), q) == Route31(cfg, q)
  {
  }

  lemma Aim11(cfg: Config, n: nat, q: Queues, b: bool)
    ensures Route11(cfg.(memory := b), n, q) == Route11(cfg, n, q)
  {
  }

  lemma MemoryFlagUnused(cfg: Config, s: Net, l: nat, n: nat, b: bool)
    ensures RunNode(cfg.(memory := b), s, l, n) == RunNode(cfg, s, l, n)
    ensures NodeOk(cfg.(memory := b), s, l, n) == NodeOk(cfg, s, l, n)
  {
    hide Route;
    RouteUnaimed(cfg, n, Inputs(cfg, s, l, n), b);
  }

  /** An adder set to fold routes nothing. */
  lemma FoldRoutesNothing(cfg: Config, s: Net, l: nat, n: nat)
    requires cfg.mode == Fold
    ensures RunNode(cfg, s, l, n).up == [] && RunNode(cfg, s, l, n).side == []
  {
  }

  lemma FenSide(c: FenConfig, s: Net, l: nat, n: nat)
    requires AdderChecks(c, s, l, n)
    ensures SideOk(c.adder, s, l, n) && SideOk(TreeOf(c), s, l, n)
  {
    hide Inputs;
    MemoryFlagUnused(c.adder, s, l, n, TreeOf(c).memory);
  }

  /** When no check fails, forwarding links are only used by adders set to send. */
  lemma FenSides(t: Tile, s: FenNet)
    requires t.Valid() && FenOk(t, s)
    ensures SidesOk(t.levels, FenTree(t), s.tree)
  {
    hide FenConfigOf, AdderChecks, FoldChecks, SideOk, TreeOf;
    forall l: nat, n: nat | InTree(t.levels, l, n)
      ensures SideOk(FenTree(t)(l, n), s.tree, l, n)
    {
      FenSide(FenConfigOf(t, l, n), s.tree, l, n);
    }
  }
}
