/**
 The reduction network as a state machine: the FIFOs of every adder, what is pending on
 every connection, and what has reached memory.  In one cycle every adder takes what was
 pending at its inputs and leaves what it emits pending at its output.
 */
module Networks {
  import opened Prelude
  import opened Layout
  import opened Signals
  import opened Switches

  /** A connection is named after its source: multiplier m is (levels, m), and (0, 0) is the
      output of the network.  A forwarding link is named after its even end. */
  datatype Net = Net(
    queues: map<Id, Queues>,
    wires: map<Id, seq<Pkg>>,
    links: map<Id, seq<Pkg>>,
    memory: map<Id, seq<Pkg>>)
  {
    function Q(l: nat, n: nat): Queues {
      if (l, n) in queues then queues[(l, n)] else NO_QUEUES
    }

    function Wire(l: nat, n: nat): seq<Pkg> {
      if (l, n) in wires then wires[(l, n)] else []
    }

    function Link(l: nat, n: nat): seq<Pkg> {
      if (l, n) in links then links[(l, n)] else []
    }

    function Memory(l: nat, n: nat): seq<Pkg> {
      if (l, n) in memory then memory[(l, n)] else []
    }

    /** The FIFO of adder (l, c / 2) for child c. */
    function InQ(l: nat, c: nat): seq<Pkg> {
      if c % 2 == 0 then Q(l, c / 2).left else Q(l, c / 2).right
    }
  }

  /** Nothing anywhere. */
  ghost predicate Silent(s: Net) {
    forall l: nat, n: nat :: s.Q(l, n) == NO_QUEUES && s.Wire(l, n) == [] && s.Link(l, n) == [] && s.Memory(l, n) == []
  }

  type Configs = (nat, nat) -> Config

  function EvenEnd(n: nat): nat {
    if n % 2 == 1 then n + 1 else n
  }

  /** The FIFOs of adder (l, n) once it has taken what is pending at its inputs. */
  function Inputs(cfg: Config, s: Net, l: nat, n: nat): Queues {
    var q := s.Q(l, n);
    Queues(q.left + s.Wire(l + 1, 2 * n), q.right + s.Wire(l + 1, 2 * n + 1),
           if cfg.fw == Some(Receive) then q.fw + s.Link(l, EvenEnd(n)) else q.fw)
  }

  function RunNode(cfg: Config, s: Net, l: nat, n: nat): Routed {
    Route(cfg, n, Inputs(cfg, s, l, n))
  }

  /** No check of adder (l, n) fails in this cycle. */
  predicate NodeOk(cfg: Config, s: Net, l: nat, n: nat) {
    && RunNode(cfg, s, l, n).ok
    && (cfg.fw == Some(Receive) ==> |s.Link(l, EvenEnd(n))| <= 1)
  }

  ghost predicate CycleOk(levels: nat, cfgs: Configs, s: Net) {
    forall l: nat, n: nat :: l < levels && n < Pow2(l) ==> NodeOk(cfgs(l, n), s, l, n)
  }

  ghost predicate NodeNext(cfg: Config, s: Net, s': Net, l: nat, n: nat) {
    var r := RunNode(cfg, s, l, n);
    && s'.Q(l, n) == r.queues
    && s'.Wire(l, n) == (if cfg.memory then [] else r.up)
    && s'.Memory(l, n) == s.Memory(l, n) + (if cfg.memory then r.up else [])
    && (cfg.fw == Some(Send) ==> s'.Link(l, EvenEnd(n)) == r.side)
    && (cfg.fw == None ==> s'.Link(l, EvenEnd(n)) == s.Link(l, EvenEnd(n)))
  }

  /** One synchronous cycle of the whole network. */
  ghost predicate Next(levels: nat, cfgs: Configs, s: Net, s': Net) {
    && (forall l: nat, n: nat :: l < levels && n < Pow2(l) ==> NodeNext(cfgs(l, n), s, s', l, n))
    && (forall m: nat :: m < Pow2(levels) ==> s'.Wire(levels, m) == [])
  }
}
