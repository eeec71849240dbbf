/**
 One adder of the reduction tree.  `Route` says what a switch does in one cycle with the
 packages in its input FIFOs; class ASwitch does it step by step.
 */
module Switches {
  import opened Prelude
  import opened Signals

  type Pkg = Package<real>

  datatype Queues = Queues(left: seq<Pkg>, right: seq<Pkg>, fw: seq<Pkg>)

  const NO_QUEUES := Queues([], [], [])

  /** What is left in the FIFOs, what goes to the parent or to memory, what goes to the
      forwarding link, and whether every check of the switch held. */
  datatype Routed = Routed(queues: Queues, up: seq<Pkg>, side: seq<Pkg>, ok: bool)

  function Stay(q: Queues, ok: bool): Routed {
    Routed(q, [], [], ok)
  }

  function Emit(cfg: Config, q: Queues, p: Pkg, ok: bool): Routed {
    if cfg.fw.Some? then Routed(q, [], [p], ok) else Routed(q, [p], [], ok)
  }

  function Route21(cfg: Config, q: Queues): Routed {
    if q.left != [] && q.right == [] then
      if cfg.right then Stay(q, true) else Emit(cfg, q.(left := q.left[1..]), q.left[0], true)
    else if q.right != [] && q.left == [] then
      if cfg.left then Stay(q, true) else Emit(cfg, q.(right := q.right[1..]), q.right[0], true)
    else if q.left != [] && q.right != [] then
      Emit(cfg, q.(left := q.left[1..], right := q.right[1..]),
           Package(q.left[0].vn, q.left[0].data + q.right[0].data),
           cfg.left && cfg.right && q.left[0].vn == q.right[0].vn)
    else
      Stay(q, true)
  }

  function Route31(cfg: Config, q: Queues): Routed {
    var wired := cfg.left && cfg.right && cfg.fw == Some(Receive);
    if q.left != [] && q.right != [] && q.fw != [] then
      Routed(Queues(q.left[1..], q.right[1..], q.fw[1..]),
             [Package(q.left[0].vn, q.left[0].data + q.right[0].data + q.fw[0].data)], [],
             wired && q.left[0].vn == q.right[0].vn == q.fw[0].vn)
    else
      Stay(q, wired)
  }

  function First(s: seq<Pkg>): seq<Pkg> {
    if s == [] then [] else s[..1]
  }

  function Rest(s: seq<Pkg>): seq<Pkg> {
    if s == [] then [] else s[1..]
  }

  /** Splits the inputs: the one next to the link goes to the link, the other one up. */
  function Route11(cfg: Config, n: nat, q: Queues): Routed {
    var wired := cfg.left && cfg.right;
    var q' := q.(left := Rest(q.left), right := Rest(q.right));
    if n % 2 == 0 then
      Routed(q', First(q.right), First(q.left), wired && (q.right != [] ==> q.right[0].vn != 0))
    else
      Routed(q', First(q.left), First(q.right), wired)
  }

  function Route22(q: Queues): Routed {
    Routed(q.(left := [], right := []), q.left + q.right, [], true)
  }

  /** One cycle of adder number n of its level, packages already taken from the connections. */
  function Route(cfg: Config, n: nat, q: Queues): Routed {
    var r := match cfg.mode
      case Add21 => Route21(cfg, q)
      case Add31 => Route31(cfg, q)
      case Add11PlusFw11 => Route11(cfg, n, q)
      case Fw22 => Route22(q)
      case Fold => Stay(q, false);
    r.(ok := r.ok && (r.side != [] ==> cfg.fw == Some(Send)))
  }

  /** The packages of one VN. */
  function Filter(s: seq<Pkg>, vn: nat): seq<Pkg> {
    if s == [] then []
    else if s[|s| - 1].vn == vn then Filter(s[..|s| - 1], vn) + [s[|s| - 1]]
    else Filter(s[..|s| - 1], vn)
  }

  lemma {:induction false} FilterAppend(a: seq<Pkg>, b: seq<Pkg>, vn: nat)
    ensures Filter(a + b, vn) == Filter(a, vn) + Filter(b, vn)
  {
    if b == [] {
      assert a + b == a;
    } else {
      assert (a + b)[..|a + b| - 1] == a + b[..|b| - 1];
      FilterAppend(a, b[..|b| - 1], vn);
    }
  }

  lemma {:induction false} FilterAll(s: seq<Pkg>, vn: nat)
    requires forall p :: p in s ==> p.vn == vn
    ensures Filter(s, vn) == s
  {
    if s != [] {
      FilterAll(s[..|s| - 1], vn);
    }
  }

  lemma {:induction false} FilterNone(s: seq<Pkg>, vn: nat)
    requires forall p :: p in s ==> p.vn != vn
    ensures Filter(s, vn) == []
  {
    if s != [] {
      assert s[|s| - 1] in s;
      FilterNone(s[..|s| - 1], vn);
    }
  }
}
