/**
 One cycle of a switch whose FIFOs hold a stretch of a stream: each routing mode consumes
 the next package of every stream it combines, and emits the next package of its own.
 */
module Streams {
  import opened Prelude
  import opened Signals
  import opened Switches

  /** The packages number a .. b - 1 of VN i on a stream of values. */
  ghost function Packs(i: nat, v: nat -> real, a: nat, b: nat): (s: seq<Pkg>)
    requires a <= b
    ensures |s| == b - a
    ensures forall p :: p in s ==> p.vn == i
  {
    seq(b - a, j requires 0 <= j < b - a => Package(i, v(a + j)))
  }

  lemma PacksJoin(i: nat, v: nat -> real, a: nat, b: nat, c: nat)
    requires a <= b <= c
    ensures Packs(i, v, a, b) + Packs(i, v, b, c) == Packs(i, v, a, c)
  {
  }

  lemma PacksHead(i: nat, v: nat -> real, a: nat, b: nat)
    requires a < b
    ensures Packs(i, v, a, b)[0] == Package(i, v(a))
    ensures Packs(i, v, a, b)[1..] == Packs(i, v, a + 1, b)
    ensures Packs(i, v, a, b)[..1] == Packs(i, v, a, a + 1) == [Package(i, v(a))]
  {
  }

  function Bump(a: nat, fires: bool): nat {
    if fires then a + 1 else a
  }

  /** Where the output of an adder goes. */
  ghost predicate Emits(cfg: Config, r: Routed, s: seq<Pkg>) {
    if cfg.fw == Some(Send) then r.side == s && r.up == [] else r.up == s && r.side == []
  }

  lemma Fire21(cfg: Config, n: nat, q: Queues, i: nat, vl: nat -> real, vr: nat -> real, v: nat -> real,
               a: nat, l: nat, r: nat)
    requires cfg.mode == Add21 && cfg.left && cfg.right && cfg.fw != Some(Receive)
    requires a <= l && a <= r && q.left == Packs(i, vl, a, l) && q.right == Packs(i, vr, a, r)
    requires v(a) == vl(a) + vr(a)
    ensures var a' := Bump(a, a < l && a < r); var o := Route(cfg, n, q);
      o.ok && o.queues == Queues(Packs(i, vl, a', l), Packs(i, vr, a', r), q.fw) && Emits(cfg, o, Packs(i, v, a, a'))
  {
    if a < l {
      PacksHead(i, vl, a, l);
    }
    if a < r {
      PacksHead(i, vr, a, r);
    }
    PacksHead(i, v, a, a + 1);
    var a' := Bump(a, a < l && a < r);
    var o := Route(cfg, n, q);
    assert o.queues.left == Packs(i, vl, a', l) && o.queues.right == Packs(i, vr, a', r) && o.queues.fw == q.fw;
    assert cfg.fw.Some? ==> cfg.fw == Some(Send) by {
      assert cfg.fw.Some? ==> cfg.fw.value == Receive || cfg.fw.value == Send;
    }
  }

  lemma Fire21Left(cfg: Config, n: nat, q: Queues, i: nat, v: nat -> real, a: nat, l: nat)
    requires cfg.mode == Add21 && !cfg.right && cfg.fw != Some(Receive)
    requires a <= l && q.left == Packs(i, v, a, l) && q.right == []
    ensures var a' := Bump(a, a < l); var o := Route(cfg, n, q);
      o.ok && o.queues == Queues(Packs(i, v, a', l), [], q.fw) && Emits(cfg, o, Packs(i, v, a, a'))
  {
    if a < l {
      PacksHead(i, v, a, l);
    }
    var a' := Bump(a, a < l);
    var o := Route(cfg, n, q);
    assert o.queues.left == Packs(i, v, a', l) && o.queues.right == [] && o.queues.fw == q.fw;
    assert cfg.fw.Some? ==> cfg.fw == Some(Send) by {
      assert cfg.fw.Some? ==> cfg.fw.value == Receive || cfg.fw.value == Send;
    }
  }

  lemma Fire31(cfg: Config, n: nat, q: Queues, i: nat,
               vl: nat -> real, vr: nat -> real, vf: nat -> real, v: nat -> real, a: nat, l: nat, r: nat, f: nat)
    requires cfg.mode == Add31 && cfg.left && cfg.right && cfg.fw == Some(Receive)
    requires a <= l && a <= r && a <= f
    requires q == Queues(Packs(i, vl, a, l), Packs(i, vr, a, r), Packs(i, vf, a, f))
    requires v(a) == vl(a) + vr(a) + vf(a)
    ensures var a' := Bump(a, a < l && a < r && a < f); var o := Route(cfg, n, q);
      && o.ok && o.queues == Queues(Packs(i, vl, a', l), Packs(i, vr, a', r), Packs(i, vf, a', f))
      && Emits(cfg, o, Packs(i, v, a, a'))
  {
    if a < l && a < r && a < f {
      PacksHead(i, vl, a, l);
      PacksHead(i, vr, a, r);
      PacksHead(i, vf, a, f);
      PacksHead(i, v, a, a + 1);
    }
  }

  lemma FirstRest(i: nat, v: nat -> real, a: nat, l: nat)
    requires a <= l
    ensures var a' := Bump(a, a < l);
      First(Packs(i, v, a, l)) == Packs(i, v, a, a') && Rest(Packs(i, v, a, l)) == Packs(i, v, a', l)
  {
    if a < l {
      PacksHead(i, v, a, l);
    }
  }

  lemma Fire11(cfg: Config, n: nat, q: Queues, i: nat, j: nat, vl: nat -> real, vr: nat -> real,
               a: nat, l: nat, b: nat, r: nat)
    requires cfg.mode == Add11PlusFw11 && cfg.left && cfg.right && cfg.fw == Some(Send) && j > 0
    requires a <= l && q.left == Packs(i, vl, a, l)
    requires b <= r && q.right == Packs(j, vr, b, r)
    ensures var a', b' := Bump(a, a < l), Bump(b, b < r); var o := Route(cfg, n, q);
      && o.ok && o.queues == Queues(Packs(i, vl, a', l), Packs(j, vr, b', r), q.fw)
      && o.up == (if n % 2 == 0 then Packs(j, vr, b, b') else Packs(i, vl, a, a'))
      && o.side == (if n % 2 == 0 then Packs(i, vl, a, a') else Packs(j, vr, b, b'))
  {
    FirstRest(i, vl, a, l);
    FirstRest(j, vr, b, r);
  }

  lemma Fire22(cfg: Config, n: nat, q: Queues, i: nat, j: nat, vl: nat -> real, vr: nat -> real,
               a: nat, l: nat, b: nat, r: nat)
    requires cfg.mode == Fw22 && i != j
    requires a <= l && q.left == Packs(i, vl, a, l)
    requires b <= r && q.right == Packs(j, vr, b, r)
    ensures var o := Route(cfg, n, q);
      && o.ok && o.queues == Queues([], [], q.fw) && o.side == []
      && o.up == Packs(i, vl, a, l) + Packs(j, vr, b, r)
      && Filter(o.up, i) == Packs(i, vl, a, l) && Filter(o.up, j) == Packs(j, vr, b, r)
  {
    var x, y := Packs(i, vl, a, l), Packs(j, vr, b, r);
    FilterAppend(x, y, i);
    FilterAppend(x, y, j);
    FilterAll(x, i);
    FilterNone(y, i);
    FilterNone(x, j);
    FilterAll(y, j);
  }
}
