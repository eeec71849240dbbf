/**
 A line of the collection bus: one FIFO per input and a round-robin arbiter that sends one
 package per cycle.
 */
module BusLine {
  import opened Prelude

  /** One package leaving the line, with the input it came in on. */
  datatype Grant<T> = Grant(input: nat, pkg: T)

  datatype Line<T> = Line(fifos: seq<seq<T>>, next: nat) {
    ghost predicate Valid() {
      |fifos| > 0 && next < |fifos|
    }
  }

  /** The input after x. */
  function After(x: nat, n: nat): nat {
    if x + 1 == n then 0 else x + 1
  }

  lemma AfterIsModulo(x: nat, n: nat)
    requires x < n
    ensures (x + 1) % n == After(x, n)
  {
    if x + 1 < n {
      assert (x + 1) / n == 0;
    }
  }

  /** How many inputs the arbiter passes over before it looks at k. */
  function Distance(x: nat, k: nat, n: nat): nat
    requires x < n && k < n
  {
    if x <= k then k - x else k + n - x
  }

  /** The first non-empty FIFO among `tries` of them, starting at x. */
  function Pick<T>(fifos: seq<seq<T>>, x: nat, tries: nat): (k: Option<nat>)
    requires x < |fifos|
    ensures k.Some? ==> k.value < |fifos| && fifos[k.value] != []
    decreases tries
  {
    if tries == 0 then None
    else if fifos[x] != [] then Some(x)
    else Pick(fifos, After(x, |fifos|), tries - 1)
  }

  /** The FIFOs once what is pending at every input has been taken. */
  function Taken<T>(fifos: seq<seq<T>>, incoming: seq<seq<T>>): seq<seq<T>>
    requires |fifos| == |incoming|
  {
    seq(|fifos|, k requires 0 <= k < |fifos| => fifos[k] + incoming[k])
  }

  /** One cycle of the line. */
  function Step<T>(s: Line<T>, incoming: seq<seq<T>>): (r: (Line<T>, Option<Grant<T>>))
    requires s.Valid() && |incoming| == |s.fifos|
    ensures r.0.Valid() && |r.0.fifos| == |s.fifos|
  {
    var f := Taken(s.fifos, incoming);
    match Pick(f, s.next, |f|)
    case None => (Line(f, s.next), None)
    case Some(k) => (Line(f[k := f[k][1..]], After(k, |f|)), Some(Grant(k, f[k][0])))
  }

  // ----- the arbiter

  /** Pick finds the nearest non-empty FIFO, and finds one whenever there is one. */
  lemma {:induction false} PickNearest<T>(fifos: seq<seq<T>>, x: nat, tries: nat, k: nat)
    requires x < |fifos| && k < |fifos| && fifos[k] != [] && Distance(x, k, |fifos|) < tries
    ensures var p := Pick(fifos, x, tries);
      p.Some? && Distance(x, p.value, |fifos|) <= Distance(x, k, |fifos|)
    decreases tries
  {
    if fifos[x] == [] {
      var y := After(x, |fifos|);
      assert Distance(y, k, |fifos|) == Distance(x, k, |fifos|) - 1;
      PickNearest(fifos, y, tries - 1, k);
      var p := Pick(fifos, y, tries - 1);
      assert p.value != x;
      assert Distance(x, p.value, |fifos|) == Distance(y, p.value, |fifos|) + 1;
    }
  }

  /** The line sends in a cycle exactly when some FIFO holds something. */
  lemma SendsIffWaiting<T>(s: Line<T>, incoming: seq<seq<T>>)
    requires s.Valid() && |incoming| == |s.fifos|
    ensures Step(s, incoming).1.Some? <==> exists k: nat :: k < |s.fifos| && Taken(s.fifos, incoming)[k] != []
  {
    var f := Taken(s.fifos, incoming);
    if k: nat :| k < |f| && f[k] != [] {
      PickNearest(f, s.next, |f|, k);
    }
  }

  /** Round robin: the line serves the first input with something waiting, from the one whose turn it is upwards
      and around, and the turn goes to the input after it. */
  lemma RoundRobin<T>(s: Line<T>, incoming: seq<seq<T>>)
    requires s.Valid() && |incoming| == |s.fifos|
    ensures var (s', g) := Step(s, incoming);
      if g.None? then s'.next == s.next
      else
        var k := g.value.input;
        && k < |s.fifos| && s'.next == (k + 1) % |s.fifos|
        && s.fifos[k] + incoming[k] != [] && g.value.pkg == (s.fifos[k] + incoming[k])[0]
        && forall j :: 0 <= j < |s.fifos| && (if s.next <= k then s.next <= j < k else j < k || s.next <= j) ==>
             s.fifos[j] == incoming[j] == []
  {
    var f, n := Taken(s.fifos, incoming), |s.fifos|;
    var g := Step(s, incoming).1;
    if g.Some? {
      var k := g.value.input;
      AfterIsModulo(k, n);
      forall j: nat | j < n && (if s.next <= k then s.next <= j < k else j < k || s.next <= j)
        ensures f[j] == []
      {
        if f[j] != [] {
          PickNearest(f, s.next, n, j);
        }
      }
      assert forall j :: 0 <= j < n ==> f[j] == s.fifos[j] + incoming[j];
    }
  }

  /** While input k waits, every cycle either serves it or brings the arbiter nearer to it. */
  lemma Nearer<T>(s: Line<T>, incoming: seq<seq<T>>, k: nat)
    requires s.Valid() && |incoming| == |s.fifos| && k < |s.fifos| && Taken(s.fifos, incoming)[k] != []
    ensures var (s', g) := Step(s, incoming);
      && g.Some?
      && (g.value.input == k ==> Distance(s'.next, k, |s.fifos|) == |s.fifos| - 1)
      && (g.value.input != k ==> Distance(s'.next, k, |s.fifos|) < Distance(s.next, k, |s.fifos|))
  {
    var f := Taken(s.fifos, incoming);
    PickNearest(f, s.next, |f|, k);
  }

  /** What one cycle does to one FIFO. */
  lemma StepQueue<T>(s: Line<T>, incoming: seq<seq<T>>, k: nat)
    requires s.Valid() && |incoming| == |s.fifos| && k < |s.fifos|
    ensures var (s', g) := Step(s, incoming);
      var q := s.fifos[k] + incoming[k];
      if g.Some? && g.value.input == k then q != [] && q == [g.value.pkg] + s'.fifos[k] else s'.fifos[k] == q
  {
    assert Taken(s.fifos, incoming)[k] == s.fifos[k] + incoming[k];
  }

  // ----- whole runs

  /** incoming(r)[k]: what is pending at input k in cycle r. */
  type Arrivals<!T> = nat -> seq<seq<T>>

  ghost predicate Fits<T(!new)>(n: nat, incoming: Arrivals<T>) {
    forall r: nat :: |incoming(r)| == n
  }

  /** The line after r cycles. */
  ghost function LineAt<T(!new)>(s: Line<T>, incoming: Arrivals<T>, r: nat): (s': Line<T>)
    requires s.Valid() && Fits(|s.fifos|, incoming)
    ensures s'.Valid() && |s'.fifos| == |s.fifos|
  {
    if r == 0 then s else Step(LineAt(s, incoming, r - 1), incoming(r - 1)).0
  }

  ghost function GrantAt<T(!new)>(s: Line<T>, incoming: Arrivals<T>, r: nat): Option<Grant<T>>
    requires s.Valid() && Fits(|s.fifos|, incoming)
  {
    Step(LineAt(s, incoming, r), incoming(r)).1
  }

  /** The packages that came in on k in the first r cycles. */
  ghost function ReceivedOn<T(!new)>(s: Line<T>, incoming: Arrivals<T>, r: nat, k: nat): seq<T>
    requires s.Valid() && Fits(|s.fifos|, incoming) && k < |s.fifos|
  {
    if r == 0 then [] else ReceivedOn(s, incoming, r - 1, k) + incoming(r - 1)[k]
  }

  /** The packages from k that were sent in the first r cycles. */
  ghost function SentFrom<T(!new)>(s: Line<T>, incoming: Arrivals<T>, r: nat, k: nat): seq<T>
    requires s.Valid() && Fits(|s.fifos|, incoming) && k < |s.fifos|
  {
    if r == 0 then []
    else
      var g := GrantAt(s, incoming, r - 1);
      SentFrom(s, incoming, r - 1, k) + (if g.Some? && g.value.input == k then [g.value.pkg] else [])
  }

  /** Conservation: nothing is lost, duplicated or reordered on any input. */
  lemma {:induction false} LineConserves<T(!new)>(s: Line<T>, incoming: Arrivals<T>, r: nat, k: nat)
    requires s.Valid() && Fits(|s.fifos|, incoming) && k < |s.fifos|
    ensures SentFrom(s, incoming, r, k) + LineAt(s, incoming, r).fifos[k] == s.fifos[k] + ReceivedOn(s, incoming, r, k)
  {
    hide Step;
    if r > 0 {
      LineConserves(s, incoming, r - 1, k);
      StepQueue(LineAt(s, incoming, r - 1), incoming(r - 1), k);
      var before, after := LineAt(s, incoming, r - 1).fifos[k], LineAt(s, incoming, r).fifos[k];
      var sent, now := SentFrom(s, incoming, r - 1, k), SentFrom(s, incoming, r, k);
      assert sent + (before + incoming(r - 1)[k]) == s.fifos[k] + ReceivedOn(s, incoming, r, k) by {
        assert sent + (before + incoming(r - 1)[k]) == (sent + before) + incoming(r - 1)[k];
      }
      assert now + after == sent + (before + incoming(r - 1)[k]);
    }
  }

  lemma {:induction false} SentGrows<T(!new)>(s: Line<T>, incoming: Arrivals<T>, r: nat, u: nat, k: nat)
    requires s.Valid() && Fits(|s.fifos|, incoming) && k < |s.fifos| && r <= u
    ensures |SentFrom(s, incoming, r, k)| <= |SentFrom(s, incoming, u, k)|
  {
    hide GrantAt, LineAt;
    if r < u {
      SentGrows(s, incoming, r, u - 1, k);
    }
  }

  /** What is waiting at input k in cycle r, with what arrives in that cycle. */
  ghost function Waiting<T(!new)>(s: Line<T>, incoming: Arrivals<T>, r: nat, k: nat): seq<T>
    requires s.Valid() && Fits(|s.fifos|, incoming) && k < |s.fifos|
  {
    LineAt(s, incoming, r).fifos[k] + incoming(r)[k]
  }

  /** One cycle in which input k waits. */
  lemma WaitingStep<T(!new)>(s: Line<T>, incoming: Arrivals<T>, r: nat, k: nat)
    requires s.Valid() && Fits(|s.fifos|, incoming) && k < |s.fifos| && Waiting(s, incoming, r, k) != []
    ensures var served := |SentFrom(s, incoming, r + 1, k)| == |SentFrom(s, incoming, r, k)| + 1;
      var d := Distance(LineAt(s, incoming, r).next, k, |s.fifos|);
      var d' := Distance(LineAt(s, incoming, r + 1).next, k, |s.fifos|);
      && |Waiting(s, incoming, r + 1, k)| >= |Waiting(s, incoming, r, k)| - (if served then 1 else 0)
      && (if served then d' == |s.fifos| - 1
          else |SentFrom(s, incoming, r + 1, k)| == |SentFrom(s, incoming, r, k)| && d' < d)
  {
    hide Step;
    var b := LineAt(s, incoming, r);
    assert LineAt(s, incoming, r + 1) == Step(b, incoming(r)).0;
    assert Taken(b.fifos, incoming(r))[k] == Waiting(s, incoming, r, k);
    Nearer(b, incoming(r), k);
    StepQueue(b, incoming(r), k);
  }

  lemma {:induction false} FairWithin<T(!new)>(s: Line<T>, incoming: Arrivals<T>, r: nat, k: nat, q: nat, budget: nat)
    requires s.Valid() && Fits(|s.fifos|, incoming) && k < |s.fifos| && q < |Waiting(s, incoming, r, k)|
    requires q * |s.fifos| + Distance(LineAt(s, incoming, r).next, k, |s.fifos|) < budget
    ensures |SentFrom(s, incoming, r + budget, k)| >= |SentFrom(s, incoming, r, k)| + q + 1
    decreases budget
  {
    hide Step, LineAt, SentFrom, Waiting;
    WaitingStep(s, incoming, r, k);
    var served := |SentFrom(s, incoming, r + 1, k)| == |SentFrom(s, incoming, r, k)| + 1;
    if served && q == 0 {
      SentGrows(s, incoming, r + 1, r + budget, k);
    } else if served {
      PositionDrops(q, |s.fifos|);
      FairWithin(s, incoming, r + 1, k, q - 1, budget - 1);
    } else {
      FairWithin(s, incoming, r + 1, k, q, budget - 1);
    }
  }

  lemma PositionDrops(q: nat, n: nat)
    requires q > 0
    ensures q * n == (q - 1) * n + n
  {
  }

  /** Fairness: what waits at position q of input k in cycle r has been sent (q + 1) * n cycles later,
      whatever the other inputs do. */
  lemma ArbiterFair<T(!new)>(s: Line<T>, incoming: Arrivals<T>, r: nat, k: nat, q: nat)
    requires s.Valid() && Fits(|s.fifos|, incoming) && k < |s.fifos| && q < |Waiting(s, incoming, r, k)|
    ensures |SentFrom(s, incoming, r + (q + 1) * |s.fifos|, k)| >= |SentFrom(s, incoming, r, k)| + q + 1
  {
    hide Step, LineAt, SentFrom, Waiting;
    PositionDrops(q + 1, |s.fifos|);
    FairWithin(s, incoming, r, k, q, (q + 1) * |s.fifos|);
  }

  lemma {:induction false} ReceivedGrows<T(!new)>(s: Line<T>, incoming: Arrivals<T>, r: nat, u: nat, k: nat)
    requires s.Valid() && Fits(|s.fifos|, incoming) && k < |s.fifos| && r <= u
    ensures ReceivedOn(s, incoming, r, k) <= ReceivedOn(s, incoming, u, k)
  {
    if r < u {
      ReceivedGrows(s, incoming, r, u - 1, k);
    }
  }

  /** And it is that very package which is sent: the one at position q of input k. */
  lemma PackageSent<T(!new)>(s: Line<T>, incoming: Arrivals<T>, r: nat, k: nat, q: nat)
    requires s.Valid() && Fits(|s.fifos|, incoming) && k < |s.fifos| && q < |Waiting(s, incoming, r, k)|
    ensures var sent, at := SentFrom(s, incoming, r + (q + 1) * |s.fifos|, k), |SentFrom(s, incoming, r, k)| + q;
      at < |sent| && sent[at] == Waiting(s, incoming, r, k)[q]
  {
    hide Step, LineAt, SentFrom;
    var u := r + (q + 1) * |s.fifos|;
    ArbiterFair(s, incoming, r, k, q);
    PositionDrops(q + 1, |s.fifos|);
    LineConserves(s, incoming, r, k);
    LineConserves(s, incoming, u, k);
    ReceivedGrows(s, incoming, r + 1, u, k);
    var first := SentFrom(s, incoming, r, k) + Waiting(s, incoming, r, k);
    assert first == s.fifos[k] + ReceivedOn(s, incoming, r + 1, k) by {
      assert first == (SentFrom(s, incoming, r, k) + LineAt(s, incoming, r).fifos[k]) + incoming(r)[k];
    }
    var last := s.fifos[k] + ReceivedOn(s, incoming, u, k);
    assert first <= last && first[|SentFrom(s, incoming, r, k)| + q] == Waiting(s, incoming, r, k)[q];
  }

  // ----- the line itself

  function Lengths<T>(fifos: seq<seq<T>>): seq<nat> {
    seq(|fifos|, k requires 0 <= k < |fifos| => |fifos[k]|)
  }

  lemma {:induction false} SumUpdate(counts: seq<nat>, k: nat, v: nat)
    requires k < |counts|
    ensures Sum(counts[k := v]) == Sum(counts) - counts[k] + v
  {
    var last := |counts| - 1;
    if k < last {
      assert counts[k := v][..last] == counts[..last][k := v];
      SumUpdate(counts[..last], k, v);
    } else {
      assert counts[k := v][..last] == counts[..last];
    }
  }

  lemma {:induction false} SumZero(counts: seq<nat>)
    requires forall k :: 0 <= k < |counts| ==> counts[k] == 0
    ensures Sum(counts) == 0
  {
    if counts != [] {
      SumZero(counts[..|counts| - 1]);
    }
  }

  class CollectionBusLine<T> {
    const ports: nat
    var fifos: seq<seq<T>>
    var next: nat
    var inputsReceive: seq<nat>
    var sends: nat

    /** The counters account for every package: received is sent or still queued. */
    ghost predicate Valid()
      reads this
    {
      && View().Valid() && |fifos| == |inputsReceive| == ports
      && Sum(inputsReceive) == sends + Sum(Lengths(fifos))
    }

    ghost function View(): Line<T>
      reads this`fifos, this`next
    {
      Line(fifos, next)
    }

    constructor (ports: nat)
      requires ports > 0
      ensures Valid() && this.ports == ports && next == 0 && sends == 0
      ensures fifos == seq(ports, _ => []) && inputsReceive == seq(ports, _ => 0)
    {
      this.ports := ports;
      fifos := seq(ports, _ => []);
      inputsReceive := seq(ports, _ => 0);
      next, sends := 0, 0;
      new;
      SumZero(inputsReceive);
      SumZero(Lengths(fifos));
    }

    /** Takes one package in at input i. */
    method Push(i: nat, pkg: T)
      requires Valid() && i < ports
      modifies this`fifos, this`inputsReceive
      ensures Valid() && fifos == old(fifos)[i := old(fifos)[i] + [pkg]]
      ensures inputsReceive == old(inputsReceive)[i := old(inputsReceive)[i] + 1]
    {
      SumUpdate(inputsReceive, i, inputsReceive[i] + 1);
      SumUpdate(Lengths(fifos), i, |fifos[i]| + 1);
      assert Lengths(fifos[i := fifos[i] + [pkg]]) == Lengths(fifos)[i := |fifos[i]| + 1];
      inputsReceive := inputsReceive[i := inputsReceive[i] + 1];
      fifos := fifos[i := fifos[i] + [pkg]];
    }

    /** Takes in what is pending at input i. */
    method ReceiveFrom(i: nat, pkgs: seq<T>)
      requires Valid() && i < ports
      modifies this`fifos, this`inputsReceive
      ensures Valid() && fifos == old(fifos)[i := old(fifos)[i] + pkgs]
      ensures inputsReceive == old(inputsReceive)[i := old(inputsReceive)[i] + |pkgs|]
    {
      hide Sum, Lengths;
      var j := 0;
      assert fifos[i] + pkgs[..0] == fifos[i];
      while j < |pkgs|
        invariant j <= |pkgs| && Valid()
        invariant fifos == old(fifos)[i := old(fifos)[i] + pkgs[..j]]
        invariant inputsReceive == old(inputsReceive)[i := old(inputsReceive)[i] + j]
      {
        assert old(fifos)[i] + pkgs[..j + 1] == (old(fifos)[i] + pkgs[..j]) + [pkgs[j]];
        Push(i, pkgs[j]);
        j := j + 1;
      }
      assert pkgs[..j] == pkgs;
    }

    /** Takes in everything that is pending at the inputs. */
    method Receive(incoming: seq<seq<T>>)
      requires Valid() && |incoming| == ports
      modifies this`fifos, this`inputsReceive
      ensures Valid() && fifos == Taken(old(fifos), incoming)
      ensures forall k :: 0 <= k < ports ==> inputsReceive[k] == old(inputsReceive)[k] + |incoming[k]|
    {
      hide Sum, Lengths;
      var i := 0;
      while i < ports
        invariant i <= ports && Valid()
        invariant forall k :: 0 <= k < ports ==> fifos[k] == old(fifos)[k] + if k < i then incoming[k] else []
        invariant forall k :: 0 <= k < ports ==>
          inputsReceive[k] == old(inputsReceive)[k] + if k < i then |incoming[k]| else 0
      {
        ReceiveFrom(i, incoming[i]);
        i := i + 1;
      }
      assert fifos == Taken(old(fifos), incoming);
    }

    /** Takes the first package of FIFO k out and sends it. */
    method Pop(k: nat) returns (pkg: T)
      requires Valid() && k < ports && fifos[k] != []
      modifies this`fifos, this`sends
      ensures Valid() && pkg == old(fifos)[k][0] && fifos == old(fifos)[k := old(fifos)[k][1..]]
        && sends == old(sends) + 1
    {
      SumUpdate(Lengths(fifos), k, |fifos[k]| - 1);
      assert Lengths(fifos[k := fifos[k][1..]]) == Lengths(fifos)[k := |fifos[k]| - 1];
      pkg := fifos[k][0];
      fifos := fifos[k := fifos[k][1..]];
      sends := sends + 1;
    }

    /** Looks for a non-empty FIFO, starting where the last search stopped. */
    method SelectInput() returns (k: Option<nat>)
      requires Valid()
      modifies this`next
      ensures Valid() && k == Pick(fifos, old(next), ports)
      ensures next == if k.Some? then After(k.value, ports) else old(next)
    {
      hide Sum, Lengths;
      k := None;
      var iters := 0;
      while k.None? && iters < ports
        invariant iters <= ports && Valid()
        invariant k.None? ==> Pick(fifos, old(next), ports) == Pick(fifos, next, ports - iters)
        invariant k.None? ==> Distance(old(next), next, ports) == if iters == ports then 0 else iters
        invariant k.Some? ==> Pick(fifos, old(next), ports) == k && next == After(k.value, ports)
        decreases ports - iters
      {
        AfterIsModulo(next, ports);
        if fifos[next] != [] {
          k := Some(next);
        }
        next := (next + 1) % ports;
        iters := iters + 1;
      }
    }

    /** One cycle: receive, then give the turn to the next non-empty input. */
    method Cycle(incoming: seq<seq<T>>) returns (sent: Option<Grant<T>>)
      requires Valid() && |incoming| == ports
      modifies this
      ensures Valid() && (View(), sent) == Step(old(View()), incoming)
      ensures sends == old(sends) + if sent.Some? then 1 else 0
    {
      hide Sum, Lengths, Pick;
      Receive(incoming);
      var k := SelectInput();
      sent := None;
      if k.Some? {
        var pkg := Pop(k.value);
        sent := Some(Grant(k.value, pkg));
      }
    }
  }
}
