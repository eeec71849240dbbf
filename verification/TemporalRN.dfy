/**
 The temporal reduction network: one accumulator per multiplier, every accumulator wired to its own
 input of the collection bus.
 */
module TemporalNetwork {
  import opened Prelude
  import opened Arithmetic
  import opened BusLine
  import opened Accumulation

  /** Inputs of one line of the bus: the multipliers over the lines, rounded up. */
  function Ports(size: nat, lines: nat): (p: nat)
    requires lines > 0
    ensures (p - 1) * lines < size <= p * lines || (size == 0 && p == 0)
  {
    var q := size / lines;
    assert size == q * lines + size % lines;
    assert (q + 1) * lines == q * lines + lines;
    assert (q - 1) * lines == q * lines - lines;
    q + if size % lines != 0 then 1 else 0
  }

  datatype Wire = Wire(bus: nat, input: nat)

  function WireOf(i: nat, lines: nat): (w: Wire)
    requires lines > 0
    ensures w.bus < lines && i == w.input * lines + w.bus
  {
    Wire(i % lines, i / lines)
  }

  lemma WireUnique(w: Wire, lines: nat)
    requires w.bus < lines
    ensures WireOf(w.input * lines + w.bus, lines) == w
  {
    QuotientOf(w.input * lines + w.bus, lines, w.input, w.bus);
  }

  /** No two accumulators share an input of the bus. */
  lemma WiresDistinct(i: nat, j: nat, lines: nat)
    requires lines > 0 && i != j
    ensures WireOf(i, lines) != WireOf(j, lines)
  {
    var w := WireOf(i, lines);
    assert WireOf(j, lines) == w ==> j == w.input * lines + w.bus;
  }

  /** The wiring stays inside the bus exactly when there are no more accumulators than inputs. */
  lemma WiresInRange(count: nat, lines: nat, ports: nat)
    requires lines > 0
    ensures (forall i: nat :: i < count ==> WireOf(i, lines).input < ports) <==> count <= ports * lines
  {
    hide WireOf;
    if count <= ports * lines {
      forall i: nat | i < count ensures WireOf(i, lines).input < ports {
        RowBelow(WireOf(i, lines).input, ports, lines, i);
      }
    } else {
      WireUnique(Wire(0, ports), lines);
    }
  }

  // ----- accumulators and bus together

  /** psums(i)(t): what reaches accumulator i in cycle t. */
  type PsumStreams<!D> = nat -> PsumStream<D>

  /** What reaches the inputs of a line: the bus runs before the accumulators in every cycle, so it
      sees what they sent the cycle before. */
  ghost function LineInput<D(!new)>(count: nat, lines: nat, ports: nat, n: nat, psums: PsumStreams<D>,
                                    add: Addition<D>, bus: nat): (f: BusLine.Arrivals<Package<D>>)
    ensures Fits(ports, f)
  {
    (r: nat) => seq(ports, k requires 0 <= k < ports => Offered(count, n, psums, add, k * lines + bus, r))
  }

  ghost function Offered<D(!new)>(count: nat, n: nat, psums: PsumStreams<D>, add: Addition<D>, i: nat,
                                  r: nat): seq<Package<D>> {
    if r > 0 && i < count then SentIn(n, psums(i), add, r - 1) else []
  }

  function EmptyLine<T>(ports: nat): (s: Line<T>)
    requires ports > 0
    ensures s.Valid()
  {
    Line(seq(ports, _ => []), 0)
  }

  /** The bus receives from each accumulator what that accumulator has sent, and nothing else. */
  lemma {:induction false} BusReceives<D(!new)>(count: nat, lines: nat, ports: nat, n: nat, psums: PsumStreams<D>,
                                                add: Addition<D>, i: nat, r: nat)
    requires lines > 0 && i < count <= ports * lines
    ensures var w := WireOf(i, lines);
      && w.input < ports
      && ReceivedOn(EmptyLine(ports), LineInput(count, lines, ports, n, psums, add, w.bus), r + 1, w.input) ==
        SentBy(n, psums(i), add, r)
  {
    hide SentIn;
    var w := WireOf(i, lines);
    RowBelow(w.input, ports, lines, i);
    var f := LineInput(count, lines, ports, n, psums, add, w.bus);
    assert f(r)[w.input] == Offered(count, n, psums, add, i, r);
    if r > 0 {
      BusReceives(count, lines, ports, n, psums, add, i, r - 1);
    } else {
      assert ReceivedOn(EmptyLine(ports), f, 0, w.input) == [];
    }
  }

  /** Everything an accumulator sends leaves the bus once and in order: what has left through its input
      followed by what is still queued there is exactly what it has sent. */
  lemma BusConserves<D(!new)>(count: nat, lines: nat, ports: nat, n: nat, psums: PsumStreams<D>, add: Addition<D>,
                              i: nat, r: nat)
    requires lines > 0 && i < count <= ports * lines
    ensures var w := WireOf(i, lines);
      var f := LineInput(count, lines, ports, n, psums, add, w.bus);
      && w.input < ports
      && SentFrom(EmptyLine(ports), f, r + 1, w.input) + LineAt(EmptyLine(ports), f, r + 1).fifos[w.input] ==
        SentBy(n, psums(i), add, r)
  {
    hide SentIn, SentFrom, LineAt, ReceivedOn, SentBy, LineInput;
    var w := WireOf(i, lines);
    BusReceives(count, lines, ports, n, psums, add, i, r);
    LineConserves(EmptyLine(ports), LineInput(count, lines, ports, n, psums, add, w.bus), r + 1, w.input);
  }

  /** What the bus holds or is offered in cycle r for accumulator i. */
  lemma BusWaiting<D(!new)>(count: nat, lines: nat, ports: nat, n: nat, psums: PsumStreams<D>, add: Addition<D>,
                            i: nat, r: nat)
    requires lines > 0 && i < count <= ports * lines
    ensures var w := WireOf(i, lines);
      var f := LineInput(count, lines, ports, n, psums, add, w.bus);
      && w.input < ports
      && SentFrom(EmptyLine(ports), f, r, w.input) + Waiting(EmptyLine(ports), f, r, w.input) ==
        SentBy(n, psums(i), add, r)
  {
    hide SentIn, SentFrom, LineAt, SentBy, LineInput;
    var w := WireOf(i, lines);
    BusReceives(count, lines, ports, n, psums, add, i, r);
    var f := LineInput(count, lines, ports, n, psums, add, w.bus);
    LineConserves(EmptyLine(ports), f, r, w.input);
    var sent, queued := SentFrom(EmptyLine(ports), f, r, w.input), LineAt(EmptyLine(ports), f, r).fifos[w.input];
    assert sent + (queued + f(r)[w.input]) == (sent + queued) + f(r)[w.input];
  }

  lemma {:induction false} SentPrefix<T(!new)>(s: Line<T>, incoming: BusLine.Arrivals<T>, r: nat, u: nat, k: nat)
    requires s.Valid() && Fits(|s.fifos|, incoming) && k < |s.fifos| && r <= u
    ensures SentFrom(s, incoming, r, k) <= SentFrom(s, incoming, u, k)
  {
    hide GrantAt, LineAt;
    if r < u {
      SentPrefix(s, incoming, r, u - 1, k);
    }
  }

  /** Every block sum reaches memory: once accumulator i has routed j + 1 blocks, the j-th package that
      leaves the bus through its input, at most (j + 1) * ports cycles later, is the left fold of the
      j-th block of psums that reached it. */
  lemma BlockCollected<D(!new)>(count: nat, lines: nat, ports: nat, n: nat, psums: PsumStreams<D>, add: Addition<D>,
                                i: nat, t: nat, j: nat, b: nat)
    requires lines > 0 && i < count <= ports * lines
    requires b == if n >= 1 then n else 0x1_0000_0000
    requires j < RoutedBy(n, psums(i), add, t) / b
    ensures var w := WireOf(i, lines);
      var f := LineInput(count, lines, ports, n, psums, add, w.bus);
      var all := ReceivedBy(psums(i), t);
      && w.input < ports
      && 0 <= j * b && j * b + b <= |all|
      && j < |SentFrom(EmptyLine(ports), f, t + (j + 1) * ports, w.input)|
      && SentFrom(EmptyLine(ports), f, t + (j + 1) * ports, w.input)[j] == FoldLeft(all[j * b..j * b + b], add)
  {
    hide SentFrom, LineAt, SentBy, LineInput, Waiting, FoldLeft, WireOf, RoutedBy, ReceivedBy;
    var w := WireOf(i, lines);
    BusWaiting(count, lines, ports, n, psums, add, i, t);
    BlockSent(n, psums(i), add, t, j, b);
    var line, f, k := EmptyLine(ports), LineInput(count, lines, ports, n, psums, add, w.bus), w.input;
    SentInTime(line, f, t, k, SentBy(n, psums(i), add, t), j, t + (j + 1) * ports);
  }

  /** The j-th package an accumulator has sent. */
  lemma BlockSent<D(!new)>(n: nat, psums: PsumStream<D>, add: Addition<D>, t: nat, j: nat, b: nat)
    requires b == if n >= 1 then n else 0x1_0000_0000
    requires j < RoutedBy(n, psums, add, t) / b
    ensures var all := ReceivedBy(psums, t);
      && j < |SentBy(n, psums, add, t)| && 0 <= j * b && j * b + b <= |all|
      && SentBy(n, psums, add, t)[j] == FoldLeft(all[j * b..j * b + b], add)
  {
    hide SentBy, AccAt, FoldLeft, ReceivedBy, RoutedBy;
    AccumulationCorrect(n, psums, add, t);
    BlockFits(RoutedBy(n, psums, add, t), b, j);
  }

  /** The j-th package that an input has been given by cycle t, or is given in it, has left (j + 1) * n cycles later. */
  lemma SentInTime<T(!new)>(line: Line<T>, f: BusLine.Arrivals<T>, t: nat, k: nat, all: seq<T>, j: nat, u: nat)
    requires line.Valid() && Fits(|line.fifos|, f) && k < |line.fifos| && j < |all|
    requires u == t + (j + 1) * |line.fifos|
    requires SentFrom(line, f, t, k) + Waiting(line, f, t, k) == all
    ensures j < |SentFrom(line, f, u, k)| && SentFrom(line, f, u, k)[j] == all[j]
  {
    hide SentFrom, LineAt, Waiting;
    var sent, ports := SentFrom(line, f, t, k), |line.fifos|;
    if j < |sent| {
      assert (j + 1) * ports >= 0;
      SentPrefix(line, f, t, u, k);
    } else {
      var q := j - |sent|;
      PackageSent(line, f, t, k, q);
      LaterTurn(q, j, ports);
      SentPrefix(line, f, t + (q + 1) * ports, u, k);
    }
  }

  lemma LaterTurn(q: nat, j: nat, ports: nat)
    requires q <= j
    ensures (q + 1) * ports <= (j + 1) * ports
  {
    if q < j {
      RowFits(q + 1, j + 1, ports);
    }
  }

  // ----- the network and the bus themselves

  class TemporalRN<D> {
    const accumulators: seq<Accumulator<D>>
    const add: Addition<D>
    var outputs: seq<Wire>

    ghost predicate Valid()
      reads this, accumulators
    {
      && (forall i, j :: 0 <= i < j < |accumulators| ==> accumulators[i] != accumulators[j])
      && forall i :: 0 <= i < |accumulators| ==> accumulators[i].Valid() && accumulators[i].add == add
    }

    constructor (size: nat, add: Addition<D>)
      ensures Valid() && |accumulators| == size && this.add == add && outputs == []
      ensures fresh(accumulators)
      ensures forall i :: 0 <= i < size ==> accumulators[i].View() == Fresh(0)
    {
      var accs: seq<Accumulator<D>> := [];
      for i := 0 to size
        invariant |accs| == i && fresh(accs)
        invariant forall j, k :: 0 <= j < k < i ==> accs[j] != accs[k]
        invariant forall k :: 0 <= k < i ==> accs[k].Valid() && accs[k].View() == Fresh(0) && accs[k].add == add
      {
        var a := new Accumulator<D>(add);
        accs := accs + [a];
      }
      accumulators, outputs := accs, [];
      this.add := add;
    }

    /** Every accumulator gets the same block length. */
    method Configure(n: nat)
      requires Valid()
      modifies accumulators
      ensures Valid()
      ensures forall i :: 0 <= i < |accumulators| ==>
        accumulators[i].View() == old(accumulators[i].View()).(nPsums := n)
    {
      for i := 0 to |accumulators|
        invariant Valid()
        invariant forall k :: 0 <= k < |accumulators| ==>
          accumulators[k].View() ==
            if k < i then old(accumulators[k].View()).(nPsums := n) else old(accumulators[k].View())
      {
        accumulators[i].SetNPSums(n);
      }
    }

    /** Every accumulator gets an input of its own, inside the bus. */
    method SetMemoryConnections(lines: nat, ports: nat)
      requires lines > 0 && |accumulators| <= ports * lines
      modifies this`outputs
      ensures |outputs| == |old(outputs)| + |accumulators| && outputs[..|old(outputs)|] == old(outputs)
      ensures old(outputs) == [] ==>
        && (forall i :: 0 <= i < |outputs| ==>
          outputs[i] == WireOf(i, lines) && outputs[i].bus < lines && outputs[i].input < ports)
        && (forall i, j :: 0 <= i < j < |outputs| ==> outputs[i] != outputs[j])
    {
      WiresInRange(|accumulators|, lines, ports);
      ghost var n := |outputs|;
      for i := 0 to |accumulators|
        invariant |outputs| == n + i && outputs[..n] == old(outputs)
        invariant forall k: nat :: k < i ==> outputs[n + k] == WireOf(k, lines)
      {
        outputs := outputs + [Wire(i % lines, i / lines)];
      }
      forall i: nat, j: nat | i < j < |accumulators| ensures WireOf(i, lines) != WireOf(j, lines) {
        WiresDistinct(i, j, lines);
      }
      assert forall k: nat :: k < |accumulators| ==> outputs[n + k] == WireOf(k, lines);
    }

    /** One cycle of every accumulator. */
    method Cycle(incoming: seq<seq<Package<D>>>) returns (sent: seq<seq<Package<D>>>)
      requires Valid() && |incoming| == |accumulators|
      requires forall i :: 0 <= i < |accumulators| ==>
        var s := accumulators[i].View(); s.(input := s.input + incoming[i]).Matches()
      modifies accumulators
      ensures Valid() && |sent| == |accumulators|
      ensures forall i :: 0 <= i < |accumulators| ==>
        (accumulators[i].View(), sent[i]) == AccStep(old(accumulators[i].View()), incoming[i], add)
    {
      hide AccStep, Acc.Matches;
      sent := [];
      for i := 0 to |accumulators|
        invariant Valid() && |sent| == i
        invariant forall k :: i <= k < |accumulators| ==> accumulators[k].View() == old(accumulators[k].View())
        invariant forall k :: 0 <= k < i ==>
          (accumulators[k].View(), sent[k]) == AccStep(old(accumulators[k].View()), incoming[k], add)
      {
        var out := accumulators[i].Cycle(incoming[i]);
        sent := sent + [out];
      }
    }
  }

  class Bus<T> {
    const lines: seq<CollectionBusLine<T>>
    const ports: nat

    ghost predicate Valid()
      reads this, lines
    {
      && (forall i, j :: 0 <= i < j < |lines| ==> lines[i] != lines[j])
      && forall i :: 0 <= i < |lines| ==> lines[i].Valid() && lines[i].ports == ports
    }

    /** Enough inputs for every multiplier, and less than a line's worth to spare. */
    constructor (size: nat, n: nat)
      requires size > 0 && n > 0
      ensures Valid() && |lines| == n && fresh(lines) && ports == Ports(size, n) && size <= ports * n < size + n
      ensures forall i :: 0 <= i < n ==> ports > 0 && lines[i].View() == EmptyLine(ports)
    {
      var p := Ports(size, n);
      assert (p - 1) * n == p * n - n;
      var ls: seq<CollectionBusLine<T>> := [];
      for i := 0 to n
        invariant |ls| == i && fresh(ls)
        invariant forall j, k :: 0 <= j < k < i ==> ls[j] != ls[k]
        invariant forall k :: 0 <= k < i ==> ls[k].Valid() && ls[k].ports == p && ls[k].View() == EmptyLine(p)
      {
        var l := new CollectionBusLine<T>(p);
        ls := ls + [l];
      }
      lines, ports := ls, p;
    }

    /** One cycle of every line. */
    method Cycle(incoming: seq<seq<seq<T>>>) returns (sent: seq<Option<Grant<T>>>)
      requires Valid() && |incoming| == |lines| && forall i :: 0 <= i < |lines| ==> |incoming[i]| == ports
      modifies lines
      ensures Valid() && |sent| == |lines|
      ensures forall i :: 0 <= i < |lines| ==> (lines[i].View(), sent[i]) == Step(old(lines[i].View()), incoming[i])
    {
      hide Step, Sum, Lengths;
      sent := [];
      for i := 0 to |lines|
        invariant Valid() && |sent| == i
        invariant forall k :: i <= k < |lines| ==> lines[k].View() == old(lines[k].View())
        invariant forall k :: 0 <= k < i ==> (lines[k].View(), sent[k]) == Step(old(lines[k].View()), incoming[k])
      {
        var out := lines[i].Cycle(incoming[i]);
        sent := sent + [out];
      }
    }
  }
}
