/**
 Accumulators and collection bus run together: in every cycle the bus first takes what the
 accumulators sent in the cycle before, and then every accumulator makes its own cycle.
 */
module Collection {
  import opened Prelude
  import opened BusLine
  import opened Accumulation
  import opened TemporalNetwork

  /** The shape of a collection: accumulators, bus lines, inputs per line, block length. */
  datatype Shape = Shape(count: nat, lines: nat, ports: nat, n: nat) {
    predicate Valid() {
      lines > 0 && ports > 0 && count <= ports * lines
    }
  }

  ghost function InputsOf<D(!new)>(h: Shape, psums: PsumStreams<D>, add: Addition<D>, bus: nat)
    : (f: BusLine.Arrivals<Package<D>>)
    ensures Fits(h.ports, f)
  {
    LineInput(h.count, h.lines, h.ports, h.n, psums, add, bus)
  }

  /** Every psum an accumulator receives has the VN of the first psum of its block. */
  ghost predicate BlocksMatch<D(!new)>(count: nat, b: nat, psums: PsumStreams<D>)
    requires b >= 1
  {
    forall i: nat, r: nat, j: nat :: i < count && j < |ReceivedBy(psums(i), r)| ==>
      MatchAt(ReceivedBy(psums(i), r), b, j)
  }

  /** The block length an accumulator configured for n psums works with. */
  ghost predicate Blocks(n: nat, b: nat) {
    b == if n >= 1 then n else 0x1_0000_0000
  }

  ghost predicate MatchAt<D>(all: seq<Package<D>>, b: nat, j: nat)
    requires b >= 1 && j < |all|
  {
    0 <= j - j % b <= j && all[j].vn == all[j - j % b].vn
  }

  /** The check of accumulator i holds in cycle r. */
  lemma MatchesInCycle<D(!new)>(h: Shape, b: nat, psums: PsumStreams<D>, add: Addition<D>, i: nat, r: nat)
    requires i < h.count && Blocks(h.n, b) && BlocksMatch(h.count, b, psums)
    ensures var s := AccAt(h.n, psums(i), add, r); s.(input := s.input + psums(i)(r)).Matches()
  {
    hide AccAt, Acc.Matches;
    MatchesExactly(h.n, psums(i), add, r);
    var all, j := ReceivedBy(psums(i), r + 1), RoutedBy(h.n, psums(i), add, r);
    if j < |all| {
      assert MatchAt(all, b, j);
    }
  }

  /** The number of the accumulator wired to input k of line b. */
  function Feeder(h: Shape, b: nat, k: nat): nat {
    k * h.lines + b
  }

  /** It is the one whose wire that is. */
  lemma FeederWire(h: Shape, b: nat, k: nat, i: nat)
    requires h.Valid() && b < h.lines
    ensures Feeder(h, b, k) == i <==> Wire(b, k) == WireOf(i, h.lines)
  {
    WireUnique(Wire(b, k), h.lines);
  }

  /** What each accumulator sent in the cycle before cycle r. */
  ghost predicate SentBefore<D(!new)>(h: Shape, psums: PsumStreams<D>, add: Addition<D>, sent: seq<seq<Package<D>>>,
                                      r: nat) {
    |sent| == h.count && forall i: nat :: i < h.count ==> sent[i] == Offered(h.count, h.n, psums, add, i, r)
  }

  /** Puts what every accumulator sent on the bus input it is wired to. */
  method Offer<D>(sent: seq<seq<Package<D>>>, outputs: seq<Wire>, h: Shape)
    returns (incoming: seq<seq<seq<Package<D>>>>)
    requires h.Valid() && |sent| == |outputs| == h.count
    requires forall i :: 0 <= i < h.count ==> outputs[i] == WireOf(i, h.lines) && outputs[i].input < h.ports
    ensures |incoming| == h.lines && forall b :: 0 <= b < h.lines ==> |incoming[b]| == h.ports
    ensures forall b: nat, k: nat :: b < h.lines && k < h.ports ==>
      incoming[b][k] == if Feeder(h, b, k) < h.count then sent[Feeder(h, b, k)] else []
  {
    hide Feeder, WireOf;
    incoming := seq(h.lines, _ => seq(h.ports, _ => []));
    for i := 0 to h.count
      invariant |incoming| == h.lines && forall b :: 0 <= b < h.lines ==> |incoming[b]| == h.ports
      invariant forall b: nat, k: nat :: b < h.lines && k < h.ports ==>
        incoming[b][k] == if Feeder(h, b, k) < i then sent[Feeder(h, b, k)] else []
    {
      var w := outputs[i];
      ghost var before := incoming;
      incoming := incoming[w.bus := incoming[w.bus][w.input := sent[i]]];
      forall b: nat, k: nat | b < h.lines && k < h.ports
        ensures incoming[b][k] == if Feeder(h, b, k) < i + 1 then sent[Feeder(h, b, k)] else []
      {
        FeederWire(h, b, k, i);
        assert incoming[b][k] == if Wire(b, k) == w then sent[i] else before[b][k];
      }
    }
  }

  /** The lines after r cycles, and what has left each of their inputs. */
  ghost predicate LineAfter<D(!new)>(h: Shape, psums: PsumStreams<D>, add: Addition<D>, line: Line<Package<D>>,
                                     out: seq<seq<Package<D>>>, b: nat, r: nat)
    requires h.Valid()
  {
    && line == LineAt(EmptyLine(h.ports), InputsOf(h, psums, add, b), r)
    && |out| == h.ports
    && (forall k: nat :: k < h.ports ==> out[k] == SentFrom(EmptyLine(h.ports), InputsOf(h, psums, add, b), r, k))
  }

  /** What has left the line once it has granted g. */
  function Collected<T>(out: seq<seq<T>>, g: Option<Grant<T>>): seq<seq<T>>
    requires g.Some? ==> g.value.input < |out|
  {
    if g.Some? then out[g.value.input := out[g.value.input] + [g.value.pkg]] else out
  }

  lemma LineStep<D(!new)>(h: Shape, psums: PsumStreams<D>, add: Addition<D>, line: Line<Package<D>>,
                          out: seq<seq<Package<D>>>, incoming: seq<seq<Package<D>>>, b: nat, r: nat)
    requires h.Valid() && LineAfter(h, psums, add, line, out, b, r)
    requires incoming == InputsOf(h, psums, add, b)(r)
    ensures line.Valid() && |incoming| == |line.fifos|
    ensures var (line', g) := BusLine.Step(line, incoming);
      (g.Some? ==> g.value.input < |out|) && LineAfter(h, psums, add, line', Collected(out, g), b, r + 1)
  {
    hide InputsOf, LineInput;
    var start, f := EmptyLine<Package<D>>(h.ports), InputsOf(h, psums, add, b);
    assert LineAt(start, f, r + 1) == BusLine.Step(LineAt(start, f, r), f(r)).0;
    assert GrantAt(start, f, r) == BusLine.Step(LineAt(start, f, r), f(r)).1;
  }

  /** What the accumulators offer is what the model's lines are given. */
  lemma OfferedIs<D(!new)>(h: Shape, psums: PsumStreams<D>, add: Addition<D>, sent: seq<seq<Package<D>>>,
                           incoming: seq<seq<Package<D>>>, b: nat, r: nat)
    requires h.Valid() && b < h.lines && SentBefore(h, psums, add, sent, r) && |incoming| == h.ports
    requires forall k: nat :: k < h.ports ==>
      incoming[k] == if Feeder(h, b, k) < h.count then sent[Feeder(h, b, k)] else []
    ensures incoming == InputsOf(h, psums, add, b)(r)
  {
    hide SentIn;
    var f := InputsOf(h, psums, add, b);
    forall k: nat | k < h.ports
      ensures incoming[k] == f(r)[k]
    {
      assert f(r)[k] == Offered(h.count, h.n, psums, add, k * h.lines + b, r);
    }
  }

  // ----- what has been collected

  /** What has left the bus through the input of accumulator i is a prefix of what i has sent, and holds the
      fold of every block of b that was complete early enough. */
  ghost predicate CollectedFrom<D(!new)>(h: Shape, b: nat, psums: PsumStreams<D>, add: Addition<D>,
                                         out: seq<Package<D>>, i: nat, r: nat)
    requires b >= 1
  {
    && out <= SentBy(h.n, psums(i), add, r)
    && (forall t: nat, j: nat :: InTime(h, b, psums, add, i, t, j, r) ==> FoldAt(b, psums, add, out, i, t, j))
  }

  /** Block j of accumulator i was complete after t cycles, and the bus has had (j + 1) * ports cycles since. */
  ghost predicate InTime<D(!new)>(h: Shape, b: nat, psums: PsumStreams<D>, add: Addition<D>, i: nat, t: nat, j: nat,
                                  r: nat)
    requires b >= 1
  {
    j < RoutedBy(h.n, psums(i), add, t) / b && t + (j + 1) * h.ports <= r
  }

  /** The j-th package out is the left fold of the j-th block of b psums that accumulator i had received by t. */
  ghost predicate FoldAt<D(!new)>(b: nat, psums: PsumStreams<D>, add: Addition<D>, out: seq<Package<D>>, i: nat,
                                  t: nat, j: nat)
    requires b >= 1
  {
    var all := ReceivedBy(psums(i), t);
    j < |out| && 0 <= j * b && j * b + b <= |all| && out[j] == FoldLeft(all[j * b..j * b + b], add)
  }

  lemma PrefixSent<D(!new)>(h: Shape, psums: PsumStreams<D>, add: Addition<D>, i: nat, r: nat)
    requires h.Valid() && i < h.count
    ensures var w := WireOf(i, h.lines);
      && w.input < h.ports
      && SentFrom(EmptyLine(h.ports), InputsOf(h, psums, add, w.bus), r, w.input) <= SentBy(h.n, psums(i), add, r)
  {
    hide SentFrom, LineAt, SentBy, LineInput, Waiting;
    BusWaiting(h.count, h.lines, h.ports, h.n, psums, add, i, r);
  }

  /** What the model's bus has sent for accumulator i is as promised. */
  lemma CollectedRight<D(!new)>(h: Shape, b: nat, psums: PsumStreams<D>, add: Addition<D>, i: nat, r: nat)
    requires h.Valid() && i < h.count && b == if h.n >= 1 then h.n else 0x1_0000_0000
    ensures var w := WireOf(i, h.lines);
      && w.input < h.ports
      && CollectedFrom(h, b, psums, add, SentFrom(EmptyLine(h.ports), InputsOf(h, psums, add, w.bus), r, w.input), i, r)
  {
    hide SentFrom, LineAt, SentBy, RoutedBy, FoldLeft, LineInput;
    PrefixSent(h, psums, add, i, r);
    var w := WireOf(i, h.lines);
    var f := InputsOf(h, psums, add, w.bus);
    var out := SentFrom(EmptyLine(h.ports), f, r, w.input);
    forall t: nat, j: nat | InTime(h, b, psums, add, i, t, j, r)
      ensures FoldAt(b, psums, add, out, i, t, j)
    {
      BlockCollected(h.count, h.lines, h.ports, h.n, psums, add, i, t, j, b);
      SentPrefix(EmptyLine(h.ports), f, t + (j + 1) * h.ports, r, w.input);
    }
  }

  // ----- the objects

  /** The accumulators and the bus are where the model is after r cycles. */
  ghost predicate Together<D(!new)>(h: Shape, psums: PsumStreams<D>, add: Addition<D>, rn: TemporalRN<D>,
                                    bus: Bus<Package<D>>, sent: seq<seq<Package<D>>>,
                                      memory: seq<seq<seq<Package<D>>>>, r: nat)
    requires h.Valid()
    reads rn, rn.accumulators, bus, bus.lines
  {
    AccsAfter(h, psums, add, rn, sent, r) && BusAfter(h, psums, add, bus, memory, r)
  }

  ghost predicate AccsAfter<D(!new)>(h: Shape, psums: PsumStreams<D>, add: Addition<D>, rn: TemporalRN<D>,
                                     sent: seq<seq<Package<D>>>, r: nat)
    reads rn, rn.accumulators
  {
    && rn.Valid() && |rn.accumulators| == h.count && rn.add == add
    && (forall i: nat :: i < h.count ==> rn.accumulators[i].View() == AccAt(h.n, psums(i), add, r))
    && SentBefore(h, psums, add, sent, r)
  }

  ghost predicate BusAfter<D(!new)>(h: Shape, psums: PsumStreams<D>, add: Addition<D>, bus: Bus<Package<D>>,
                                    memory: seq<seq<seq<Package<D>>>>, r: nat)
    requires h.Valid()
    reads bus, bus.lines
  {
    && bus.Valid() && |bus.lines| == |memory| == h.lines && bus.ports == h.ports
    && (forall b: nat :: b < h.lines ==> LineAfter(h, psums, add, bus.lines[b].View(), memory[b], b, r))
  }

  /** The bus takes what the accumulators sent in the cycle before, and its grants go to memory. */
  method BusRound<D(!new)>(h: Shape, bus: Bus<Package<D>>, outputs: seq<Wire>, sent: seq<seq<Package<D>>>,
                           memory: seq<seq<seq<Package<D>>>>, ghost psums: PsumStreams<D>, ghost add: Addition<D>,
                             ghost r: nat)
    returns (memory': seq<seq<seq<Package<D>>>>)
    requires h.Valid() && BusAfter(h, psums, add, bus, memory, r) && SentBefore(h, psums, add, sent, r)
    requires |outputs| == h.count && forall i :: 0 <= i < h.count ==>
      outputs[i] == WireOf(i, h.lines) && outputs[i].input < h.ports
    modifies bus.lines
    ensures BusAfter(h, psums, add, bus, memory', r + 1)
  {
    hide SentIn, LineAfter, InputsOf, BusLine.Step, SentFrom, LineAt;
    var incoming := Offer(sent, outputs, h);
    forall b: nat | b < h.lines
      ensures incoming[b] == InputsOf(h, psums, add, b)(r)
      ensures bus.lines[b].View().Valid() && |incoming[b]| == |bus.lines[b].View().fifos|
      ensures var (line', g) := BusLine.Step(bus.lines[b].View(), incoming[b]);
        (g.Some? ==> g.value.input < |memory[b]|) && LineAfter(h, psums, add, line', Collected(memory[b], g), b, r + 1)
    {
      OfferedIs(h, psums, add, sent, incoming[b], b, r);
      LineStep(h, psums, add, bus.lines[b].View(), memory[b], incoming[b], b, r);
    }
    var grants := bus.Cycle(incoming);
    memory' := seq(h.lines, b requires 0 <= b < h.lines => Collected(memory[b], grants[b]));
  }

  /** Every accumulator makes its cycle. */
  method AccRound<D(!new)>(h: Shape, ghost b: nat, rn: TemporalRN<D>, psums: PsumStreams<D>, ghost add: Addition<D>,
                           r: nat, ghost last: seq<seq<Package<D>>>)
    returns (sent: seq<seq<Package<D>>>)
    requires AccsAfter(h, psums, add, rn, last, r) && Blocks(h.n, b) && BlocksMatch(h.count, b, psums)
    modifies rn.accumulators
    ensures AccsAfter(h, psums, add, rn, sent, r + 1) && rn.outputs == old(rn.outputs)
  {
    hide AccStep, Acc.Matches, BlocksMatch;
    var incoming := seq(h.count, i requires 0 <= i < h.count => psums(i)(r));
    forall i: nat | i < h.count
      ensures var s := AccAt(h.n, psums(i), add, r); s.(input := s.input + psums(i)(r)).Matches()
    {
      MatchesInCycle(h, b, psums, add, i, r);
    }
    sent := rn.Cycle(incoming);
  }

  ghost predicate WiredTo(outputs: seq<Wire>, h: Shape)
    requires h.Valid()
  {
    |outputs| == h.count && forall i :: 0 <= i < h.count ==>
      outputs[i] == WireOf(i, h.lines) && outputs[i].input < h.ports
  }

  lemma ShapeValid(count: nat, lines: nat, n: nat)
    requires count > 0 && lines > 0
    ensures Shape(count, lines, Ports(count, lines), n).Valid()
  {
  }

  /** New accumulators, configured and wired to a bus of that shape. */
  method NewAccumulators<D(!new)>(h: Shape, ghost psums: PsumStreams<D>, add: Addition<D>)
    returns (rn: TemporalRN<D>, sent: seq<seq<Package<D>>>)
    requires h.Valid()
    ensures AccsAfter(h, psums, add, rn, sent, 0) && WiredTo(rn.outputs, h)
    ensures fresh(rn) && fresh(rn.accumulators)
  {
    hide Accumulator.Valid, WireOf;
    rn := new TemporalRN<D>(h.count, add);
    rn.Configure(h.n);
    rn.SetMemoryConnections(h.lines, h.ports);
    sent := seq(h.count, _ => []);
  }

  /** A new bus, and nothing collected from it yet. */
  method NewBus<D(!new)>(h: Shape, ghost psums: PsumStreams<D>, ghost add: Addition<D>)
    returns (bus: Bus<Package<D>>, memory: seq<seq<seq<Package<D>>>>)
    requires h.count > 0 && h.lines > 0 && h.ports == Ports(h.count, h.lines) && h.Valid()
    ensures BusAfter(h, psums, add, bus, memory, 0) && fresh(bus) && fresh(bus.lines)
  {
    hide Ports, InputsOf, CollectionBusLine.Valid;
    bus := new Bus<Package<D>>(h.count, h.lines);
    memory := seq(h.lines, _ => seq(h.ports, _ => []));
  }

  /** One cycle of both: the bus first, then the accumulators. */
  method Round<D(!new)>(h: Shape, ghost b: nat, rn: TemporalRN<D>, bus: Bus<Package<D>>, sent: seq<seq<Package<D>>>,
                        memory: seq<seq<seq<Package<D>>>>, psums: PsumStreams<D>, ghost add: Addition<D>, r: nat)
    returns (sent': seq<seq<Package<D>>>, memory': seq<seq<seq<Package<D>>>>)
    requires h.Valid() && Together(h, psums, add, rn, bus, sent, memory, r) && WiredTo(rn.outputs, h)
      && Blocks(h.n, b) && BlocksMatch(h.count, b, psums)
    modifies bus.lines, rn.accumulators
    ensures Together(h, psums, add, rn, bus, sent', memory', r + 1) && rn.outputs == old(rn.outputs)
  {
    hide BlocksMatch, LineAfter;
    memory' := BusRound(h, bus, rn.outputs, sent, memory, psums, add, r);
    sent' := AccRound(h, b, rn, psums, add, r, sent);
  }

  lemma CollectedAt<D(!new)>(h: Shape, b: nat, psums: PsumStreams<D>, add: Addition<D>, line: Line<Package<D>>,
                             out: seq<seq<Package<D>>>, i: nat, r: nat)
    requires h.Valid() && i < h.count && LineAfter(h, psums, add, line, out, WireOf(i, h.lines).bus, r)
    requires b == if h.n >= 1 then h.n else 0x1_0000_0000
    ensures var w := WireOf(i, h.lines); w.input < |out| && CollectedFrom(h, b, psums, add, out[w.input], i, r)
  {
    hide SentFrom, LineAt, CollectedFrom, InputsOf;
    CollectedRight(h, b, psums, add, i, r);
  }

  lemma AllCollected<D(!new)>(h: Shape, b: nat, psums: PsumStreams<D>, add: Addition<D>, bus: Bus<Package<D>>,
                              memory: seq<seq<seq<Package<D>>>>, r: nat)
    requires h.Valid() && BusAfter(h, psums, add, bus, memory, r) && b == if h.n >= 1 then h.n else 0x1_0000_0000
    ensures |memory| == h.lines
    ensures forall i: nat :: i < h.count ==>
      var w := WireOf(i, h.lines);
      w.input < |memory[w.bus]| && CollectedFrom(h, b, psums, add, memory[w.bus][w.input], i, r)
  {
    hide LineAfter, CollectedFrom, WireOf;
    forall i: nat | i < h.count
      ensures var w := WireOf(i, h.lines);
        w.input < |memory[w.bus]| && CollectedFrom(h, b, psums, add, memory[w.bus][w.input], i, r)
    {
      var l := WireOf(i, h.lines).bus;
      CollectedAt(h, b, psums, add, bus.lines[l].View(), memory[l], i, r);
    }
  }

  /** Builds accumulators and bus, wires them, and runs them together for any number of cycles: what has
      then left the bus for each accumulator is as promised. */
  method Collect<D(!new)>(count: nat, lines: nat, n: nat, psums: PsumStreams<D>, add: Addition<D>, cycles: nat)
    returns (memory: seq<seq<seq<Package<D>>>>)
    requires count > 0 && lines > 0
    requires BlocksMatch(count, if n >= 1 then n else 0x1_0000_0000, psums)
    ensures |memory| == lines
    ensures forall i: nat :: i < count ==>
      var w, h := WireOf(i, lines), Shape(count, lines, Ports(count, lines), n);
      && w.input < |memory[w.bus]|
      && (n >= 1 ==> CollectedFrom(h, n, psums, add, memory[w.bus][w.input], i, cycles))
      && (n == 0 ==> CollectedFrom(h, 0x1_0000_0000, psums, add, memory[w.bus][w.input], i, cycles))
  {
    hide BlocksMatch, LineAfter, AccsAfter, BusAfter, Ports, CollectedFrom, WireOf, WiredTo;
    var h := Shape(count, lines, Ports(count, lines), n);
    ghost var b := if n >= 1 then n else 0x1_0000_0000;
    ShapeValid(count, lines, n);
    var rn, sent := NewAccumulators(h, psums, add);
    var bus;
    bus, memory := NewBus(h, psums, add);
    var r := 0;
    while r < cycles
      invariant r <= cycles && Together(h, psums, add, rn, bus, sent, memory, r) && WiredTo(rn.outputs, h)
      invariant fresh(rn.accumulators) && fresh(bus.lines)
    {
      sent, memory := Round(h, b, rn, bus, sent, memory, psums, add, r);
      r := r + 1;
    }
    AllCollected(h, b, psums, add, bus, memory, cycles);
  }
}
