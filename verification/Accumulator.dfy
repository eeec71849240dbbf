/**
 Temporal accumulation: an accumulator folds every block of n psums that reach it into one package.
 The data and its addition are parameters, so nothing here needs the addition to be associative.
 */
module Accumulation {
  import opened Prelude
  import opened Arithmetic

  type Addition<!D> = (D, D) -> D

  /** How many psums make a block: the last one has number n - 1, computed on 32 bits. */
  function BlockLength(n: nat): (b: nat)
    ensures b >= 1
  {
    if n == 0 then 0x1_0000_0000 else n
  }

  datatype Acc<D> = Acc(nPsums: nat, input: seq<Package<D>>, register: Option<Package<D>>, current: nat,
                        nReads: nat, nWrites: nat, nAdds: nat) {
    predicate Valid() {
      current > 0 ==> register.Some?
    }

    /** The assertion of the addition: both operands belong to one VN. */
    predicate Matches()
      requires Valid()
    {
      input != [] && current > 0 ==> register.value.vn == input[0].vn
    }
  }

  function Fresh<D>(n: nat): Acc<D> {
    Acc(n, [], None, 0, 0, 0, 0)
  }

  /** One psum moved from the input FIFO into the register, and out when it completes a block. */
  function Absorb<D>(s: Acc<D>, add: Addition<D>): (r: (Acc<D>, seq<Package<D>>))
    requires s.Valid()
    ensures r.0.Valid() && r.0.nPsums == s.nPsums
  {
    if s.input == [] then (s, [])
    else
      var p := s.input[0];
      var first := s.current == 0;
      var v := if first then p else Package(s.register.value.vn, add(s.register.value.data, p.data));
      var last := s.current == BlockLength(s.nPsums) - 1;
      var k := if first then 0 else 1;
      (Acc(s.nPsums, s.input[1..], Some(v), if last then 0 else s.current + 1,
           s.nReads + k, s.nWrites + 1, s.nAdds + k),
       if last then [v] else [])
  }

  /** One cycle: what is pending is taken in, and one psum is routed. */
  function AccStep<D>(s: Acc<D>, incoming: seq<Package<D>>, add: Addition<D>): (r: (Acc<D>, seq<Package<D>>))
    requires s.Valid()
    ensures r.0.Valid() && r.0.nPsums == s.nPsums
  {
    Absorb(s.(input := s.input + incoming), add)
  }

  // ----- what an accumulator is for

  /** The left fold of a block. */
  function FoldLeft<D>(s: seq<Package<D>>, add: Addition<D>): (p: Package<D>)
    requires s != []
    ensures p.vn == s[0].vn
  {
    var last := |s| - 1;
    if last == 0 then s[0] else Package(FoldLeft(s[..last], add).vn, add(FoldLeft(s[..last], add).data, s[last].data))
  }

  /** The j-th block of b psums. */
  function Block<D>(s: seq<Package<D>>, b: nat, j: nat): (r: seq<Package<D>>)
    requires b >= 1 && j < |s| / b
    ensures |r| == b
  {
    BlockFits(|s|, b, j);
    s[j * b..j * b + b]
  }

  /** out: the folds of all the complete blocks of s, in order. */
  ghost predicate AreBlockSums<D>(out: seq<Package<D>>, s: seq<Package<D>>, b: nat, add: Addition<D>)
    requires b >= 1
  {
    |out| == |s| / b && forall j: nat :: j < |out| ==> out[j] == FoldLeft(Block(s, b, j), add)
  }

  function BlocksStarted(m: nat, b: nat): nat
    requires b >= 1
  {
    m / b + if m % b == 0 then 0 else 1
  }

  /** The state of an accumulator that has routed the psums of h. */
  ghost predicate Accounts<D>(s: Acc<D>, h: seq<Package<D>>, add: Addition<D>) {
    var b := BlockLength(s.nPsums);
    && s.current == |h| % b
    && (s.current > 0 ==> s.register == Some(FoldLeft(h[|h| - s.current..], add)))
    && s.nWrites == |h|
    && s.nReads == s.nAdds
    && s.nWrites == s.nAdds + BlocksStarted(|h|, b)
  }

  lemma FoldNext<D>(h: seq<Package<D>>, p: Package<D>, n: nat, add: Addition<D>)
    requires 0 < n <= |h|
    ensures var f := FoldLeft(h[|h| - n..], add);
      FoldLeft((h + [p])[|h| - n..], add) == Package(f.vn, add(f.data, p.data))
  {
    var t := (h + [p])[|h| - n..];
    assert t == h[|h| - n..] + [p] && t[..n] == h[|h| - n..];
  }

  lemma FoldOne<D>(p: Package<D>, add: Addition<D>)
    ensures FoldLeft([p], add) == p
  {
  }

  /** Folding a block from its other end: the first two psums are added first. */
  lemma {:induction false} FoldFront<D>(s: seq<Package<D>>, add: Addition<D>)
    requires |s| >= 2
    ensures FoldLeft(s, add) == FoldLeft([Package(s[0].vn, add(s[0].data, s[1].data))] + s[2..], add)
  {
    var last := |s| - 1;
    var t := [Package(s[0].vn, add(s[0].data, s[1].data))] + s[2..];
    if last == 1 {
      assert s[..last] == [s[0]] && t == [Package(s[0].vn, add(s[0].data, s[1].data))];
    } else {
      FoldFront(s[..last], add);
      assert t[..last - 1] == [t[0]] + s[..last][2..];
    }
  }

  /** The first psum of a block starts one. */
  lemma StartedNext(m: nat, b: nat)
    requires b >= 1
    ensures BlocksStarted(m + 1, b) == BlocksStarted(m, b) + if m % b == 0 then 1 else 0
  {
    NextInBlock(m, b);
  }

  /** Routing one psum keeps the account. */
  lemma AbsorbAccounts<D>(s: Acc<D>, h: seq<Package<D>>, add: Addition<D>)
    requires s.Valid() && s.input != [] && Accounts(s, h, add)
    ensures var (s', out) := Absorb(s, add);
      var b := BlockLength(s.nPsums);
      && Accounts(s', h + [s.input[0]], add)
      && (if |h| % b == b - 1 then out == [FoldLeft((h + [s.input[0]])[|h| + 1 - b..], add)] else out == [])
  {
    hide FoldLeft, BlocksStarted, BlockLength;
    var b, p := BlockLength(s.nPsums), s.input[0];
    NextInBlock(|h|, b);
    StartedNext(|h|, b);
    if s.current > 0 {
      FoldNext(h, p, s.current, add);
    } else {
      assert (h + [p])[|h|..] == [p];
      FoldOne(p, add);
    }
  }

  /** One more psum gives one more block sum when it ends a block, and none otherwise. */
  lemma BlockSumsNext<D>(out: seq<Package<D>>, h: seq<Package<D>>, p: Package<D>, b: nat, add: Addition<D>,
                         more: seq<Package<D>>)
    requires b >= 1 && AreBlockSums(out, h, b, add)
    requires if |h| % b == b - 1 then more == [FoldLeft((h + [p])[|h| + 1 - b..], add)] else more == []
    ensures AreBlockSums(out + more, h + [p], b, add)
  {
    hide FoldLeft;
    var all := h + [p];
    NextInBlock(|h|, b);
    forall j: nat | j < |out + more| ensures (out + more)[j] == FoldLeft(Block(all, b, j), add) {
      if j < |out| {
        BlockKept(h, p, b, j);
      } else {
        LastBlock(all, b);
      }
    }
  }

  lemma BlockKept<D>(h: seq<Package<D>>, p: Package<D>, b: nat, j: nat)
    requires b >= 1 && j < |h| / b
    ensures j < |h + [p]| / b && Block(h + [p], b, j) == Block(h, b, j)
  {
    NextInBlock(|h|, b);
    BlockFits(|h|, b, j);
  }

  lemma LastBlock<D>(s: seq<Package<D>>, b: nat)
    requires b >= 1 && |s| >= b && |s| % b == 0
    ensures |s| / b >= 1 && Block(s, b, |s| / b - 1) == s[|s| - b..]
  {
    var q := |s| / b;
    assert |s| == q * b;
    if q == 0 {
      assert false;
    }
    assert (q - 1) * b == q * b - b;
  }

  // ----- whole runs

  /** psums(t): what is pending at the input in cycle t. */
  type PsumStream<!D> = nat -> seq<Package<D>>

  ghost function ReceivedBy<D(!new)>(psums: PsumStream<D>, t: nat): seq<Package<D>> {
    if t == 0 then [] else ReceivedBy(psums, t - 1) + psums(t - 1)
  }

  /** The accumulator after t cycles. */
  ghost function AccAt<D(!new)>(n: nat, psums: PsumStream<D>, add: Addition<D>, t: nat): (s: Acc<D>)
    ensures s.Valid() && s.nPsums == n
  {
    if t == 0 then Fresh(n) else AccStep(AccAt(n, psums, add, t - 1), psums(t - 1), add).0
  }

  /** What it sends in cycle t. */
  ghost function SentIn<D(!new)>(n: nat, psums: PsumStream<D>, add: Addition<D>, t: nat): seq<Package<D>> {
    AccStep(AccAt(n, psums, add, t), psums(t), add).1
  }

  ghost function SentBy<D(!new)>(n: nat, psums: PsumStream<D>, add: Addition<D>, t: nat): seq<Package<D>> {
    if t == 0 then [] else SentBy(n, psums, add, t - 1) + SentIn(n, psums, add, t - 1)
  }

  /** How many psums it has routed in t cycles: those no longer in the FIFO. */
  ghost function RoutedBy<D(!new)>(n: nat, psums: PsumStream<D>, add: Addition<D>, t: nat): int {
    |ReceivedBy(psums, t)| - |AccAt(n, psums, add, t).input|
  }

  ghost predicate Accumulates<D(!new)>(n: nat, psums: PsumStream<D>, add: Addition<D>, t: nat) {
    var s, all, m := AccAt(n, psums, add, t), ReceivedBy(psums, t), RoutedBy(n, psums, add, t);
    && 0 <= m <= |all|
    && s.input == all[m..]
    && Accounts(s, all[..m], add)
    && AreBlockSums(SentBy(n, psums, add, t), all[..m], BlockLength(n), add)
  }

  /** The account does not speak of the FIFO. */
  lemma InputApart<D>(s: Acc<D>, h: seq<Package<D>>, more: seq<Package<D>>, add: Addition<D>)
    requires Accounts(s, h, add)
    ensures Accounts(s.(input := s.input + more), h, add)
  {
  }

  lemma RouteCycle<D>(s: Acc<D>, all: seq<Package<D>>, m: nat, more: seq<Package<D>>, out: seq<Package<D>>,
                      add: Addition<D>)
    requires s.Valid() && m <= |all| && s.input == all[m..]
    requires Accounts(s, all[..m], add) && AreBlockSums(out, all[..m], BlockLength(s.nPsums), add)
    ensures var (s', o) := AccStep(s, more, add);
      var all', m' := all + more, if m < |all + more| then m + 1 else m;
      && s'.input == all'[m'..]
      && Accounts(s', all'[..m'], add)
      && AreBlockSums(out + o, all'[..m'], BlockLength(s.nPsums), add)
  {
    hide AreBlockSums, Accounts, Absorb;
    var t := s.(input := s.input + more);
    var all' := all + more;
    NextInput(s, all, m, more);
    InputApart(s, all[..m], more, add);
    assert all'[..m] == all[..m];
    if m < |all'| {
      var p := t.input[0];
      AbsorbAccounts(t, all[..m], add);
      AbsorbTakes(t, add);
      assert all'[..m + 1] == all[..m] + [p];
      BlockSumsNext(out, all[..m], p, BlockLength(s.nPsums), add, Absorb(t, add).1);
    } else {
      AbsorbIdle(t, add);
      assert out + [] == out;
    }
  }

  lemma AbsorbTakes<D>(s: Acc<D>, add: Addition<D>)
    requires s.Valid() && s.input != []
    ensures Absorb(s, add).0.input == s.input[1..]
  {
  }

  lemma AbsorbIdle<D>(s: Acc<D>, add: Addition<D>)
    requires s.Valid() && s.input == []
    ensures Absorb(s, add) == (s, [])
  {
  }

  /** The invariant of every run. */
  lemma {:induction false} AccumulationHolds<D(!new)>(n: nat, psums: PsumStream<D>, add: Addition<D>, t: nat)
    ensures Accumulates(n, psums, add, t)
  {
    hide AreBlockSums, Accounts, AccStep;
    if t == 0 {
      NothingRouted(n, psums, add);
    } else {
      AccumulationHolds(n, psums, add, t - 1);
      RouteCycle(AccAt(n, psums, add, t - 1), ReceivedBy(psums, t - 1), RoutedBy(n, psums, add, t - 1), psums(t - 1),
                 SentBy(n, psums, add, t - 1), add);
    }
  }

  lemma NothingRouted<D(!new)>(n: nat, psums: PsumStream<D>, add: Addition<D>)
    ensures Accumulates(n, psums, add, 0)
  {
    QuotientOf(0, BlockLength(n), 0, 0);
    var none: seq<Package<D>> := [];
    assert ReceivedBy(psums, 0)[..0] == none;
  }

  /** An accumulator has folded blocks of b: m of all psums being routed, it has sent m / b packages, the j-th
      the left fold of psums j * b to j * b + b - 1, it is at place m % b of the open block, and it has written
      its register once per addition and once per block started. */
  ghost predicate BlocksFolded<D>(b: nat, s: Acc<D>, out: seq<Package<D>>, all: seq<Package<D>>, m: int,
                                  add: Addition<D>)
    requires b >= 1
  {
    && 0 <= m <= |all| && s.input == all[m..]
    && |out| == m / b && s.current == m % b
    && (forall j: nat :: j < |out| ==> j * b + b <= m && out[j] == FoldLeft(all[j * b..j * b + b], add))
    && s.nWrites == m && s.nReads == s.nAdds
    && s.nWrites == s.nAdds + m / b + if m % b == 0 then 0 else 1
  }

  /** So it is after t cycles, when configured for n psums. */
  ghost predicate FoldsBlocks<D(!new)>(b: nat, n: nat, psums: PsumStream<D>, add: Addition<D>, t: nat)
    requires b >= 1
  {
    BlocksFolded(b, AccAt(n, psums, add, t), SentBy(n, psums, add, t), ReceivedBy(psums, t),
                 RoutedBy(n, psums, add, t), add)
  }

  /** Temporal accumulation: at every moment of every run, whatever the arrival pattern, an accumulator
      configured for n psums has folded blocks of n; configured for none, n - 1 wraps around on 32 bits. */
  lemma AccumulationCorrect<D(!new)>(n: nat, psums: PsumStream<D>, add: Addition<D>, t: nat)
    ensures n >= 1 ==> FoldsBlocks(n, n, psums, add, t)
    ensures n == 0 ==> FoldsBlocks(0x1_0000_0000, n, psums, add, t)
  {
    hide AccAt, SentBy, FoldLeft, ReceivedBy, RoutedBy, AreBlockSums, Accounts, BlocksFolded;
    AccumulationHolds(n, psums, add, t);
    FoldsAre(BlockLength(n), AccAt(n, psums, add, t), SentBy(n, psums, add, t), ReceivedBy(psums, t),
             RoutedBy(n, psums, add, t), add);
  }

  lemma FoldsAre<D>(b: nat, s: Acc<D>, out: seq<Package<D>>, all: seq<Package<D>>, m: nat, add: Addition<D>)
    requires m <= |all| && s.input == all[m..] && b == BlockLength(s.nPsums)
    requires Accounts(s, all[..m], add) && AreBlockSums(out, all[..m], b, add)
    ensures BlocksFolded(b, s, out, all, m, add)
  {
    hide FoldLeft, BlockLength, Block;
    forall j: nat | j < |out|
      ensures j * b + b <= m && out[j] == FoldLeft(all[j * b..j * b + b], add)
    {
      BlockSlice(all, m, b, j);
    }
  }

  lemma BlockSlice<D>(all: seq<Package<D>>, m: nat, b: nat, j: nat)
    requires b >= 1 && m <= |all| && j < m / b
    ensures 0 <= j * b && j * b + b <= m && Block(all[..m], b, j) == all[j * b..j * b + b]
  {
    BlockFits(m, b, j);
  }

  /** A cycle routes one psum whenever one is waiting. */
  lemma RoutesOne<D(!new)>(n: nat, psums: PsumStream<D>, add: Addition<D>, t: nat)
    ensures var m := RoutedBy(n, psums, add, t);
      RoutedBy(n, psums, add, t + 1) == if m < |ReceivedBy(psums, t + 1)| then m + 1 else m
  {
  }

  /** Nothing waits longer than the psums before it: what had arrived after t cycles is routed as many
      cycles later as there were psums waiting. */
  lemma {:induction false} AllRouted<D(!new)>(n: nat, psums: PsumStream<D>, add: Addition<D>, t: nat, d: nat)
    requires d >= |AccAt(n, psums, add, t).input|
    ensures RoutedBy(n, psums, add, t + d) >= |ReceivedBy(psums, t)|
  {
    RoutedAfter(n, psums, add, t, d);
  }

  lemma {:induction false} RoutedAfter<D(!new)>(n: nat, psums: PsumStream<D>, add: Addition<D>, t: nat, d: nat)
    ensures |ReceivedBy(psums, t)| <= |ReceivedBy(psums, t + d)|
    ensures var m, all := RoutedBy(n, psums, add, t) + d, |ReceivedBy(psums, t)|;
      RoutedBy(n, psums, add, t + d) >= if m < all then m else all
  {
    hide AccAt, RoutedBy;
    if d > 0 {
      RoutedAfter(n, psums, add, t, d - 1);
      RoutesOne(n, psums, add, t + d - 1);
    } else {
      AccumulationHolds(n, psums, add, t);
    }
  }

  lemma NextInput<D>(s: Acc<D>, all: seq<Package<D>>, i: nat, more: seq<Package<D>>)
    requires i <= |all| && s.input == all[i..]
    ensures s.input + more == (all + more)[i..]
  {
  }

  /** The assertion of the addition holds in the cycle that routes psum i exactly when that psum has the
      VN of the first psum of its block. */
  lemma MatchesExactly<D(!new)>(n: nat, psums: PsumStream<D>, add: Addition<D>, t: nat)
    ensures var s := AccAt(n, psums, add, t);
      var all, i, b := ReceivedBy(psums, t + 1), RoutedBy(n, psums, add, t), if n >= 1 then n else 0x1_0000_0000;
      && 0 <= i <= |all|
      && (s.(input := s.input + psums(t)).Matches() <==> (i < |all| ==> all[i].vn == all[i - i % b].vn))
  {
    hide AreBlockSums, AccAt, Accounts;
    AccumulationHolds(n, psums, add, t);
    MatchesHere(AccAt(n, psums, add, t), ReceivedBy(psums, t), RoutedBy(n, psums, add, t), psums(t), add);
  }

  lemma MatchesHere<D>(s: Acc<D>, all: seq<Package<D>>, i: nat, more: seq<Package<D>>, add: Addition<D>)
    requires s.Valid() && i <= |all| && s.input == all[i..] && Accounts(s, all[..i], add)
    ensures var b, all' := BlockLength(s.nPsums), all + more;
      s.(input := s.input + more).Matches() <==> (i < |all'| ==> all'[i].vn == all'[i - i % b].vn)
  {
    NextInput(s, all, i, more);
    var n := s.current;
    assert n > 0 ==> s.register.value.vn == all[..i][i - n..][0].vn;
  }

  // ----- the accumulator itself

  class Accumulator<D> {
    const add: Addition<D>
    var nPsums: nat
    var current: nat
    var register: Option<Package<D>>
    var input: seq<Package<D>>
    var output: seq<Package<D>>
    var nReads: nat
    var nWrites: nat
    var nAdds: nat
    var memorySends: nat

    ghost predicate Valid()
      reads this
    {
      View().Valid() && output == []
    }

    ghost function View(): Acc<D>
      reads this
    {
      Acc(nPsums, input, register, current, nReads, nWrites, nAdds)
    }

    constructor (add: Addition<D>)
      ensures Valid() && View() == Fresh(0) && memorySends == 0 && this.add == add
    {
      this.add := add;
      nPsums, current, register := 0, 0, None;
      input, output := [], [];
      nReads, nWrites, nAdds, memorySends := 0, 0, 0, 0;
    }

    method SetNPSums(n: nat)
      requires Valid()
      modifies this`nPsums
      ensures Valid() && View() == old(View()).(nPsums := n)
      ensures old(View()) == Fresh(0) ==> View() == Fresh(n)
    {
      nPsums := n;
    }

    /** The block under way is abandoned; what waits in the FIFO stays. */
    method ResetSignals()
      requires Valid()
      modifies this`nPsums, this`current
      ensures Valid() && View() == old(View()).(nPsums := 0, current := 0)
    {
      nPsums, current := 0, 0;
    }

    method Receive(incoming: seq<Package<D>>)
      modifies this`input
      ensures input == old(input) + incoming
    {
      for i := 0 to |incoming|
        invariant input == old(input) + incoming[..i]
      {
        input := input + [incoming[i]];
      }
    }

    method RoutePsum()
      requires View().Valid() && View().Matches()
      modifies this`current, this`register, this`input, this`output, this`nReads, this`nWrites, this`nAdds
      ensures View() == Absorb(old(View()), add).0 && output == old(output) + Absorb(old(View()), add).1
      ensures old(input) != [] ==>
        if old(current) == (if nPsums >= 1 then nPsums - 1 else 0xFFFF_FFFF)
        then current == 0 && register.Some? && output == old(output) + [register.value]
        else current == old(current) + 1 && output == old(output)
      ensures old(input) != [] ==>
        var p := old(input)[0];
        register == Some(if old(current) == 0 then p else
                           Package(old(register).value.vn, add(old(register).value.data, p.data)))
    {
      if input != [] {
        var p := input[0];
        input := input[1..];
        if current == 0 {
          register := Some(p);
          nWrites := nWrites + 1;
        } else {
          var sum := Package(register.value.vn, add(register.value.data, p.data));
          nAdds := nAdds + 1;
          nReads := nReads + 1;
          register := Some(sum);
          nWrites := nWrites + 1;
        }
        if current == (if nPsums == 0 then 0xFFFF_FFFF else nPsums - 1) {
          output := output + [register.value];
          current := 0;
        } else {
          current := current + 1;
        }
      }
    }

    method Send() returns (sent: seq<Package<D>>)
      modifies this`output, this`memorySends
      ensures output == [] && sent == old(output)
      ensures memorySends == old(memorySends) + if old(output) == [] then 0 else 1
    {
      sent := [];
      if output != [] {
        while output != []
          invariant sent + output == old(output) && memorySends == old(memorySends)
          decreases |output|
        {
          sent := sent + [output[0]];
          output := output[1..];
        }
        assert sent + output == sent;
        memorySends := memorySends + 1;
      }
    }

    /** One cycle, as long as the VNs match. */
    method Cycle(incoming: seq<Package<D>>) returns (sent: seq<Package<D>>)
      requires Valid() && View().(input := input + incoming).Matches()
      modifies this
      ensures Valid() && (View(), sent) == AccStep(old(View()), incoming, add)
      ensures memorySends == old(memorySends) + |sent|
    {
      Receive(incoming);
      RoutePsum();
      sent := Send();
      assert sent == Absorb(old(View()).(input := old(input) + incoming), add).1;
    }
  }
}
