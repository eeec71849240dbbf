/**
 CompilerART: decides the control signals of every adder by walking, for each VN, from the
 multipliers to the root over two bit vectors.  The dense and the sparse entry point run
 the same pass; a dense tile is a list of equal sizes.
 */
module Compiler {
  import opened Prelude
  import opened Layout
  import opened Tiles
  import opened Signals

  /** Bit j of the working vector of a level when adder a comes up: the children `c`,
      without those already handed over through a link. */
  ghost predicate WorkBit(c: Span, a: nat, j: nat)
    requires c.Valid()
  {
    var p, k := c.Parents(), Keep(c);
    && c.Has(j)
    && !(!k.Has(p.lo) && p.lo < a && j <= 2 * p.lo + 1)
    && !(!k.Has(p.hi) && p.hi <= a && j >= 2 * p.hi)
  }

  /** Adders below this index are settled when adder a comes up. */
  function Settled(a: nat): nat {
    if a >= 2 && a % 2 == 0 then a + 1 else a
  }

  /** The left end of what is left of the children when odd adder a comes up. */
  ghost function WorkLo(c: Span, a: nat): nat
    requires c.Valid()
  {
    var p := c.Parents().lo;
    if !Keep(c).Has(p) && p < a then 2 * p + 2 else c.lo
  }

  /** The spans around the link between adders a and a + 1, and what they decide. */
  lemma PairDecision(c: Span, a: nat)
    requires c.Valid() && a % 2 == 1 && c.Parents().Has(a) && c.Parents().Has(a + 1)
    ensures WorkLo(c, a) <= 2 * a + 1 && 2 * a + 2 <= c.hi
    ensures forall j: nat :: WorkBit(c, a, j) <==> WorkLo(c, a) <= j <= c.hi
    ensures var left, right := 2 * a + 2 - WorkLo(c, a), c.hi - 2 * a - 1;
      if left >= right then
        if WorkBit(c, a, 2 * a + 4) || WorkBit(c, a, 2 * a + 5) then RoleAt(c, a) == RoleAt(c, a + 1) == Plain
        else RoleAt(c, a) == Receiver && RoleAt(c, a + 1) == Sender
      else
        if WorkBit(c, a, 2 * a - 1) || WorkBit(c, a, 2 * a - 2) then RoleAt(c, a) == RoleAt(c, a + 1) == Plain
        else RoleAt(c, a) == Sender && RoleAt(c, a + 1) == Receiver
  {
  }

  /** Where only one end of the link has children, both adders stay as they are. */
  lemma PairOneSided(c: Span, a: nat)
    requires c.Valid() && a % 2 == 1 && !(c.Parents().Has(a) && c.Parents().Has(a + 1))
    ensures WorkBit(c, a, 2 * a) || WorkBit(c, a, 2 * a + 1) <==> c.Parents().Has(a)
    ensures WorkBit(c, a, 2 * a + 2) || WorkBit(c, a, 2 * a + 3) <==> c.Parents().Has(a + 1)
    ensures RoleAt(c, a) == (if c.Parents().Has(a) then Plain else Idle)
    ensures RoleAt(c, a + 1) == (if c.Parents().Has(a + 1) then Plain else Idle)
  {
  }

  /** What handing over through the link of a and a + 1 does to the working vector. */
  lemma PairCleared(c: Span, a: nat, j: nat)
    requires c.Valid() && a % 2 == 1
    ensures WorkBit(c, a + 1, j) <==>
      WorkBit(c, a, j) && !(RoleAt(c, a + 1) == Sender && j >= 2 * a + 2) && !(RoleAt(c, a) == Sender && j <= 2 * a + 1)
  {
  }

  lemma EvenUnchanged(c: Span, a: nat, j: nat)
    requires c.Valid() && a % 2 == 0
    ensures WorkBit(c, a + 1, j) <==> WorkBit(c, a, j)
  {
  }


  /** The first and the last adder of a level only look at their own children. */
  lemma EdgeDecision(c: Span, a: nat, width: nat)
    requires c.Valid() && c.hi < 2 * width && (width == 1 || width % 2 == 0)
    requires a == 0 || a == width - 1
    ensures WorkBit(c, a, 2 * a) || WorkBit(c, a, 2 * a + 1) <==> c.Parents().Has(a)
    ensures RoleAt(c, a) == (if c.Parents().Has(a) then Plain else Idle)
    ensures forall j: nat :: WorkBit(c, a + 1, j) <==> WorkBit(c, a, j)
  {
  }

  lemma KeptByRole(c: Span, n: nat)
    requires c.Valid()
    ensures Keep(c).Has(n) <==> RoleAt(c, n) in {Plain, Receiver}
  {
  }

  class CompilerART {
    var switches: map<Id, AdderConfig>
    var fwLinks: map<Id, FwDirection>
    var toMemory: map<Id, bool>
    var childs: map<Id, (bool, bool)>

    constructor ()
      ensures switches == map[] && fwLinks == map[] && toMemory == map[] && childs == map[]
    {
      switches, fwLinks, toMemory, childs := map[], map[], map[], map[];
    }

    ghost function SignalAt(l: nat, n: nat): Signal
      reads this`switches, this`fwLinks
    {
      Signal(if (l, n) in switches then Some(switches[(l, n)]) else None,
             if (l, n) in fwLinks then Some(fwLinks[(l, n)]) else None)
    }

    /** Number of consecutive bits set from `from` downwards. */
    static method LeftSpan(bits: array<bool>, from: nat) returns (span: nat)
      requires from < bits.Length
      ensures span <= from + 1
      ensures forall j :: from - span < j <= from ==> bits[j]
      ensures span <= from ==> !bits[from - span]
    {
      span := 0;
      var s := from;
      while s >= 0
        invariant -1 <= s <= from && span == from - s
        invariant forall j :: s < j <= from ==> bits[j]
      {
        if bits[s] {
          span := span + 1;
        } else {
          break;
        }
        s := s - 1;
      }
    }

    /** Number of consecutive bits set from `from` upwards. */
    static method RightSpan(bits: array<bool>, from: nat) returns (span: nat)
      requires from <= bits.Length
      ensures from + span <= bits.Length
      ensures forall j :: from <= j < from + span ==> bits[j]
      ensures from + span < bits.Length ==> !bits[from + span]
    {
      span := 0;
      var s := from;
      while s < bits.Length
        invariant from <= s <= bits.Length && span == s - from
        invariant forall j :: from <= j < s ==> bits[j]
      {
        if bits[s] {
          span := span + 1;
        } else {
          break;
        }
        s := s + 1;
      }
    }

    /** Claims a first or last adder, which has no link. */
    method ClaimEdge(l: nat, a: nat)
      requires (l, a) !in fwLinks
      modifies this`switches
      ensures SignalAt(l, a) == Claim(old(SignalAt(l, a)), Plain)
      ensures forall k: nat, n: nat :: (k, n) != (l, a) ==> SignalAt(k, n) == old(SignalAt(k, n))
    {
      if (l, a) in switches {
        switches := switches[(l, a) := Fw22];
      } else {
        switches := switches[(l, a) := Add21];
      }
    }

    /** Claims an adder whose link this VN does not use. */
    method ClaimPlain(l: nat, a: nat, ghost other: nat)
      requires (l, a) in fwLinks ==> (l, other) in fwLinks && fwLinks[(l, other)] == Send
      modifies this`switches
      ensures SignalAt(l, a) == Claim(old(SignalAt(l, a)), Plain)
      ensures forall k: nat, n: nat :: (k, n) != (l, a) ==> SignalAt(k, n) == old(SignalAt(k, n))
    {
      if (l, a) in switches {
        if (l, a) in fwLinks {
          assert fwLinks[(l, other)] == Send;
          switches := switches[(l, a) := Add11PlusFw11];
        } else {
          switches := switches[(l, a) := Fw22];
        }
      } else {
        switches := switches[(l, a) := Add21];
      }
    }

    /** Switches a link on. */
    method ClaimLink(l: nat, receiver: nat, sender: nat)
      requires receiver != sender
      modifies this`switches, this`fwLinks
      ensures SignalAt(l, receiver) == Claim(old(SignalAt(l, receiver)), Receiver)
      ensures SignalAt(l, sender) == Claim(old(SignalAt(l, sender)), Sender)
      ensures forall k: nat, n: nat :: (k, n) != (l, receiver) && (k, n) != (l, sender) ==>
        SignalAt(k, n) == old(SignalAt(k, n))
    {
      fwLinks := fwLinks[(l, receiver) := Receive];
      fwLinks := fwLinks[(l, sender) := Send];
      switches := switches[(l, receiver) := Add31];
      if (l, sender) in switches {
        switches := switches[(l, sender) := Add11PlusFw11];
      } else {
        switches := switches[(l, sender) := Add21];
      }
    }

    /** The spans to the left and to the right of the link between odd adder a and adder a + 1. */
    static method Spans(bits: array<bool>, a: nat, ghost run: Option<Span>) returns (left: nat, right: nat)
      requires 2 * a + 5 < bits.Length
      requires run.Some? ==> run.value.lo <= 2 * a + 1 && 2 * a + 2 <= run.value.hi < bits.Length
      requires run.Some? ==> forall j :: 0 <= j < bits.Length ==> bits[j] == run.value.Has(j)
      ensures left > 0 <==> bits[2 * a] || bits[2 * a + 1]
      ensures right > 0 <==> bits[2 * a + 2] || bits[2 * a + 3]
      ensures run.Some? ==> left == 2 * a + 2 - run.value.lo && right == run.value.hi - 2 * a - 1
    {
      var lastChild := 2 * a + 1;
      var lastEnabled := 2 * a;
      if bits[lastChild] {
        lastEnabled := lastChild;
      }
      left := LeftSpan(bits, lastEnabled);
      var firstEnabled := lastChild + 1;
      if !bits[firstEnabled] {
        firstEnabled := firstEnabled + 1;
      }
      right := RightSpan(bits, firstEnabled);
      if run.Some? {
        assert bits[2 * a + 1] && bits[2 * a + 2];
        assert run.value.lo > 0 ==> !bits[run.value.lo - 1];
        assert run.value.hi + 1 < bits.Length ==> !bits[run.value.hi + 1];
      }
    }

    /** Decides the link between adders a and a + 1, and which of the two the VN keeps. */
    static method PairDecide(bits: array<bool>, parents: array<bool>, a: nat, ghost c: Span)
      returns (left: nat, right: nat, linked: bool, toLeft: bool)
      requires bits != parents && bits.Length == parents.Length && 2 * a + 5 < bits.Length && a % 2 == 1
      requires c.Valid() && c.hi < bits.Length
      requires forall j :: 0 <= j < bits.Length ==> bits[j] == WorkBit(c, a, j)
      modifies bits, parents
      ensures forall j :: 0 <= j < bits.Length ==> bits[j] == WorkBit(c, a + 1, j)
      ensures parents[a] == Keep(c).Has(a) && parents[a + 1] == Keep(c).Has(a + 1)
      ensures forall n :: 0 <= n < parents.Length && n != a && n != a + 1 ==> parents[n] == old(parents[n])
      ensures linked ==>
        if toLeft then RoleAt(c, a) == Receiver && RoleAt(c, a + 1) == Sender
        else RoleAt(c, a) == Sender && RoleAt(c, a + 1) == Receiver
      ensures !linked ==> RoleAt(c, a) == (if left > 0 then Plain else Idle)
      ensures !linked ==> RoleAt(c, a + 1) == (if right > 0 then Plain else Idle)
      ensures left > 0 <==> c.Parents().Has(a)
      ensures right > 0 <==> c.Parents().Has(a + 1)
    {
      hide Keep, RoleAt, WorkBit, WorkLo;
      ghost var both := c.Parents().Has(a) && c.Parents().Has(a + 1);
      KeptByRole(c, a);
      KeptByRole(c, a + 1);
      forall j: nat { PairCleared(c, a, j); }
      ghost var run := if both then Some(Span(WorkLo(c, a), c.hi)) else None;
      if both {
        PairDecision(c, a);
      } else {
        PairOneSided(c, a);
      }
      linked, toLeft := false, true;
      left, right := Spans(bits, a, run);
      if left == 0 || right == 0 {
        parents[a], parents[a + 1] := false, false;
        if left > 0 {
          parents[a] := true;
        }
        if right > 0 {
          parents[a + 1] := true;
        }
      } else {
        toLeft := left >= right;
        if toLeft {
          if bits[2 * a + 4] || bits[2 * a + 5] {
            parents[a], parents[a + 1] := true, true;
          } else {
            linked := true;
            ClearFrom(bits, 2 * a + 2);
            parents[a], parents[a + 1] := true, false;
          }
        } else {
          if bits[2 * a - 1] || bits[2 * a - 2] {
            parents[a], parents[a + 1] := true, true;
          } else {
            linked := true;
            ClearUpTo(bits, 2 * a + 1);
            parents[a + 1], parents[a] := true, false;
          }
        }
      }
    }

    /** Configures the pair of adders a and a + 1 that share a forwarding link. */
    method PairPass(bits: array<bool>, parents: array<bool>, l: nat, a: nat, ghost c: Span)
      requires bits != parents && bits.Length == parents.Length && 2 * a + 5 < bits.Length && a % 2 == 1
      requires c.Valid() && c.hi < bits.Length
      requires forall j :: 0 <= j < bits.Length ==> bits[j] == WorkBit(c, a, j)
      requires c.Parents().Has(a) && (l, a) in fwLinks ==> (l, a + 1) in fwLinks && fwLinks[(l, a + 1)] == Send
      requires c.Parents().Has(a + 1) && (l, a + 1) in fwLinks ==> fwLinks[(l, a + 1)] == Send
      modifies this`switches, this`fwLinks, bits, parents
      ensures forall j :: 0 <= j < bits.Length ==> bits[j] == WorkBit(c, a + 1, j)
      ensures parents[a] == Keep(c).Has(a) && parents[a + 1] == Keep(c).Has(a + 1)
      ensures forall n :: 0 <= n < parents.Length && n != a && n != a + 1 ==> parents[n] == old(parents[n])
      ensures SignalAt(l, a) == Claim(old(SignalAt(l, a)), RoleAt(c, a))
      ensures SignalAt(l, a + 1) == Claim(old(SignalAt(l, a + 1)), RoleAt(c, a + 1))
      ensures forall k: nat, n: nat :: (k, n) != (l, a) && (k, n) != (l, a + 1) ==>
        SignalAt(k, n) == old(SignalAt(k, n))
    {
      hide Keep, RoleAt, WorkBit;
      var left, right, linked, toLeft := PairDecide(bits, parents, a, c);
      if linked {
        if toLeft {
          ClaimLink(l, a, a + 1);
        } else {
          ClaimLink(l, a + 1, a);
        }
      } else {
        if left > 0 {
          ClaimPlain(l, a, a + 1);
        }
        if right > 0 {
          ClaimPlain(l, a + 1, a + 1);
        }
      }
    }

    /** Configures the first or the last adder of a level. */
    method EdgePass(bits: array<bool>, parents: array<bool>, l: nat, a: nat, width: nat, ghost c: Span)
      requires bits != parents && bits.Length == parents.Length && 2 * width <= bits.Length
      requires width == 1 || (width > 0 && width % 2 == 0)
      requires a == 0 || a == width - 1
      requires c.Valid() && c.hi < 2 * width && (l, a) !in fwLinks
      requires forall j :: 0 <= j < bits.Length ==> bits[j] == WorkBit(c, a, j)
      modifies this`switches, parents
      ensures forall j :: 0 <= j < bits.Length ==> bits[j] == WorkBit(c, a + 1, j)
      ensures parents[a] == Keep(c).Has(a)
      ensures forall n :: 0 <= n < parents.Length && n != a ==> parents[n] == old(parents[n])
      ensures SignalAt(l, a) == Claim(old(SignalAt(l, a)), RoleAt(c, a))
      ensures forall k: nat, n: nat :: (k, n) != (l, a) ==> SignalAt(k, n) == old(SignalAt(k, n))
    {
      hide Keep, RoleAt, WorkBit;
      EdgeDecision(c, a, width);
      KeptByRole(c, a);
      if bits[2 * a] || bits[2 * a + 1] {
        parents[a] := true;
        ClaimEdge(l, a);
      } else {
        parents[a] := false;
      }
    }

    static method ClearFrom(bits: array<bool>, from: nat)
      modifies bits
      ensures forall j :: 0 <= j < bits.Length ==> bits[j] == (old(bits[j]) && j < from)
    {
      var s := from;
      while s < bits.Length
        invariant from <= s
        invariant forall j :: 0 <= j < bits.Length ==> bits[j] == (old(bits[j]) && !(from <= j < s))
      {
        bits[s] := false;
        s := s + 1;
      }
    }

    static method ClearUpTo(bits: array<bool>, last: nat)
      requires last < bits.Length
      modifies bits
      ensures forall j :: 0 <= j < bits.Length ==> bits[j] == (old(bits[j]) && j > last)
    {
      var s := 0;
      while s <= last
        invariant s <= last + 1
        invariant forall j :: 0 <= j < bits.Length ==> bits[j] == (old(bits[j]) && j >= s)
      {
        bits[s] := false;
        s := s + 1;
      }
    }

    /** What has to be known of the links earlier VNs switched on, for a VN with children c. */
    ghost predicate LinksBefore(l: nat, width: nat, c: Span)
      reads this`fwLinks
    {
      && (l, 0) !in fwLinks && (l, width - 1) !in fwLinks
      && (forall n: nat :: c.Parents().Has(n) && (l, n) in fwLinks ==> n % 2 == 0 && fwLinks[(l, n)] == Send)
    }

    /** Configures one level for one VN: bits are its children, parents become what it keeps. */
    method LevelPass(bits: array<bool>, parents: array<bool>, l: nat, width: nat, ghost c: Span)
      requires bits != parents && bits.Length == parents.Length && 2 * width <= bits.Length
      requires width == 1 || (width > 0 && width % 2 == 0)
      requires c.Valid() && c.hi < 2 * width && LinksBefore(l, width, c)
      requires forall j :: 0 <= j < bits.Length ==> bits[j] == c.Has(j) && !parents[j]
      modifies this`switches, this`fwLinks, bits, parents
      ensures forall n :: 0 <= n < parents.Length ==> parents[n] == Keep(c).Has(n)
      ensures forall n: nat :: SignalAt(l, n) == Claim(old(SignalAt(l, n)), RoleAt(c, n))
      ensures forall k: nat, n: nat :: k != l ==> SignalAt(k, n) == old(SignalAt(k, n))
    {
      hide Keep, RoleAt, WorkBit, Claim;
      WorkStart(c);
      var a := 0;
      while a < width
        invariant a <= width
        invariant forall j :: 0 <= j < bits.Length ==> bits[j] == WorkBit(c, a, j)
        invariant forall n :: 0 <= n < parents.Length ==> parents[n] == (n < Settled(a) && Keep(c).Has(n))
        invariant forall n: nat ::
          SignalAt(l, n) == if n < Settled(a) then Claim(old(SignalAt(l, n)), RoleAt(c, n)) else old(SignalAt(l, n))
        invariant forall k: nat, n: nat :: k != l ==> SignalAt(k, n) == old(SignalAt(k, n))
      {
        if a == 0 || a == width - 1 {
          assert SignalAt(l, a) == old(SignalAt(l, a));
          EdgePass(bits, parents, l, a, width, c);
          PastEnd(c, width);
        } else if a % 2 == 1 {
          assert SignalAt(l, a) == old(SignalAt(l, a)) && SignalAt(l, a + 1) == old(SignalAt(l, a + 1));
          PairPass(bits, parents, l, a, c);
        } else {
          forall j: nat { EvenUnchanged(c, a, j); }
        }
        a := a + 1;
      }
      PastEnd(c, width);
    }

    /** Starts a VN: its multipliers are set, everything else is clear. */
    static method SetVN(bits: array<bool>, parents: array<bool>, lo: nat, hi: nat)
      requires bits != parents && bits.Length == parents.Length && lo <= hi <= bits.Length
      modifies bits, parents
      ensures forall j :: 0 <= j < bits.Length ==> bits[j] == (lo <= j < hi) && !parents[j]
    {
      var j := 0;
      while j < bits.Length
        invariant j <= bits.Length
        invariant forall k :: 0 <= k < j ==> !bits[k] && !parents[k]
      {
        bits[j], parents[j] := false, false;
        j := j + 1;
      }
      j := lo;
      while j < hi
        invariant lo <= j <= hi
        invariant forall k :: 0 <= k < bits.Length ==> bits[k] == (lo <= k < j) && !parents[k]
      {
        bits[j] := true;
        j := j + 1;
      }
    }

    /** Makes the parents the children of the next level, counting them. */
    static method Promote(bits: array<bool>, parents: array<bool>, ghost k: Span) returns (count: nat, last: nat)
      requires bits != parents && bits.Length == parents.Length && k.Valid() && k.hi < bits.Length
      requires forall j :: 0 <= j < bits.Length ==> parents[j] == k.Has(j)
      modifies bits, parents
      ensures forall j :: 0 <= j < bits.Length ==> bits[j] == k.Has(j) && !parents[j]
      ensures count == k.hi - k.lo + 1 && last == k.hi
    {
      count, last := 0, 0;
      var s := 0;
      while s < bits.Length
        invariant s <= bits.Length
        invariant forall j :: 0 <= j < s ==> bits[j] == k.Has(j) && !parents[j]
        invariant forall j :: s <= j < bits.Length ==> parents[j] == k.Has(j)
        invariant count == if s <= k.lo then 0 else if s <= k.hi then s - k.lo else k.hi - k.lo + 1
        invariant count > 0 ==> last == if s <= k.hi then s - 1 else k.hi
      {
        if parents[s] {
          count := count + 1;
          last := s;
        }
        bits[s] := parents[s];
        parents[s] := false;
        s := s + 1;
      }
    }

    /** The signal and memory maps hold the claims of the first i VNs at level l. */
    ghost predicate LevelDone(t: Tile, i: nat, l: nat)
      requires t.Valid() && i <= |t.sizes| && l < t.levels
      reads this`switches, this`fwLinks, this`toMemory
    {
      forall n: nat ::
        && SignalAt(l, n) == SignalAfter(t, i, l, n)
        && ((l, n) in toMemory <==> MemoryAfter(t, i, l, n))
    }

    ghost predicate AllDone(t: Tile, i: nat)
      requires t.Valid() && i <= |t.sizes|
      reads this`switches, this`fwLinks, this`toMemory
    {
      forall l: nat :: l < t.levels ==> LevelDone(t, i, l)
    }

    /** Claims, for every VN in turn, its adders on every level. */
    method GenerateSignals(t: Tile)
      requires t.Valid()
      requires switches == map[] && fwLinks == map[] && toMemory == map[]
      modifies this`switches, this`fwLinks, this`toMemory
      ensures AllDone(t, |t.sizes|)
      ensures forall id :: id in toMemory ==> toMemory[id]
    {
      hide Keep, RoleAt, Claim;
      var numMs := Pow2(t.levels);
      var bits, parents := new bool[numMs], new bool[numMs];
      var i, shift := 0, 0;
      while i < |t.sizes|
        invariant i <= |t.sizes| && shift == t.Offset(i)
        invariant AllDone(t, i)
        invariant forall id :: id in toMemory ==> toMemory[id]
      {
        OffsetMonotone(t, i, |t.sizes|);
        SumSlice(t.sizes, i);
        OffsetMonotone(t, i + 1, |t.sizes|);
        SetVN(bits, parents, shift, shift + t.sizes[i]);
        VNPass(t, i, bits, parents);
        shift := shift + t.sizes[i];
        i := i + 1;
      }
    }

    /** All levels are done for i VNs, those from level l downwards for one more. */
    ghost predicate Walked(t: Tile, i: nat, l: nat)
      requires t.Valid() && i < |t.sizes|
      reads this`switches, this`fwLinks, this`toMemory
    {
      forall k: nat :: k < t.levels ==> LevelDone(t, Walks(i, l, k), k)
    }

    static ghost function Walks(i: nat, l: nat, k: nat): nat {
      if k < l then i else i + 1
    }

    /** Walks one VN from the multipliers to the root. */
    method VNPass(t: Tile, ghost i: nat, bits: array<bool>, parents: array<bool>)
      requires t.Valid() && i < |t.sizes| && bits != parents && bits.Length == parents.Length == Pow2(t.levels)
      requires forall j :: 0 <= j < bits.Length ==> bits[j] == t.Leaves(i).Has(j) && !parents[j]
      requires AllDone(t, i)
      requires forall id :: id in toMemory ==> toMemory[id]
      modifies this`switches, this`fwLinks, this`toMemory, bits, parents
      ensures AllDone(t, i + 1)
      ensures forall id :: id in toMemory ==> toMemory[id]
    {
      hide Keep, RoleAt, Claim, LevelDone;
      var l: nat, width: nat := t.levels, bits.Length;
      while l > 0
        invariant l <= t.levels && width == Pow2(l)
        invariant forall j :: 0 <= j < bits.Length ==> bits[j] == t.Kept(i, l).Has(j) && !parents[j]
        invariant Walked(t, i, l)
        invariant forall id :: id in toMemory ==> toMemory[id]
      {
        l := l - 1;
        width := width / 2;
        assert LevelDone(t, Walks(i, l + 1, l), l);
        LevelStep(t, i, l, width, bits, parents);
        forall k: nat | k < t.levels
          ensures LevelDone(t, Walks(i, l, k), k)
        {
          assert LevelDone(t, Walks(i, l + 1, k), k) || k == l;
        }
      }
      ghost var i' := i + 1;
      forall k: nat | k < t.levels
        ensures LevelDone(t, i', k)
      {
        assert LevelDone(t, Walks(i, 0, k), k);
      }
    }

    /** One level of the walk. */
    method LevelStep(t: Tile, ghost i: nat, l: nat, width: nat, bits: array<bool>, parents: array<bool>)
      requires t.Valid() && i < |t.sizes| && l < t.levels && width == Pow2(l)
      requires bits != parents && bits.Length == parents.Length == Pow2(t.levels)
      requires forall j :: 0 <= j < bits.Length ==> bits[j] == t.Kept(i, l + 1).Has(j) && !parents[j]
      requires LevelDone(t, i, l)
      requires forall id :: id in toMemory ==> toMemory[id]
      modifies this`switches, this`fwLinks, this`toMemory, bits, parents
      ensures forall j :: 0 <= j < bits.Length ==> bits[j] == t.Kept(i, l).Has(j) && !parents[j]
      ensures LevelDone(t, i + 1, l)
      ensures forall j: nat, k: nat :: j <= |t.sizes| && k < t.levels && k != l && old(LevelDone(t, j, k)) ==>
        LevelDone(t, j, k)
      ensures forall id :: id in toMemory ==> toMemory[id]
    {
      hide Keep, RoleAt, Claim, SignalAfter, MemoryAfter;
      KeptBounds(t, i, l);
      KeptBounds(t, i, l + 1);
      SignalGrows(t, i, l);
      PowerGrows(l, t.levels);
      PowerGrows(l + 1, t.levels);
      LinksKnown(t, i, l);
      assert LinksBefore(l, width, t.Kept(i, l + 1)) by {
        assert SignalAt(l, 0) == SignalAfter(t, i, l, 0) && SignalAt(l, width - 1) == SignalAfter(t, i, l, width - 1);
        forall n: nat | t.Kept(i, l + 1).Parents().Has(n) && (l, n) in fwLinks
          ensures n % 2 == 0 && fwLinks[(l, n)] == Send
        {
          assert SignalAt(l, n) == SignalAfter(t, i, l, n) && t.Cover(i, l).Has(n);
        }
      }
      LevelPass(bits, parents, l, width, t.Kept(i, l + 1));
      var count, last := Promote(bits, parents, t.Kept(i, l));
      if count == 1 {
        toMemory := toMemory[(l, last) := true];
      }
      MemoryGrows(t, i, l);
    }

    /** Whether the child with this id sends to its parent. */
    method ChildSends(id: Id) returns (sends: bool)
      ensures sends == FeedsParent(SignalAt(id.0, id.1))
    {
      sends := false;
      if id in switches {
        var cfg := switches[id];
        if cfg == Add31 || cfg == Add11PlusFw11 || cfg == Fw22 {
          sends := true;
        }
        if cfg == Add21 {
          if id !in fwLinks {
            sends := true;
          }
        }
      }
    }

    /** Whether child c sends to adder (l, c / 2): a used multiplier, or an adder set to send up. */
    ghost predicate Enabled(levels: nat, used: nat, l: nat, c: nat)
      reads this`switches, this`fwLinks
    {
      if l + 1 == levels then c < used else FeedsParent(SignalAt(l + 1, c))
    }

    ghost predicate RowEnabled(levels: nat, used: nat, l: nat, to: nat)
      reads this
    {
      forall n: nat :: n < to ==>
        (l, n) in childs && childs[(l, n)] == (Enabled(levels, used, l, 2 * n), Enabled(levels, used, l, 2 * n + 1))
    }

    /** Enables the inputs of one adder from the signals of its children. */
    method EnableAdder(ghost levels: nat, ghost used: nat, l: nat, n: nat)
      requires l + 1 < levels
      modifies this`childs
      ensures childs == old(childs)[(l, n) := (Enabled(levels, used, l, 2 * n), Enabled(levels, used, l, 2 * n + 1))]
    {
      hide FeedsParent, CompilerART.SignalAt;
      var left := ChildSends((l + 1, 2 * n));
      var right := ChildSends((l + 1, 2 * n + 1));
      childs := childs[(l, n) := (left, right)];
    }

    /** Enables the inputs of one level; the other levels keep theirs. */
    method EnableRow(ghost levels: nat, ghost used: nat, l: nat, width: nat)
      requires l + 1 < levels && width == Pow2(l)
      modifies this`childs
      ensures RowEnabled(levels, used, l, Pow2(l))
      ensures forall k: nat :: l < k < levels && old(RowEnabled(levels, used, k, Pow2(k))) ==>
        RowEnabled(levels, used, k, Pow2(k))
      ensures forall id :: id in childs && id !in old(childs) ==> id.0 == l && id.1 < Pow2(l)
    {
      hide CompilerART.Enabled;
      var n := 0;
      while n < width
        invariant n <= width
        invariant RowEnabled(levels, used, l, n)
        invariant forall id :: id in old(childs) ==> id in childs && (id.0 != l ==> childs[id] == old(childs)[id])
        invariant forall id :: id in childs && id !in old(childs) ==> id.0 == l && id.1 < n
      {
        ghost var before := childs;
        EnableAdder(levels, used, l, n);
        forall m: nat | m < n + 1
          ensures (l, m) in childs
          ensures childs[(l, m)] == (Enabled(levels, used, l, 2 * m), Enabled(levels, used, l, 2 * m + 1))
        {
          if m < n {
            assert childs[(l, m)] == before[(l, m)];
          }
        }
        n := n + 1;
      }
    }

    /** Enables the inputs of every adder that will see data. */
    method EnableLinks(levels: nat, used: nat)
      requires levels >= 1
      modifies this`childs
      ensures forall l: nat :: l < levels ==> RowEnabled(levels, used, l, Pow2(l))
      ensures forall id :: id in childs && id !in old(childs) ==> id.0 < levels && id.1 < Pow2(id.0)
    {
      hide FeedsParent, CompilerART.SignalAt;
      var width := Pow2(levels) / 2;
      var n := 0;
      while n < width
        invariant n <= width
        invariant RowEnabled(levels, used, levels - 1, n)
        invariant forall id :: id in childs && id !in old(childs) ==> id.0 < levels && id.1 < Pow2(id.0)
      {
        childs := childs[(levels - 1, n) := (2 * n < used, 2 * n + 1 < used)];
        n := n + 1;
      }
      var l: nat := levels - 1;
      while l > 0
        invariant l < levels && width == Pow2(l)
        invariant forall k: nat :: l <= k < levels ==> RowEnabled(levels, used, k, Pow2(k))
        invariant forall id :: id in childs && id !in old(childs) ==> id.0 < levels && id.1 < Pow2(id.0)
      {
        l := l - 1;
        width := width / 2;
        EnableRow(levels, used, l, width);
      }
    }

    /** What adder (l, n) is configured with once the four maps are loaded into it. */
    ghost function ConfigAt(l: nat, n: nat): Config
      reads this
    {
      var c := if (l, n) in childs then childs[(l, n)] else (false, false);
      var s := SignalAt(l, n);
      Config(if s.mode.Some? then s.mode.value else Add21, s.fw, c.0, c.1, (l, n) in toMemory && toMemory[(l, n)])
    }

    /** The configuration of adder (l, n); what the maps do not mention keeps its reset value. */
    method Lookup(l: nat, n: nat) returns (cfg: Config)
      ensures cfg == ConfigAt(l, n)
    {
      var mode := if (l, n) in switches then switches[(l, n)] else Add21;
      var fw := if (l, n) in fwLinks then Some(fwLinks[(l, n)]) else None;
      var inputs := if (l, n) in childs then childs[(l, n)] else (false, false);
      cfg := Config(mode, fw, inputs.0, inputs.1, (l, n) in toMemory && toMemory[(l, n)]);
    }

    /** Compiles a tile. */
    method ConfigureSignals(t: Tile)
      requires t.Valid()
      requires switches == map[] && fwLinks == map[] && toMemory == map[]
      modifies this
      ensures forall l: nat, n: nat :: l < t.levels && n < Pow2(l) ==> ConfigAt(l, n) == ConfigOf(t, l, n)
    {
      hide Keep, RoleAt, Claim, SignalAfter;
      GenerateSignals(t);
      EnableLinks(t.levels, t.Used());
      hide CompilerART.SignalAt;
      forall l: nat, n: nat | l < t.levels && n < Pow2(l)
        ensures ConfigAt(l, n) == ConfigOf(t, l, n)
      {
        assert LevelDone(t, |t.sizes|, l) && RowEnabled(t.levels, t.Used(), l, Pow2(l));
        assert l + 1 < t.levels ==> LevelDone(t, |t.sizes|, l + 1);
        assert SignalAt(l, n) == SignalOf(t, l, n);
      }
    }
  }

  lemma {:induction false} PowerGrows(l: nat, k: nat)
    requires l <= k
    ensures Pow2(l) <= Pow2(k)
  {
    if l < k {
      PowerGrows(l, k - 1);
    }
  }

  lemma LinksKnown(t: Tile, i: nat, l: nat)
    requires t.Valid() && i < |t.sizes| && l < t.levels
    ensures SignalAfter(t, i, l, 0).fw == None && SignalAfter(t, i, l, Pow2(l) - 1).fw == None
    ensures forall n: nat :: t.Cover(i, l).Has(n) && SignalAfter(t, i, l, n).fw.Some? ==>
      n % 2 == 0 && SignalAfter(t, i, l, n).fw == Some(Send)
  {
    hide Keep, RoleAt, Claim;
    EdgesUnlinked(t, i, l, 0);
    EdgesUnlinked(t, i, l, Pow2(l) - 1);
    forall n: nat | t.Cover(i, l).Has(n)
      ensures SignalAfter(t, i, l, n).fw.Some? ==> n % 2 == 0 && SignalAfter(t, i, l, n).fw == Some(Send)
    {
      EarlierLinks(t, i, i, l, n);
    }
  }

  lemma SignalGrows(t: Tile, i: nat, l: nat)
    requires t.Valid() && i < |t.sizes| && l < t.levels
    ensures forall n: nat :: SignalAfter(t, i + 1, l, n) == Claim(SignalAfter(t, i, l, n), RoleAt(t.Kept(i, l + 1), n))
  {
    hide Keep, RoleAt, Claim;
  }

  lemma MemoryGrows(t: Tile, i: nat, l: nat)
    requires t.Valid() && i < |t.sizes| && l < t.levels
    ensures forall n: nat :: MemoryAfter(t, i + 1, l, n) <==> MemoryAfter(t, i, l, n) || t.Kept(i, l) == Span(n, n)
  {
    hide Keep, RoleAt, Claim;
  }

  lemma WorkStart(c: Span)
    requires c.Valid()
    ensures forall j: nat :: WorkBit(c, 0, j) <==> c.Has(j)
  {
  }

  /** Beyond the last adder of a level there is nothing to claim. */
  lemma PastEnd(c: Span, width: nat)
    requires c.Valid() && c.hi < 2 * width
    ensures forall n: nat :: n >= width ==> !Keep(c).Has(n) && RoleAt(c, n) == Idle
    ensures forall n: nat, s: Signal :: n >= width ==> Claim(s, RoleAt(c, n)) == s
  {
  }
}
