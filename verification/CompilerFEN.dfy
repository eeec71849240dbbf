/**
 CompilerFEN: the pass of CompilerART, stopped for each VN at the adder that completes it,
 plus the choice of a fold node for that VN.
 */
module FoldCompiler {
  import opened Prelude
  import opened Layout
  import opened Tiles
  import opened Exclusivity
  import opened Signals
  import opened Configured
  import opened Runs
  import opened FoldNodes
  import opened Compiler

  /** The signals of (l, n) once VN i has walked up to the adder that completes it. */
  ghost function Walked(t: Tile, s: Signal, i: nat, l: nat, n: nat): Signal
    requires t.Valid() && i < |t.sizes| && l < t.levels
  {
    if t.Active(i, l) then Claim(s, t.RoleOf(i, l, n)) else s
  }

  /** The signals of (l, n) after the first i VNs and their fold nodes. */
  ghost function FenSignalAfter(t: Tile, i: nat, l: nat, n: nat): Signal
    requires t.Valid() && i <= |t.sizes| && l < t.levels
  {
    if i == 0 then BLANK
    else
      var s := Walked(t, FenSignalAfter(t, i - 1, l, n), i - 1, l, n);
      if FoldOf(t, i - 1) == (l, n) then s.(mode := Some(Fold)) else s
  }

  /** The adders that complete one of the first k VNs, and the fold nodes of the first k VNs. */
  ghost predicate CompletesOne(t: Tile, k: nat, id: Id)
    requires t.Valid() && k <= |t.sizes|
  {
    exists j :: 0 <= j < k && id == (Finish(t, j), FinishAdder(t, j))
  }

  ghost predicate FoldsOne(t: Tile, k: nat, id: Id)
    requires t.Valid() && k <= |t.sizes|
  {
    exists j :: 0 <= j < k && id == FoldOf(t, j)
  }

  /** What a switch of the fold network is configured with. */
  datatype FenConfig = FenConfig(adder: Config, toFold: bool)

  ghost predicate FenChildEnabled(t: Tile, l: nat, c: nat)
    requires t.Valid() && l < t.levels
  {
    if l == t.levels - 1 then c < t.Used() else FeedsParent(FenSignalAfter(t, |t.sizes|, l + 1, c))
  }

  ghost function FenConfigOf(t: Tile, l: nat, n: nat): FenConfig
    requires t.Valid() && l < t.levels
  {
    var s := FenSignalAfter(t, |t.sizes|, l, n);
    FenConfig(Config(if s.mode.Some? then s.mode.value else Add21, s.fw, FenChildEnabled(t, l, 2 * n),
                     FenChildEnabled(t, l, 2 * n + 1), FoldsOne(t, |t.sizes|, (l, n))),
              CompletesOne(t, |t.sizes|, (l, n)))
  }

  /** Only the VN's own claim touches a link, and only while the VN is running. */
  lemma FenLinkNext(t: Tile, k: nat, l: nat, n: nat)
    requires t.Valid() && 0 < k <= |t.sizes| && l < t.levels
    ensures var before, after := FenSignalAfter(t, k - 1, l, n), FenSignalAfter(t, k, l, n);
      after.fw == if t.Active(k - 1, l) then Claim(before, t.RoleOf(k - 1, l, n)).fw else before.fw
  {
    hide Keep, RoleAt, Claim, FoldOf;
  }

  lemma {:induction false} FenEarlierLinks(t: Tile, i: nat, k: nat, l: nat, n: nat)
    requires t.Valid() && k <= i < |t.sizes| && l < t.levels && t.Cover(i, l).Has(n)
    ensures var fw := FenSignalAfter(t, k, l, n).fw; fw.Some? ==> fw == Some(Send) && n % 2 == 0
  {
    hide Keep, RoleAt;
    if k > 0 {
      FenLinkNext(t, k, l, n);
      FenEarlierLinks(t, i, k - 1, l, n);
      EarlierRole(t, i, k - 1, l, n);
      hide FenSignalAfter;
    }
  }

  lemma {:induction false} FenEdgesUnlinked(t: Tile, i: nat, l: nat, n: nat)
    requires t.Valid() && i <= |t.sizes| && l < t.levels && (n == 0 || n == Pow2(l) - 1)
    ensures FenSignalAfter(t, i, l, n).fw == None
  {
    hide Keep, RoleAt;
    if i > 0 {
      FenEdgesUnlinked(t, i - 1, l, n);
      KeptBounds(t, i - 1, l);
      EdgeRole(t.Kept(i - 1, l + 1), n, Pow2(l));
    }
  }

  // ----- what the final signals mean

  /** Adders that carry data are configured exactly as in the plain reduction tree. */
  lemma {:induction false} UsedAsInTree(t: Tile, j: nat, l: nat, n: nat, k: nat)
    requires t.Valid() && Foldable(t) && l < t.levels && Uses(t, j, l, n) && k <= |t.sizes|
    ensures FenSignalAfter(t, k, l, n) == SignalAfter(t, k, l, n)
  {
    hide Keep, RoleAt, Claim, FoldNode, FinishFrom;
    if k > 0 {
      UsedAsInTree(t, j, l, n, k - 1);
      FoldNodesUnused(t, k - 1, j);
      if !t.Active(k - 1, l) {
        CoverExclusive(t, j, k - 1, l, n);
        IdleClaim(t.Kept(k - 1, l + 1), n, SignalAfter(t, k - 1, l, n));
      }
    }
  }

  lemma IdleClaim(c: Span, n: nat, s: Signal)
    requires c.Valid() && !c.Parents().Has(n)
    ensures Claim(s, RoleAt(c, n)) == s
  {
  }

  /** A fold node, once chosen, is never given another configuration. */
  lemma {:induction false} FoldKept(t: Tile, i: nat, k: nat)
    requires t.Valid() && Foldable(t) && i < k <= |t.sizes| && FoldOf(t, i).0 < t.levels
    ensures FenSignalAfter(t, k, FoldOf(t, i).0, FoldOf(t, i).1).mode == Some(Fold)
  {
    hide Keep, RoleAt, Claim, FoldNode, FinishFrom;
    if i < k - 1 {
      var id := FoldOf(t, i);
      FoldKept(t, i, k - 1);
      FoldNodesUnused(t, i, k - 1);
      if t.Active(k - 1, id.0) {
        IdleClaim(t.Kept(k - 1, id.0 + 1), id.1, FenSignalAfter(t, k - 1, id.0, id.1));
      }
    }
  }

  /** No switch both writes to memory as a fold node and hands its sum to one. */
  lemma FoldFlagsDisjoint(t: Tile, i: nat, j: nat)
    requires t.Valid() && Foldable(t) && i < |t.sizes| && j < |t.sizes|
    ensures FoldOf(t, i) != (Finish(t, j), FinishAdder(t, j))
  {
    hide Keep, RoleAt, FoldNode, FinishFrom;
    FoldNodesUnused(t, i, j);
    KeptRole(t.Kept(j, Finish(t, j) + 1), FinishAdder(t, j));
  }

  class CompilerFEN {
    const pass: CompilerART
    var toFold: map<Id, bool>
    var toMemory: map<Id, bool>

    constructor ()
      ensures fresh(pass) && pass.switches == map[] && pass.fwLinks == map[] && pass.childs == map[]
      ensures toFold == map[] && toMemory == map[]
    {
      pass := new CompilerART();
      toFold, toMemory := map[], map[];
    }

    ghost predicate LevelAt(t: Tile, i: nat, l: nat)
      requires t.Valid() && i <= |t.sizes| && l < t.levels
      reads pass`switches, pass`fwLinks
    {
      forall n: nat :: pass.SignalAt(l, n) == FenSignalAfter(t, i, l, n)
    }

    ghost predicate LevelWalked(t: Tile, i: nat, l: nat)
      requires t.Valid() && i < |t.sizes| && l < t.levels
      reads pass`switches, pass`fwLinks
    {
      forall n: nat :: pass.SignalAt(l, n) == Walked(t, FenSignalAfter(t, i, l, n), i, l, n)
    }

    /** One level of a VN that is not complete yet. */
    method LevelStep(t: Tile, ghost i: nat, l: nat, width: nat, bits: array<bool>, parents: array<bool>)
      returns (count: nat, last: nat)
      requires t.Valid() && i < |t.sizes| && l < t.levels && t.Active(i, l) && width == Pow2(l)
      requires bits != parents && bits.Length == parents.Length == Pow2(t.levels)
      requires forall j :: 0 <= j < bits.Length ==> bits[j] == t.Kept(i, l + 1).Has(j) && !parents[j]
      requires LevelAt(t, i, l)
      modifies pass`switches, pass`fwLinks, bits, parents
      ensures forall j :: 0 <= j < bits.Length ==> bits[j] == t.Kept(i, l).Has(j) && !parents[j]
      ensures count == t.Kept(i, l).hi - t.Kept(i, l).lo + 1 && last == t.Kept(i, l).hi
      ensures LevelWalked(t, i, l)
      ensures forall k: nat :: k < t.levels && k != l && old(LevelAt(t, i, k)) ==> LevelAt(t, i, k)
      ensures forall k: nat :: k < t.levels && k != l && old(LevelWalked(t, i, k)) ==> LevelWalked(t, i, k)
    {
      hide Keep, RoleAt, Claim, FenSignalAfter;
      KeptBounds(t, i, l);
      KeptBounds(t, i, l + 1);
      PowerGrows(l, t.levels);
      PowerGrows(l + 1, t.levels);
      assert pass.LinksBefore(l, width, t.Kept(i, l + 1)) by {
        FenEdgesUnlinked(t, i, l, 0);
        FenEdgesUnlinked(t, i, l, Pow2(l) - 1);
        assert pass.SignalAt(l, 0) == FenSignalAfter(t, i, l, 0);
        assert pass.SignalAt(l, width - 1) == FenSignalAfter(t, i, l, width - 1);
        forall n: nat | t.Kept(i, l + 1).Parents().Has(n) && (l, n) in pass.fwLinks
          ensures n % 2 == 0 && pass.fwLinks[(l, n)] == Send
        {
          FenEarlierLinks(t, i, i, l, n);
          assert pass.SignalAt(l, n) == FenSignalAfter(t, i, l, n);
        }
      }
      pass.LevelPass(bits, parents, l, width, t.Kept(i, l + 1));
      count, last := CompilerART.Promote(bits, parents, t.Kept(i, l));
    }

    /** Levels from l downwards are walked by VN i, the others are as before it. */
    ghost predicate WalkedFrom(t: Tile, i: nat, l: nat)
      requires t.Valid() && i < |t.sizes|
      reads pass`switches, pass`fwLinks
    {
      && (forall k: nat :: k < t.levels && k < l ==> LevelAt(t, i, k))
      && (forall k: nat :: l <= k < t.levels ==> LevelWalked(t, i, k))
    }

    /** Climbs from the multipliers to the adder that completes VN i. */
    method Climb(t: Tile, ghost i: nat, bits: array<bool>, parents: array<bool>) returns (l: nat, last: nat)
      requires t.Valid() && i < |t.sizes|
      requires bits != parents && bits.Length == parents.Length == Pow2(t.levels)
      requires forall j :: 0 <= j < bits.Length ==> bits[j] == t.Leaves(i).Has(j) && !parents[j]
      requires WalkedFrom(t, i, t.levels)
      modifies pass`switches, pass`fwLinks, bits, parents
      ensures l < t.levels && t.Completes(i, l, last) && last < Pow2(l)
      ensures WalkedFrom(t, i, l)
    {
      hide Keep, RoleAt, Claim, FenSignalAfter, CompilerFEN.LevelAt, CompilerFEN.LevelWalked;
      l, last := t.levels, 0;
      var width := bits.Length;
      while true
        invariant 0 < l <= t.levels && width == Pow2(l) && t.Active(i, l - 1)
        invariant forall j :: 0 <= j < bits.Length ==> bits[j] == t.Kept(i, l).Has(j) && !parents[j]
        invariant WalkedFrom(t, i, l)
        decreases l
      {
        l := l - 1;
        width := width / 2;
        KeptBounds(t, i, l);
        var count: nat;
        count, last := LevelStep(t, i, l, width, bits, parents);
        if count == 1 {
          break;
        }
      }
    }

    ghost predicate AllAt(t: Tile, i: nat)
      requires t.Valid() && i <= |t.sizes|
      reads pass`switches, pass`fwLinks
    {
      forall l: nat :: l < t.levels ==> LevelAt(t, i, l)
    }

    /** Gives VN i its fold node. */
    method ChooseFold(t: Tile, ghost i: nat, target: Id)
      requires t.Valid() && i < |t.sizes| && target == FoldOf(t, i)
      requires forall k: nat :: k < t.levels ==> LevelWalked(t, i, k)
      modifies pass`switches
      ensures AllAt(t, i + 1)
    {
      hide Keep, RoleAt, Claim, FoldNode, FinishFrom, Walked;
      ghost var i' := i + 1;
      pass.switches := pass.switches[target := Fold];
      forall k: nat | k < t.levels
        ensures LevelAt(t, i', k)
      {
        assert old(LevelWalked(t, i, k));
        forall n: nat
          ensures pass.SignalAt(k, n) == FenSignalAfter(t, i', k, n)
        {
          assert old(pass.SignalAt(k, n)) == Walked(t, FenSignalAfter(t, i, k, n), i, k, n);
        }
      }
    }

    /** Configures VN i: its adders, and the fold node its sums go to. */
    method VNPass(t: Tile, ghost i: nat, bits: array<bool>, parents: array<bool>)
      requires t.Valid() && i < |t.sizes|
      requires bits != parents && bits.Length == parents.Length == Pow2(t.levels)
      requires forall j :: 0 <= j < bits.Length ==> bits[j] == t.Leaves(i).Has(j) && !parents[j]
      requires AllAt(t, i)
      modifies this`toFold, this`toMemory, pass`switches, pass`fwLinks, bits, parents
      ensures AllAt(t, i + 1)
      ensures toFold == old(toFold)[(Finish(t, i), FinishAdder(t, i)) := true]
      ensures toMemory == old(toMemory)[FoldOf(t, i) := true]
    {
      hide Keep, RoleAt, Claim, FoldNode, FinishFrom, CompilerFEN.LevelAt, CompilerFEN.LevelWalked;
      var l, last := Climb(t, i, bits, parents);
      FinishUnique(t, i, l, last);
      var target := CompilerTarget(l, last);
      AllWalked(t, i, l);
      toFold := toFold[(l, last) := true];
      toMemory := toMemory[target := true];
      ChooseFold(t, i, target);
    }

    lemma AllWalked(t: Tile, i: nat, l: nat)
      requires t.Valid() && i < |t.sizes| && l == Finish(t, i) && WalkedFrom(t, i, l)
      ensures forall k: nat :: k < t.levels ==> LevelWalked(t, i, k)
    {
      hide Keep, RoleAt, Claim, FoldNode, FinishFrom, FenSignalAfter;
      forall k: nat | k < l
        ensures LevelWalked(t, i, k)
      {
        ActiveBelowFinish(t, i, k);
        assert LevelAt(t, i, k);
      }
    }

    /** The flag maps hold what the first i VNs ask for. */
    static ghost predicate Flags(t: Tile, i: nat, toFold: map<Id, bool>, toMemory: map<Id, bool>)
      requires t.Valid() && i <= |t.sizes|
    {
      && (forall id :: id in toFold && toFold[id] <==> CompletesOne(t, i, id))
      && (forall id :: id in toMemory && toMemory[id] <==> FoldsOne(t, i, id))
    }

    static lemma FlagsGrow(t: Tile, i: nat, toFold: map<Id, bool>, toMemory: map<Id, bool>)
      requires t.Valid() && i < |t.sizes| && Flags(t, i, toFold, toMemory)
      ensures Flags(t, i + 1, toFold[(Finish(t, i), FinishAdder(t, i)) := true], toMemory[FoldOf(t, i) := true])
    {
      hide Keep, RoleAt, FoldNode, FinishFrom, FoldOf;
    }

    /** Configures every VN in turn. */
    method GenerateSignals(t: Tile)
      requires t.Valid() && pass.switches == map[] && pass.fwLinks == map[] && toFold == map[] && toMemory == map[]
      modifies this, pass`switches, pass`fwLinks
      ensures AllAt(t, |t.sizes|) && Flags(t, |t.sizes|, toFold, toMemory)
    {
      hide Keep, RoleAt, Claim, FoldNode, FinishFrom;
      var numMs := Pow2(t.levels);
      var bits, parents := new bool[numMs], new bool[numMs];
      var i, shift := 0, 0;
      assert AllAt(t, 0) && Flags(t, 0, toFold, toMemory);
      hide CompilerFEN.AllAt, CompilerFEN.Flags;
      while i < |t.sizes|
        invariant i <= |t.sizes| && shift == t.Offset(i)
        invariant AllAt(t, i) && Flags(t, i, toFold, toMemory)
      {
        OffsetMonotone(t, i, |t.sizes|);
        SumSlice(t.sizes, i);
        OffsetMonotone(t, i + 1, |t.sizes|);
        CompilerART.SetVN(bits, parents, shift, shift + t.sizes[i]);
        FlagsGrow(t, i, toFold, toMemory);
        VNPass(t, i, bits, parents);
        shift := shift + t.sizes[i];
        i := i + 1;
      }
    }

    /** What switch (l, n) is configured with once the five maps are loaded into it. */
    ghost function ConfigAt(l: nat, n: nat): FenConfig
      reads this, pass
    {
      FenConfig(pass.ConfigAt(l, n).(memory := (l, n) in toMemory && toMemory[(l, n)]),
                (l, n) in toFold && toFold[(l, n)])
    }

    /** The configuration of switch (l, n); what the maps do not mention keeps its reset value. */
    method Lookup(l: nat, n: nat) returns (cfg: FenConfig)
      ensures cfg == ConfigAt(l, n)
    {
      var adder := pass.Lookup(l, n);
      cfg := FenConfig(adder.(memory := (l, n) in toMemory && toMemory[(l, n)]), (l, n) in toFold && toFold[(l, n)]);
    }

    /** Compiles a tile for the fold network. */
    method ConfigureSignals(t: Tile)
      requires t.Valid() && pass.switches == map[] && pass.fwLinks == map[] && pass.childs == map[]
      requires toFold == map[] && toMemory == map[]
      modifies this, pass
      ensures forall l: nat, n: nat :: l < t.levels && n < Pow2(l) ==> ConfigAt(l, n) == FenConfigOf(t, l, n)
      ensures ConfigAt(SPECIAL.0, SPECIAL.1) == FenConfigOf(t, SPECIAL.0, SPECIAL.1)
    {
      hide CompilerFEN.AllAt, CompilerFEN.Flags, CompilerFEN.ConfigAt, FenConfigOf, CompilerART.RowEnabled;
      GenerateSignals(t);
      pass.EnableLinks(t.levels, t.Used());
      forall l: nat, n: nat | l < t.levels && n < Pow2(l)
        ensures ConfigAt(l, n) == FenConfigOf(t, l, n)
      {
        ConfigDone(t, l, n);
      }
      SpecialDone(t);
    }

    lemma ConfigDone(t: Tile, l: nat, n: nat)
      requires t.Valid() && l < t.levels && n < Pow2(l)
      requires AllAt(t, |t.sizes|) && Flags(t, |t.sizes|, toFold, toMemory)
      requires pass.RowEnabled(t.levels, t.Used(), l, Pow2(l))
      ensures ConfigAt(l, n) == FenConfigOf(t, l, n)
    {
      hide Keep, RoleAt, FoldNode, FinishFrom, FenSignalAfter, CompletesOne, FoldsOne, CompilerART.SignalAt;
      assert LevelAt(t, |t.sizes|, l);
      assert l + 1 < t.levels ==> LevelAt(t, |t.sizes|, l + 1);
      assert pass.SignalAt(l, n) == FenSignalAfter(t, |t.sizes|, l, n);
    }

    lemma SpecialDone(t: Tile)
      requires t.Valid() && AllAt(t, |t.sizes|) && Flags(t, |t.sizes|, toFold, toMemory) && SPECIAL !in pass.childs
      ensures ConfigAt(SPECIAL.0, SPECIAL.1) == FenConfigOf(t, SPECIAL.0, SPECIAL.1)
    {
      hide Keep, RoleAt, FoldNode, FinishFrom, FenSignalAfter, CompletesOne, FoldsOne, CompilerART.SignalAt;
      assert LevelAt(t, |t.sizes|, 0);
      assert pass.SignalAt(0, 1) == FenSignalAfter(t, |t.sizes|, 0, 1);
      SpecialChildless(t);
    }
  }

  /** Beyond the last adder of a level nothing is ever configured, but for the extra switch. */
  lemma {:induction false} OutsideBlank(t: Tile, k: nat, l: nat, n: nat)
    requires t.Valid() && k <= |t.sizes| && l < t.levels && n >= Pow2(l) && (l, n) != SPECIAL
    ensures FenSignalAfter(t, k, l, n) == BLANK
  {
    hide Keep, RoleAt, Claim, FinishFrom, RightEdge, Position;
    if k > 0 {
      OutsideBlank(t, k - 1, l, n);
      FoldPosition(t.levels, Finish(t, k - 1), FinishAdder(t, k - 1));
      KeptBounds(t, k - 1, l);
      IdleClaim(t.Kept(k - 1, l + 1), n, BLANK);
    }
  }

  lemma SpecialChildless(t: Tile)
    requires t.Valid()
    ensures !FenChildEnabled(t, 0, 2) && !FenChildEnabled(t, 0, 3)
  {
    hide FenSignalAfter;
    if t.levels > 1 {
      OutsideBlank(t, |t.sizes|, 1, 2);
      OutsideBlank(t, |t.sizes|, 1, 3);
    }
  }
}
