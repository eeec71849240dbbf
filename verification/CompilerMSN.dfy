/**
 CompilerMSN: which VN each multiplier works for, and which multipliers pass input values on to
 their left neighbour.
 */
module MultiplierCompiler {
  import opened Prelude
  import opened Arithmetic
  import opened Tiles
  import opened Runs

  /** A dense tile: filter windows of tC channels, tR rows and tS columns, one VN per window, each with
      an extra multiplier in front when partial results are folded. */
  datatype Window = Window(tR: nat, tS: nat, tC: nat, count: nat, folding: bool) {
    predicate Valid() {
      tR >= 1 && tS >= 1 && tC >= 1
    }

    function Shift(): nat {
      if folding then 1 else 0
    }

    function Size(): (n: nat)
      requires Valid()
      ensures n >= 1 && n == tR * tS * tC + if folding then 1 else 0
    {
      Positive(tC * tR, tS);
      Positive(tC, tR);
      Commutes(tC, tR, tS);
      tC * tR * tS + Shift()
    }

    /** Multiplier m is number Place(m) of its VN's window. */
    function Place(m: nat): int
      requires Valid()
    {
      m % Size() - Shift()
    }

    predicate Used(m: nat)
      requires Valid()
    {
      m < count * Size()
    }

    /** m holds a value of the window that is not in its first column. */
    predicate Sends(m: nat)
      requires Valid()
    {
      Used(m) && Place(m) >= 0 && Place(m) % tS > 0
    }

    /** m holds a value of the window that is not in its last column. */
    predicate Receives(m: nat)
      requires Valid()
    {
      Used(m) && Place(m) >= 0 && Place(m) % tS < tS - 1
    }

    /** Where the loops put column s of row q of VN i. */
    function At(i: nat, q: nat, s: nat): nat
      requires Valid()
    {
      i * Size() + Shift() + q * tS + s
    }
  }

  lemma Positive(a: nat, b: nat)
    ensures a >= 1 && b >= 1 ==> a * b >= 1
  {
  }

  lemma Commutes(a: nat, b: nat, c: nat)
    ensures a * b * c == b * c * a
  {
    assert a * (b * c) == (a * b) * c;
  }

  /** The loops reach every place of every window once, column by column. */
  lemma PlaceAt(f: Window, i: nat, q: nat, s: nat)
    requires f.Valid() && i < f.count && q < f.tC * f.tR && s < f.tS
    ensures var m := f.At(i, q, s);
      && f.Used(m) && m / f.Size() == i
      && f.Place(m) == q * f.tS + s && f.Place(m) / f.tS == q && f.Place(m) % f.tS == s
  {
    RowFits(q, f.tC * f.tR, f.tS);
    RowFits(i, f.count, f.Size());
    QuotientOf(f.At(i, q, s), f.Size(), i, f.Shift() + q * f.tS + s);
    QuotientOf(q * f.tS + s, f.tS, q, s);
  }

  /** Multiplier m waits for its right neighbour exactly when that neighbour sends, and both then
      hold neighbouring columns of one row of one VN. */
  lemma NeighboursAgree(f: Window, m: nat)
    requires f.Valid()
    ensures f.Receives(m) <==> f.Sends(m + 1)
    ensures f.Receives(m) ==>
      && m / f.Size() == (m + 1) / f.Size()
      && f.Place(m + 1) == f.Place(m) + 1
      && f.Place(m) / f.tS == f.Place(m + 1) / f.tS
  {
    hide Window.Size, Window.Used, Window.Place;
    NextUsed(f, m);
    if m % f.Size() == f.Size() - 1 {
      NextInBlock(m, f.Size());
      FirstColumn(f, m + 1);
      if f.Place(m) >= 0 {
        LastColumn(f, m);
      }
    } else {
      NextPlace(f, m);
    }
  }

  /** The place after one that is not the last of its VN. */
  lemma NextPlace(f: Window, m: nat)
    requires f.Valid() && m % f.Size() != f.Size() - 1
    ensures (m + 1) / f.Size() == m / f.Size() && f.Place(m + 1) == f.Place(m) + 1
    ensures f.Place(m) < 0 ==> f.Place(m + 1) % f.tS == 0
    ensures f.Place(m) >= 0 ==> (f.Place(m) % f.tS < f.tS - 1 <==> f.Place(m + 1) % f.tS > 0)
    ensures f.Place(m) >= 0 && f.Place(m) % f.tS < f.tS - 1 ==> f.Place(m + 1) / f.tS == f.Place(m) / f.tS
  {
    hide Window.Size;
    NextInBlock(m, f.Size());
    if f.Place(m) >= 0 {
      NextInBlock(f.Place(m), f.tS);
    } else {
      QuotientOf(0, f.tS, 0, 0);
    }
  }

  /** The first place of a window is in the first column. */
  lemma FirstColumn(f: Window, m: nat)
    requires f.Valid() && m % f.Size() == 0
    ensures f.Place(m) == 0 - f.Shift() && !f.Sends(m)
  {
    QuotientOf(0, f.tS, 0, 0);
  }

  /** The last place of a window is in the last column. */
  lemma LastColumn(f: Window, m: nat)
    requires f.Valid() && f.Place(m) >= 0
    ensures m % f.Size() == f.Size() - 1 ==> f.Place(m) % f.tS == f.tS - 1
  {
    if m % f.Size() == f.Size() - 1 {
      var rows := f.tC * f.tR;
      Positive(f.tC, f.tR);
      assert f.Place(m) == rows * f.tS - 1 == (rows - 1) * f.tS + (f.tS - 1);
      QuotientOf(f.Place(m), f.tS, rows - 1, f.tS - 1);
    }
  }

  lemma NextUsed(f: Window, m: nat)
    requires f.Valid()
    ensures f.Used(m + 1) ==> f.Used(m)
    ensures f.Used(m) && m % f.Size() < f.Size() - 1 ==> f.Used(m + 1)
  {
    var size := f.Size();
    NextInBlock(m, size);
    if f.Used(m) && m % size < size - 1 && m + 1 == f.count * size {
      QuotientOf(m + 1, size, f.count, 0);
    }
  }

  /** VN i of a dense tile owns, in the reduction tree, exactly the multipliers from i * n to i * n + n - 1. */
  lemma StampIsOwner(f: Window, levels: nat, i: nat, m: nat)
    requires f.Valid() && i < f.count
    ensures var n := f.tR * f.tS * f.tC + if f.folding then 1 else 0;
      var t := Tile(levels, seq(f.count, _ => n));
      n >= 1 && (t.Leaves(i).Has(m) <==> i * n <= m < i * n + n)
  {
    hide Window.Size, Sum;
    var size := f.Size();
    var t := Tile(levels, seq(f.count, _ => size));
    assert t.sizes[..i] == seq(i, _ => size);
    DenseOffset(i, size);
    assert t.Offset(i) == i * size;
  }

  class CompilerMSN {
    var vns: map<nat, nat>
    var foldings: map<nat, nat>
    var forwardPsum: map<nat, bool>
    var directPsum: map<nat, bool>
    var fwSend: map<nat, bool>
    var fwReceive: map<nat, bool>

    constructor ()
      ensures Blank()
    {
      vns, foldings, forwardPsum, directPsum, fwSend, fwReceive := map[], map[], map[], map[], map[], map[];
    }

    predicate Blank()
      reads this
    {
      vns == map[] && foldings == map[] && forwardPsum == map[] && directPsum == map[] && fwSend == map[]
        && fwReceive == map[]
    }

    static predicate On(flags: map<nat, bool>, m: nat) {
      m in flags && flags[m]
    }

    /** Exactly the multipliers below `to` are stamped, each with its VN. */
    ghost predicate Stamped(f: Window, folds: nat, to: nat)
      requires f.Valid()
      reads this`vns, this`foldings, this`forwardPsum, this`directPsum
    {
      && (forall m: nat :: m in vns <==> m < to)
      && (forall m: nat :: m in vns ==> vns[m] == m / f.Size() && m in foldings && foldings[m] == folds)
      && (forall m: nat :: On(forwardPsum, m) <==> m < to && f.folding && m % f.Size() == 0)
      && (forall m: nat :: !On(directPsum, m))
    }

    /** Multiplier i * n + j is stamped with VN i, and forwards psums if it is the extra one in front. */
    ghost predicate StampedAt(i: nat, j: nat, n: nat, folds: nat, folding: bool)
      reads this`vns, this`foldings, this`forwardPsum, this`directPsum
    {
      var m: nat := i * n + j;
      && m in vns && vns[m] == i && m in foldings && foldings[m] == folds
      && (On(forwardPsum, m) <==> folding && j == 0) && !On(directPsum, m)
    }

    lemma StampPlaces(f: Window, folds: nat)
      requires f.Valid() && Stamped(f, folds, f.count * f.Size())
      ensures forall i: nat, j: nat :: i < f.count && j < f.Size() ==> StampedAt(i, j, f.Size(), folds, f.folding)
    {
      hide Window.Size;
      var n := f.Size();
      forall i: nat, j: nat | i < f.count && j < n
        ensures StampedAt(i, j, n, folds, f.folding)
      {
        RowFits(i, f.count, n);
        QuotientOf(i * n + j, n, i, j);
      }
    }

    /** The flags of column s of row r of channel c of VN i, VNs having n multipliers and `extra` in front. */
    ghost predicate LinksAt(i: nat, c: nat, r: nat, s: nat, n: nat, extra: nat, tR: nat, tS: nat, reuse: bool)
      reads this`fwSend, this`fwReceive
    {
      var m: nat := i * n + extra + (c * tR + r) * tS + s;
      (On(fwSend, m) <==> reuse && s > 0) && (On(fwReceive, m) <==> reuse && s < tS - 1)
    }

    /** The links are those of the windows when values can be reused, and off otherwise. */
    ghost predicate LinksAre(f: Window, reuse: bool)
      requires f.Valid()
      reads this`fwSend, this`fwReceive
    {
      forall m: nat :: (On(fwSend, m) <==> reuse && f.Sends(m)) && (On(fwReceive, m) <==> reuse && f.Receives(m))
    }

    lemma LinkPlace(f: Window, reuse: bool, i: nat, c: nat, r: nat, s: nat)
      requires f.Valid() && LinksAre(f, reuse) && i < f.count && c < f.tC && r < f.tR && s < f.tS
      ensures LinksAt(i, c, r, s, f.Size(), f.Shift(), f.tR, f.tS, reuse)
    {
      hide Window.Size, Window.Sends, Window.Receives, Window.Shift;
      RowFits(c, f.tC, f.tR);
      var q: nat := c * f.tR + r;
      Columns(f, i, q, s);
    }

    lemma LinkPlaces(f: Window, reuse: bool)
      requires f.Valid() && LinksAre(f, reuse)
      ensures forall i: nat, c: nat, r: nat, s: nat :: i < f.count && c < f.tC && r < f.tR && s < f.tS ==>
        LinksAt(i, c, r, s, f.Size(), f.Shift(), f.tR, f.tS, reuse)
      ensures forall m: nat :: On(fwSend, m) || On(fwReceive, m) ==> m < f.count * f.Size() && m % f.Size() >= f.Shift()
    {
      hide Window.Size, CompilerMSN.LinksAt;
      forall i: nat, c: nat, r: nat, s: nat | i < f.count && c < f.tC && r < f.tR && s < f.tS
        ensures LinksAt(i, c, r, s, f.Size(), f.Shift(), f.tR, f.tS, reuse)
      {
        LinkPlace(f, reuse, i, c, r, s);
      }
    }

    /** Stamps multiplier m, number j of VN i. */
    method Stamp(f: Window, folds: nat, m: nat, i: nat, j: nat)
      requires f.Valid() && j < f.Size() && m == i * f.Size() + j && Stamped(f, folds, m)
      modifies this`vns, this`foldings, this`forwardPsum, this`directPsum
      ensures Stamped(f, folds, m + 1)
    {
      hide Window.Size;
      QuotientOf(m, f.Size(), i, j);
      ghost var forward0, direct0 := forwardPsum, directPsum;
      vns := vns[m := i];
      foldings := foldings[m := folds];
      directPsum := directPsum[m := false];
      forwardPsum := forwardPsum[m := f.folding && j == 0];
      forall k: nat
        ensures (On(forwardPsum, k) <==> k < m + 1 && f.folding && k % f.Size() == 0) && !On(directPsum, k)
      {
        assert On(forwardPsum, k) == if k == m then f.folding && j == 0 else On(forward0, k);
        assert On(directPsum, k) == (k != m && On(direct0, k));
      }
    }

    lemma StartStamping(f: Window, folds: nat)
      requires f.Valid() && Blank()
      ensures Stamped(f, folds, 0)
    {
    }

    /** Stamps the multipliers of every VN. */
    method StampVNs(f: Window, folds: nat)
      requires f.Valid() && Blank()
      modifies this`vns, this`foldings, this`forwardPsum, this`directPsum
      ensures Stamped(f, folds, f.count * f.Size())
      ensures var n := f.tR * f.tS * f.tC + if f.folding then 1 else 0;
        && (forall m: nat :: m in vns <==> m < f.count * n)
        && (forall i: nat, j: nat :: i < f.count && j < n ==> StampedAt(i, j, n, folds, f.folding))
    {
      var size := f.Size();
      StartStamping(f, folds);
      hide CompilerMSN.Stamped, Window.Size;
      for i := 0 to f.count
        invariant Stamped(f, folds, i * size)
      {
        for j := 0 to size
          invariant Stamped(f, folds, i * size + j)
        {
          Stamp(f, folds, i * size + j, i, j);
        }
        assert i * size + size == (i + 1) * size;
      }
      StampPlaces(f, folds);
      StampedKeys(f, folds);
    }

    lemma StampedKeys(f: Window, folds: nat)
      requires f.Valid() && Stamped(f, folds, f.count * f.Size())
      ensures forall m: nat :: m in vns <==> m < f.count * f.Size()
    {
    }

    /** The link flags are those of the windows, up to multiplier `to`. */
    ghost predicate Linked(f: Window, to: nat)
      requires f.Valid()
      reads this`fwSend, this`fwReceive
    {
      forall m: nat :: (On(fwSend, m) <==> m < to && f.Sends(m)) && (On(fwReceive, m) <==> m < to && f.Receives(m))
    }

    /** Sets the link flags of multiplier m. */
    method Link(f: Window, m: nat, send: bool, receive: bool)
      requires f.Valid() && Linked(f, m) && send == f.Sends(m) && receive == f.Receives(m)
      modifies this`fwSend, this`fwReceive
      ensures Linked(f, m + 1)
    {
      hide Window.Sends, Window.Receives;
      ghost var send0, receive0 := fwSend, fwReceive;
      fwSend := fwSend[m := send];
      fwReceive := fwReceive[m := receive];
      forall k: nat
        ensures (On(fwSend, k) <==> k < m + 1 && f.Sends(k)) && (On(fwReceive, k) <==> k < m + 1 && f.Receives(k))
      {
        assert On(send0, k) <==> k < m && f.Sends(k);
        assert On(fwSend, k) == if k == m then send else On(send0, k);
        assert On(fwReceive, k) == if k == m then receive else On(receive0, k);
      }
    }

    /** One row of one window. */
    method LinkRow(f: Window, i: nat, q: nat)
      requires f.Valid() && i < f.count && q < f.tC * f.tR && Linked(f, f.At(i, q, 0))
      modifies this`fwSend, this`fwReceive
      ensures Linked(f, f.At(i, q + 1, 0))
    {
      hide Window.Sends, Window.Receives, CompilerMSN.Linked, Window.Size;
      for s := 0 to f.tS
        invariant Linked(f, f.At(i, q, s))
      {
        Columns(f, i, q, s);
        Link(f, f.At(i, q, s), s > 0, s < f.tS - 1);
      }
      RowAfter(f, i, q);
    }

    static lemma RowAfter(f: Window, i: nat, q: nat)
      requires f.Valid()
      ensures f.At(i, q, f.tS) == f.At(i, q + 1, 0)
    {
      hide Window.Size;
      assert (q + 1) * f.tS == q * f.tS + f.tS;
    }

    /** The rows of a window end where the next VN starts. */
    static lemma WindowEnds(f: Window, i: nat)
      requires f.Valid()
      ensures f.At(i, f.tC * f.tR, 0) == (i + 1) * f.Size()
      ensures f.At(i, 0, 0) == i * f.Size() + f.Shift()
    {
      assert (i + 1) * f.Size() == i * f.Size() + f.Size();
    }

    static lemma Columns(f: Window, i: nat, q: nat, s: nat)
      requires f.Valid() && i < f.count && q < f.tC * f.tR && s < f.tS
      ensures var m := f.At(i, q, s); f.Sends(m) == (s > 0) && f.Receives(m) == (s < f.tS - 1)
    {
      PlaceAt(f, i, q, s);
    }

    /** The multiplier in front of a window has no links. */
    lemma FrontUnlinked(f: Window, i: nat)
      requires f.Valid() && Linked(f, i * f.Size())
      ensures Linked(f, i * f.Size() + f.Shift())
    {
      QuotientOf(i * f.Size(), f.Size(), i, 0);
    }

    /** One window. */
    method LinkWindow(f: Window, i: nat)
      requires f.Valid() && i < f.count && Linked(f, i * f.Size())
      modifies this`fwSend, this`fwReceive
      ensures Linked(f, (i + 1) * f.Size())
    {
      hide CompilerMSN.Linked, Window.Size, Window.At;
      FrontUnlinked(f, i);
      WindowEnds(f, i);
      for c := 0 to f.tC
        invariant Linked(f, f.At(i, c * f.tR, 0))
      {
        RowFits(c, f.tC, f.tR);
        for r := 0 to f.tR
          invariant Linked(f, f.At(i, c * f.tR + r, 0))
        {
          LinkRow(f, i, c * f.tR + r);
        }
        assert c * f.tR + f.tR == (c + 1) * f.tR;
      }
    }

    /** All the windows, when one output row is computed at a time. */
    method LinkWindows(f: Window)
      requires f.Valid() && fwSend == map[] && fwReceive == map[]
      modifies this`fwSend, this`fwReceive
      ensures Linked(f, f.count * f.Size())
      ensures var extra := if f.folding then 1 else 0;
        var n := f.tR * f.tS * f.tC + extra;
        forall i: nat, c: nat, r: nat, s: nat :: i < f.count && c < f.tC && r < f.tR && s < f.tS ==>
          LinksAt(i, c, r, s, n, extra, f.tR, f.tS, true)
    {
      assert Linked(f, 0);
      hide CompilerMSN.Linked, Window.Size;
      for i := 0 to f.count
        invariant Linked(f, i * f.Size())
      {
        LinkWindow(f, i);
      }
      LinkedAll(f);
      LinkPlaces(f, true);
    }

    lemma LinkedAll(f: Window)
      requires f.Valid() && Linked(f, f.count * f.Size())
      ensures forall m: nat :: (On(fwSend, m) <==> f.Sends(m)) && (On(fwReceive, m) <==> f.Receives(m))
    {
    }

    /** Switches every link below `to` off. */
    method Unlink(to: nat)
      modifies this`fwSend, this`fwReceive
      ensures forall m: nat :: On(fwSend, m) <==> m >= to && old(On(fwSend, m))
      ensures forall m: nat :: On(fwReceive, m) <==> m >= to && old(On(fwReceive, m))
    {
      ghost var send, receive := fwSend, fwReceive;
      for i := 0 to to
        invariant forall m: nat :: On(fwSend, m) <==> m >= i && On(send, m)
        invariant forall m: nat :: On(fwReceive, m) <==> m >= i && On(receive, m)
      {
        ghost var send0, receive0 := fwSend, fwReceive;
        fwSend := fwSend[i := false];
        fwReceive := fwReceive[i := false];
        forall m: nat
          ensures On(fwSend, m) == (m != i && On(send0, m)) && On(fwReceive, m) == (m != i && On(receive0, m))
        {
        }
      }
    }

    /** Compiles a dense tile: VNs of n multipliers, stamped in order; and, when values can be reused, links
        along the rows of each window.  stride and columns are those of the layer, tY the output rows of the tile. */
    method GenerateSignals(f: Window, tY: nat, stride: nat, columns: nat, folds: nat, numMs: nat)
      requires f.Valid() && f.count * f.Size() <= numMs && Blank()
      modifies this
      ensures var n := f.tR * f.tS * f.tC + if f.folding then 1 else 0;
        && n >= 1
        && (forall m: nat :: m in vns <==> m < f.count * n)
        && (forall i: nat, j: nat :: i < f.count && j < n ==> StampedAt(i, j, n, folds, f.folding))
      ensures var extra := if f.folding then 1 else 0;
        var n, reuse := f.tR * f.tS * f.tC + extra, tY <= 1 && stride <= 1 && columns % f.tS == 0;
        && (forall i: nat, c: nat, r: nat, s: nat :: i < f.count && c < f.tC && r < f.tR && s < f.tS ==>
              LinksAt(i, c, r, s, n, extra, f.tR, f.tS, reuse))
        && (forall m: nat :: On(fwSend, m) || On(fwReceive, m) ==> m < f.count * n && m % n >= extra)
      ensures var reuse := tY <= 1 && stride <= 1 && columns % f.tS == 0;
        forall m: nat :: (On(fwSend, m) <==> reuse && f.Sends(m)) && (On(fwReceive, m) <==> reuse && f.Receives(m))
    {
      hide Window.Size, CompilerMSN.StampedAt, CompilerMSN.LinksAt;
      StampVNs(f, folds);
      GenerateLinks(f, tY, stride, columns, numMs);
      ghost var n, extra, reuse := f.Size(), f.Shift(), tY <= 1 && stride <= 1 && columns % f.tS == 0;
      LinkPlaces(f, reuse);
      assert extra == if f.folding then 1 else 0;
      assert n == f.tR * f.tS * f.tC + extra;
      assert forall m: nat :: On(fwSend, m) || On(fwReceive, m) ==> m < f.count * n && m % n >= extra;
      assert forall i: nat, c: nat, r: nat, s: nat :: i < f.count && c < f.tC && r < f.tR && s < f.tS ==>
        LinksAt(i, c, r, s, n, extra, f.tR, f.tS, reuse);
    }

    /** The link flags of a dense tile. */
    method GenerateLinks(f: Window, tY: nat, stride: nat, columns: nat, numMs: nat)
      requires f.Valid() && f.count * f.Size() <= numMs && fwSend == map[] && fwReceive == map[]
      modifies this`fwSend, this`fwReceive
      ensures var reuse := tY <= 1 && stride <= 1 && columns % f.tS == 0;
        forall m: nat :: (On(fwSend, m) <==> reuse && f.Sends(m)) && (On(fwReceive, m) <==> reuse && f.Receives(m))
    {
      if tY > 1 {
        Unlink(f.count * f.Size());
      } else {
        LinkWindows(f);
      }
      if stride > 1 || columns % f.tS != 0 {
        Unlink(numMs);
      }
    }

    /** Exactly the multipliers below `to` are stamped, each with its owner; the first multiplier of a
        folded VN, and no other, forwards psums. */
    ghost predicate SparseStamped(t: Tile, folded: seq<bool>, to: nat)
      requires |folded| == |t.sizes|
      reads this`vns, this`foldings, this`directPsum
    {
      && (forall m: nat :: m in vns <==> m < to)
      && (forall m: nat :: m in vns ==> vns[m] == OwnerAmong(t, |t.sizes|, m) && m in foldings && foldings[m] == 1)
      && (forall m: nat :: On(directPsum, m) <==> m < to && FoldFront(t, folded, m))
    }

    static ghost predicate FoldFront(t: Tile, folded: seq<bool>, m: nat)
      requires |folded| == |t.sizes|
    {
      exists i: nat :: i < |t.sizes| && folded[i] && m == t.Offset(i)
    }

    /** The links between multipliers are off. */
    ghost predicate Unlinked()
      reads this`forwardPsum, this`fwSend, this`fwReceive
    {
      forall m: nat :: !On(forwardPsum, m) && !On(fwSend, m) && !On(fwReceive, m)
    }

    static lemma FrontOf(t: Tile, folded: seq<bool>, m: nat, i: nat)
      requires t.Valid() && |folded| == |t.sizes| && i < |t.sizes| && t.Leaves(i).Has(m)
      ensures OwnerAmong(t, |t.sizes|, m) == i
      ensures FoldFront(t, folded, m) <==> folded[i] && m == t.Offset(i)
    {
      hide Sum;
      OwnerUnique(t, |t.sizes|, m, i);
      if k: nat :| k < |t.sizes| && folded[k] && m == t.Offset(k) {
        OwnerUnique(t, |t.sizes|, m, k);
      }
    }

    /** Stamps multiplier m, number j of VN i. */
    method StampSparse(t: Tile, folded: seq<bool>, m: nat, i: nat, j: nat)
      requires t.Valid() && |folded| == |t.sizes| && i < |t.sizes| && j < t.sizes[i] && m == t.Offset(i) + j
      requires SparseStamped(t, folded, m)
      modifies this`vns, this`foldings, this`directPsum
      ensures SparseStamped(t, folded, m + 1)
    {
      hide Sum, Tile.Offset, OwnerAmong, CompilerMSN.FoldFront;
      FrontOf(t, folded, m, i);
      ghost var direct0 := directPsum;
      vns := vns[m := i];
      foldings := foldings[m := 1];
      directPsum := directPsum[m := folded[i] && j == 0];
      forall k: nat
        ensures On(directPsum, k) <==> k < m + 1 && FoldFront(t, folded, k)
      {
        assert On(directPsum, k) == if k == m then folded[i] && j == 0 else On(direct0, k);
      }
    }

    method UnlinkOne(m: nat)
      requires Unlinked()
      modifies this`forwardPsum, this`fwSend, this`fwReceive
      ensures Unlinked()
    {
      ghost var forward0, send0, receive0 := forwardPsum, fwSend, fwReceive;
      forwardPsum := forwardPsum[m := false];
      fwSend := fwSend[m := false];
      fwReceive := fwReceive[m := false];
      forall k: nat
        ensures !On(forwardPsum, k) && !On(fwSend, k) && !On(fwReceive, k)
      {
        assert !On(forward0, k) && !On(send0, k) && !On(receive0, k);
      }
    }

    /** Compiles a list of VNs of any sizes. */
    method GenerateSparseSignals(t: Tile, folded: seq<bool>)
      requires t.Valid() && |folded| == |t.sizes| && Blank()
      modifies this
      ensures SparseStamped(t, folded, t.Used()) && Unlinked()
      ensures forall i: nat, j: nat :: i < |t.sizes| && j < t.sizes[i] ==> SparseAt(t.sizes, i, j, folded[i])
      ensures forall m: nat :: m in vns <==> m < Sum(t.sizes)
      ensures forall m: nat, i: nat :: i < |t.sizes| && t.Leaves(i).Has(m) ==> m in vns && vns[m] == i
    {
      var m := 0;
      assert SparseStamped(t, folded, 0) && Unlinked();
      hide CompilerMSN.SparseStamped, CompilerMSN.Unlinked, Sum;
      for i := 0 to |t.sizes|
        invariant m == t.Offset(i) && SparseStamped(t, folded, m) && Unlinked()
      {
        SumSlice(t.sizes, i);
        for j := 0 to t.sizes[i]
          invariant m == t.Offset(i) + j && SparseStamped(t, folded, m) && Unlinked()
        {
          StampSparse(t, folded, m, i, j);
          UnlinkOne(m);
          m := m + 1;
        }
      }
      assert t.sizes[..|t.sizes|] == t.sizes;
      SparsePlaces(t, folded);
    }

    /** The j-th multiplier of VN i is stamped with that VN and a fold count of one, and forwards psums
        directly if it is the first one of a folded VN. */
    ghost predicate SparseAt(sizes: seq<nat>, i: nat, j: nat, folded: bool)
      requires i < |sizes|
      reads this`vns, this`foldings, this`directPsum
    {
      var m := Sum(sizes[..i]) + j;
      && m in vns && vns[m] == i && m in foldings && foldings[m] == 1
      && (On(directPsum, m) <==> folded && j == 0)
    }

    lemma SparsePlaces(t: Tile, folded: seq<bool>)
      requires t.Valid() && |folded| == |t.sizes| && SparseStamped(t, folded, t.Used())
      ensures forall i: nat, j: nat :: i < |t.sizes| && j < t.sizes[i] ==> SparseAt(t.sizes, i, j, folded[i])
      ensures forall m: nat :: m in vns <==> m < Sum(t.sizes)
      ensures forall m: nat, i: nat :: i < |t.sizes| && t.Leaves(i).Has(m) ==> m in vns && vns[m] == i
    {
      hide Sum, CompilerMSN.FoldFront, OwnerAmong;
      forall m: nat, i: nat | i < |t.sizes| && t.Leaves(i).Has(m)
        ensures m in vns && vns[m] == i
      {
        OffsetMonotone(t, i, |t.sizes|);
        FrontOf(t, folded, m, i);
      }
      forall i: nat, j: nat | i < |t.sizes| && j < t.sizes[i]
        ensures SparseAt(t.sizes, i, j, folded[i])
      {
        var m := t.Offset(i) + j;
        OffsetMonotone(t, i, |t.sizes|);
        FrontOf(t, folded, m, i);
      }
    }
  }
}
