/** Products, quotients and remainders: the facts every indexing argument here rests on. */
module Arithmetic {

  /** Row q of `rows` rows of width w ends inside them. */
  lemma {:induction false} RowFits(q: nat, rows: nat, w: nat)
    requires q < rows
    ensures q * w + w <= rows * w
    decreases rows
  {
    assert rows * w == (rows - 1) * w + w;
    if q < rows - 1 {
      RowFits(q, rows - 1, w);
    }
  }

  /** An index inside `rows` rows lies in one of them. */
  lemma RowBelow(q: nat, rows: nat, w: nat, i: nat)
    requires q * w <= i < rows * w
    ensures q < rows
  {
    if rows < q {
      RowFits(rows, q, w);
    }
  }

  /** Quotient and remainder are determined. */
  lemma QuotientOf(m: nat, b: nat, q: nat, r: nat)
    requires r < b && m == q * b + r
    ensures m / b == q && m % b == r
  {
    assert m == (m / b) * b + m % b;
    if q < m / b {
      RowFits(q, m / b, b);
    } else if m / b < q {
      RowFits(m / b, q, b);
    }
  }

  /** Counting on by one, in blocks of b. */
  lemma NextInBlock(m: nat, b: nat)
    requires b >= 1
    ensures (m + 1) % b == if m % b == b - 1 then 0 else m % b + 1
    ensures (m + 1) / b == m / b + if m % b == b - 1 then 1 else 0
  {
    var q, r := m / b, m % b;
    assert m == q * b + r;
    if r == b - 1 {
      assert (q + 1) * b == q * b + b;
      QuotientOf(m + 1, b, q + 1, 0);
    } else {
      QuotientOf(m + 1, b, q, r + 1);
    }
  }

  /** A block that is complete among m ends inside them. */
  lemma BlockFits(m: nat, b: nat, j: nat)
    requires b >= 1 && j < m / b
    ensures 0 <= j * b && j * b + b <= m
  {
    RowFits(j, m / b, b);
    assert m == (m / b) * b + m % b;
  }
}
