/** Row-major indices: entry r of row q of rows of length m is q * m + r. */
module Rows {

  /** Flattening a triple, one row at a time. */
  lemma FlatRows(z: int, y: int, x: int, mx: int, my: int)
    ensures z * my * mx + y * mx + x == (z * my + y) * mx + x
  {}

  /** A whole number of rows is no entry or at least one full row. */
  lemma WholeRows(k: int, m: int)
    requires m > 0
    ensures k >= 1 ==> k * m >= m
    ensures k <= -1 ==> k * m <= -m
    ensures k >= 0 ==> k * m >= 0
  {
    if k >= 1 { assert (k - 1) * m >= 0; }
    if k <= -1 { assert (-k - 1) * m >= 0; }
  }

  lemma MulAddInt(a: int, b: int, m: int)
    ensures (a + b) * m == a * m + b * m
  {}

  lemma RowBounds(q: int, r: int, n: int, m: int)
    requires 0 <= q < n && 0 <= r < m
    ensures 0 <= q * m + r < n * m
    ensures q * m + r == n * m - 1 <==> q == n - 1 && r == m - 1
  {
    WholeRows(q, m);
    WholeRows(n - 1 - q, m);
    MulAddInt(n - 1 - q, q, m);
    MulAddInt(n - 1, 1, m);
  }

  lemma RowsDiffer(q: int, r: int, q': int, r': int, m: int)
    requires -m < r - r' < m
    requires q * m + r == q' * m + r'
    ensures q == q' && r == r'
  {
    WholeRows(q - q', m);
    MulAddInt(q - q', q', m);
  }

  /** Entries of a later row, or later in the same row, have larger indices. */
  lemma RowsOrdered(q: int, r: int, q': int, r': int, m: int)
    requires -m < r - r' < m
    requires q < q' || (q == q' && r < r')
    ensures q * m + r < q' * m + r'
  {
    WholeRows(q' - q, m);
    MulAddInt(q' - q, q, m);
  }

  lemma RowStart(q: int, n: int, m: int)
    requires 0 <= q < n && 0 <= m
    ensures 0 <= q * m <= n * m
  {
    MulAddInt(q, n - q, m);
    if m > 0 {
      WholeRows(q, m);
      WholeRows(n - q, m);
    }
  }
}
