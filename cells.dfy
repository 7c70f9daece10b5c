/// Which grid cells a list of word keys lights: each word covers the cells
/// (column + i, row) for i below its length (main.py, lines 113-119).
///
/// The functions take the placement table as a parameter; the clock passes
/// Grid.WordCoordinates.
module Cells {
  import opened Grid

  /** A grid cell as (column, row), the order in which the clock stores lit letters. */
  type Cell = (int, int)

  type Table = map<string, Placement>

  predicate AllPlaced(table: Table, words: seq<string>)
  {
    forall w | w in words :: w in table
  }

  /** The cells (column + i, row) for i from 0 below n, added one at a time. */
  function Run(row: int, column: int, n: nat): (r: set<Cell>)
    ensures forall c :: c in r <==> c.1 == row && column <= c.0 < column + n
  {
    if n == 0 then {} else Run(row, column, n - 1) + {(column + n - 1, row)}
  }

  lemma {:induction false} RunSize(row: int, column: int, n: nat)
    ensures |Run(row, column, n)| == n
  {
    if n > 0 {
      RunSize(row, column, n - 1);
    }
  }

  /** The cells one placed word covers. */
  function Span(table: Table, w: string): set<Cell>
    requires w in table
  {
    Run(table[w].row, table[w].column, |w|)
  }

  /** The cells a list of placed words covers: the union of their spans. */
  function CellsOf(table: Table, words: seq<string>): set<Cell>
    requires AllPlaced(table, words)
  {
    if words == [] then {}
    else CellsOf(table, words[..|words| - 1]) + Span(table, words[|words| - 1])
  }

  /** A cell is lit exactly when some word of the list covers it. */
  lemma {:induction false} CellsOfUnion(table: Table, words: seq<string>, c: Cell)
    requires AllPlaced(table, words)
    ensures c in CellsOf(table, words) <==> exists i :: 0 <= i < |words| && c in Span(table, words[i])
  {
    if words != [] {
      var n := |words| - 1;
      var init := words[..n];
      assert CellsOf(table, words) == CellsOf(table, init) + Span(table, words[n]);
      CellsOfUnion(table, init, c);
      assert forall i :: 0 <= i < n ==> init[i] == words[i];
    }
  }

  /**
   * How many words from the front have a placement: the clock lights those
   * before the lookup of the next one fails.
   */
  function KnownPrefixLength(table: Table, words: seq<string>): (n: nat)
    ensures n <= |words|
    ensures forall i :: 0 <= i < n ==> words[i] in table
    ensures n < |words| ==> words[n] !in table
  {
    if words == [] || words[0] !in table then 0
    else 1 + KnownPrefixLength(table, words[1..])
  }

  /** The known prefix ends at the first unplaced word. */
  lemma KnownPrefixStops(table: Table, words: seq<string>, j: int)
    requires 0 <= j < |words|
    requires AllPlaced(table, words[..j]) && words[j] !in table
    ensures KnownPrefixLength(table, words) == j
  {
  }

  lemma KnownPrefixAll(table: Table, words: seq<string>)
    requires AllPlaced(table, words)
    ensures KnownPrefixLength(table, words) == |words|
  {
  }

  /** Extending a placed prefix by one word adds that word's span. */
  lemma CellsOfExtend(table: Table, words: seq<string>, j: int)
    requires 0 <= j < |words|
    requires AllPlaced(table, words[..j]) && words[j] in table
    ensures AllPlaced(table, words[..j + 1])
    ensures CellsOf(table, words[..j + 1]) == CellsOf(table, words[..j]) + Span(table, words[j])
  {
    assert words[..j + 1][..j] == words[..j];
  }

  /** No two words of the list share a cell. */
  ghost predicate PairwiseDisjoint(table: Table, words: seq<string>)
    requires AllPlaced(table, words)
  {
    forall i, j | 0 <= i < j < |words| :: Span(table, words[i]) !! Span(table, words[j])
  }

  /** The number of letters of all the words together. */
  function TotalLength(words: seq<string>): nat
  {
    if words == [] then 0 else TotalLength(words[..|words| - 1]) + |words[|words| - 1]|
  }

  /** Words that share no cell light exactly as many cells as they have letters. */
  lemma {:induction false} DisjointCellCount(table: Table, words: seq<string>)
    requires AllPlaced(table, words)
    requires PairwiseDisjoint(table, words)
    ensures |CellsOf(table, words)| == TotalLength(words)
  {
    if words != [] {
      var n := |words| - 1;
      var init, last := words[..n], words[n];
      assert forall i :: 0 <= i < n ==> init[i] == words[i];
      DisjointCellCount(table, init);
      RunSize(table[last].row, table[last].column, |last|);
      forall c | c in Span(table, last)
        ensures c !in CellsOf(table, init)
      {
        CellsOfUnion(table, init, c);
      }
    }
  }

  /** Two placed words lie on different rows or on column ranges that do not meet. */
  predicate Apart(table: Table, a: string, b: string)
    requires a in table && b in table
  {
    var p, q := table[a], table[b];
    p.row != q.row || p.column + |a| <= q.column || q.column + |b| <= p.column
  }

  lemma ApartDisjoint(table: Table, a: string, b: string)
    requires a in table && b in table
    requires Apart(table, a, b)
    ensures Span(table, a) !! Span(table, b)
  {
  }
}
