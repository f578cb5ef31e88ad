/**
 * The fixed 5x5 Pain-Bingo board: the table of the 12 winning lines, the
 * toggling of the selection list and the detection of newly completed lines
 * (PainBingoScreen.js).
 */
module BingoBoard {
  import opened Wrappers

  /** The keys of the line table, declared in the table's own order. */
  datatype LineKey =
    | Row0 | Row1 | Row2 | Row3 | Row4
    | Col0 | Col1 | Col2 | Col3 | Col4
    | Diag1 | Diag2

  /** Number of cells on the board; cells are numbered row by row from 0. */
  const BoardSize: int := 25

  /** `Object.keys(BINGO_LINES)`: the order in which lines are examined. */
  const LineKeys: seq<LineKey> :=
    [Row0, Row1, Row2, Row3, Row4, Col0, Col1, Col2, Col3, Col4, Diag1, Diag2]

  /** `BINGO_LINES[k]`: the five cell indices of line `k`. */
  function LineCells(k: LineKey): (cells: seq<int>)
    ensures |cells| == 5
    ensures forall j :: 0 <= j < 5 ==> 0 <= cells[j] < BoardSize
    ensures forall j, m :: 0 <= j < m < 5 ==> cells[j] < cells[m]
  {
    match k
    case Row0 => [0, 1, 2, 3, 4]
    case Row1 => [5, 6, 7, 8, 9]
    case Row2 => [10, 11, 12, 13, 14]
    case Row3 => [15, 16, 17, 18, 19]
    case Row4 => [20, 21, 22, 23, 24]
    case Col0 => [0, 5, 10, 15, 20]
    case Col1 => [1, 6, 11, 16, 21]
    case Col2 => [2, 7, 12, 17, 22]
    case Col3 => [3, 8, 13, 18, 23]
    case Col4 => [4, 9, 14, 19, 24]
    case Diag1 => [0, 6, 12, 18, 24]
    case Diag2 => [4, 8, 12, 16, 20]
  }

  /** Position of a key in `LineKeys`. */
  function KeyIndex(k: LineKey): (n: nat)
    ensures n < |LineKeys| && LineKeys[n] == k
  {
    match k
    case Row0 => 0
    case Row1 => 1
    case Row2 => 2
    case Row3 => 3
    case Row4 => 4
    case Col0 => 5
    case Col1 => 6
    case Col2 => 7
    case Col3 => 8
    case Col4 => 9
    case Diag1 => 10
    case Diag2 => 11
  }

  /** The key table lists every key exactly once. */
  lemma KeyIndexOfKey(n: nat)
    requires n < |LineKeys|
    ensures KeyIndex(LineKeys[n]) == n
  {
  }

  /**
   * An independent description of the lines by board geometry: cell `i`
   * lies in row `i / 5` and column `i % 5`.
   */
  predicate OnLine(k: LineKey, i: int)
    requires 0 <= i < BoardSize
  {
    var row, col := i / 5, i % 5;
    match k
    case Row0 => row == 0
    case Row1 => row == 1
    case Row2 => row == 2
    case Row3 => row == 3
    case Row4 => row == 4
    case Col0 => col == 0
    case Col1 => col == 1
    case Col2 => col == 2
    case Col3 => col == 3
    case Col4 => col == 4
    case Diag1 => row == col
    case Diag2 => row + col == 4
  }

  /** The literal table is exactly the five rows, five columns and two diagonals. */
  lemma LineTableIsGeometric(k: LineKey, i: int)
    requires 0 <= i < BoardSize
    ensures i in LineCells(k) <==> OnLine(k, i)
  {
    var row, col := i / 5, i % 5;
    assert i == 5 * row + col && 0 <= col < 5 && 0 <= row < 5;
  }

  /** `lineIndices.every((idx) => cells.includes(idx))`. */
  function AllIn(xs: seq<int>, cells: seq<int>): (b: bool)
    ensures b <==> forall idx :: idx in xs ==> idx in cells
  {
    if xs == [] then true
    else
      assert forall idx :: idx in xs <==> idx == xs[0] || idx in xs[1..];
      xs[0] in cells && AllIn(xs[1..], cells)
  }

  /** A line whose five cells are all selected. */
  predicate Complete(cells: seq<int>, k: LineKey) {
    forall idx :: idx in LineCells(k) ==> idx in cells
  }

  /** `checkBingoLine`: the key when every index of the line is selected, else null. */
  function CheckBingoLine(cells: seq<int>, lineIndices: seq<int>, lineKey: LineKey): (r: Option<LineKey>)
    ensures r.Some? <==> forall idx :: idx in lineIndices ==> idx in cells
    ensures r.Some? ==> r.value == lineKey
  {
    if AllIn(lineIndices, cells) then Some(lineKey) else None
  }

  /**
   * The wins among the first `n` keys of the table: the keys not yet
   * completed whose line is complete, in table order.
   */
  function WinsAmong(cells: seq<int>, completed: set<LineKey>, n: nat): seq<LineKey>
    requires n <= |LineKeys|
  {
    if n == 0 then []
    else
      var k := LineKeys[n - 1];
      WinsAmong(cells, completed, n - 1) + (if k !in completed && Complete(cells, k) then [k] else [])
  }

  /** What `detectBingoWins` returns for the selection `cells`. */
  function NewWins(cells: seq<int>, completed: set<LineKey>): seq<LineKey> {
    WinsAmong(cells, completed, |LineKeys|)
  }

  /** Keys listed in strictly increasing table position (hence without repeats). */
  predicate InTableOrder(ks: seq<LineKey>) {
    forall j, m :: 0 <= j < m < |ks| ==> KeyIndex(ks[j]) < KeyIndex(ks[m])
  }

  lemma {:induction false} WinsAmongExactly(cells: seq<int>, completed: set<LineKey>, n: nat)
    requires n <= |LineKeys|
    ensures forall k :: k in WinsAmong(cells, completed, n) <==>
      KeyIndex(k) < n && k !in completed && Complete(cells, k)
    ensures InTableOrder(WinsAmong(cells, completed, n))
  {
    if n > 0 {
      WinsAmongExactly(cells, completed, n - 1);
      KeyIndexOfKey(n - 1);
      var w := WinsAmong(cells, completed, n - 1);
      forall k
        ensures k in WinsAmong(cells, completed, n) <==> KeyIndex(k) < n && k !in completed && Complete(cells, k)
      {
        if KeyIndex(k) == n - 1 {
          assert k == LineKeys[n - 1];
        }
      }
    }
  }

  /**
   * `detectBingoWins` yields exactly the lines not yet completed whose five
   * cells are all selected, in the order row0..row4, col0..col4, diag1, diag2.
   */
  lemma NewWinsExactly(cells: seq<int>, completed: set<LineKey>)
    ensures forall k :: k in NewWins(cells, completed) <==> k !in completed && Complete(cells, k)
    ensures InTableOrder(NewWins(cells, completed))
  {
    WinsAmongExactly(cells, completed, |LineKeys|);
  }

  /**
   * `detectBingoWins`: walks the key table, skipping completed lines and
   * pushing every line whose cells are all selected.
   */
  method DetectBingoWins(cells: seq<int>, completedLines: set<LineKey>) returns (newWins: seq<LineKey>)
    ensures forall k :: k in newWins <==> k !in completedLines && Complete(cells, k)
    ensures InTableOrder(newWins)
    ensures newWins == NewWins(cells, completedLines)
  {
    newWins := [];
    var n := 0;
    while n < |LineKeys|
      invariant 0 <= n <= |LineKeys|
      invariant newWins == WinsAmong(cells, completedLines, n)
    {
      var lineKey := LineKeys[n];
      if lineKey !in completedLines {
        var lineIndices := LineCells(lineKey);
        if CheckBingoLine(cells, lineIndices, lineKey).Some? {
          newWins := newWins + [lineKey];
        }
      }
      n := n + 1;
    }
    NewWinsExactly(cells, completedLines);
  }

  /** More selected cells and fewer completed lines can only add wins. */
  lemma NewWinsMonotone(cells: seq<int>, completed: set<LineKey>, cells': seq<int>, completed': set<LineKey>, k: LineKey)
    requires k in NewWins(cells, completed)
    requires forall x :: x in cells ==> x in cells'
    requires k !in completed'
    ensures k in NewWins(cells', completed')
  {
    NewWinsExactly(cells, completed);
    NewWinsExactly(cells', completed');
  }

  // ---------------------------------------------------------------------------
  // The selection list
  // ---------------------------------------------------------------------------

  /** No index occurs twice. */
  predicate NoDup(s: seq<int>) {
    forall j, m :: 0 <= j < m < |s| ==> s[j] != s[m]
  }

  /** `s.filter((i) => i !== x)`. */
  function Without(s: seq<int>, x: int): (r: seq<int>)
    ensures forall y :: y in r <==> y in s && y != x
    ensures NoDup(s) ==> NoDup(r)
    ensures x !in s ==> r == s
    ensures x in s ==> |r| < |s|
  {
    if s == [] then []
    else
      var rest := Without(s[1..], x);
      if s[0] == x then rest
      else
        assert NoDup(s) ==> NoDup(s[1..]) && s[0] !in s[1..];
        [s[0]] + rest
  }

  /**
   * The `updated` list of `handleCellPress`: the tapped index changes
   * membership; a removal shortens the list and a new index goes last.
   */
  function Toggle(s: seq<int>, x: int): (r: seq<int>)
    ensures (x in r) != (x in s)
    ensures x in s ==> |r| < |s|
    ensures x !in s ==> |r| == |s| + 1 && r[|s|] == x
  {
    if x in s then Without(s, x) else s + [x]
  }

  /** Toggling flips membership of the toggled index and of nothing else. */
  lemma ToggleFlips(s: seq<int>, x: int)
    ensures forall y :: y in Toggle(s, x) <==> (if y == x then x !in s else y in s)
  {
  }

  /** The selection stays duplicate-free. */
  lemma ToggleKeepsNoDup(s: seq<int>, x: int)
    requires NoDup(s)
    ensures NoDup(Toggle(s, x))
  {
  }

  /**
   * Toggling the same cell twice restores the same set of selected cells,
   * and the very same list when the cell started unselected.
   */
  lemma ToggleTwice(s: seq<int>, x: int)
    ensures forall y :: y in Toggle(Toggle(s, x), x) <==> y in s
    ensures x !in s ==> Toggle(Toggle(s, x), x) == s
  {
    if x !in s {
      assert x in s + [x];
      assert Without(s + [x], x) == s by {
        WithoutAppended(s, x);
      }
    }
  }

  lemma {:induction false} WithoutAppended(s: seq<int>, x: int)
    requires x !in s
    ensures Without(s + [x], x) == s
  {
    if s != [] {
      WithoutAppended(s[1..], x);
      assert (s + [x])[1..] == s[1..] + [x];
    }
  }

  /** The selection after tapping the cells `taps` in turn. */
  function ToggleAll(s: seq<int>, taps: seq<int>): seq<int>
    decreases |taps|
  {
    if taps == [] then s else ToggleAll(Toggle(s, taps[0]), taps[1..])
  }

  /** A cell is selected after a sequence of taps iff its start state flipped an odd number of times. */
  lemma {:induction false} ToggleAllParity(s: seq<int>, taps: seq<int>, y: int)
    ensures y in ToggleAll(s, taps) <==> (y in s) != (multiset(taps)[y] % 2 == 1)
    decreases |taps|
  {
    if taps != [] {
      ToggleAllParity(Toggle(s, taps[0]), taps[1..], y);
      assert taps == [taps[0]] + taps[1..];
      assert multiset(taps) == multiset{taps[0]} + multiset(taps[1..]);
      ToggleFlips(s, taps[0]);
    }
  }

  /** From an empty board, the selected cells are those tapped an odd number of times. */
  lemma SelectionIsOddTaps(taps: seq<int>, y: int)
    ensures y in ToggleAll([], taps) <==> multiset(taps)[y] % 2 == 1
  {
    ToggleAllParity([], taps, y);
  }
}
