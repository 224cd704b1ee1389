/**
 * The `KEYMAP` layout macro of the Phantom keymap: it takes the 92 keys of a
 * layer in the order they are printed on the keyboard (six visual lines, left
 * to right, top to bottom) and builds the dense 6 x 17 scan matrix, indexed
 * [row][column] with columns A..Q numbered 0..16.
 *
 * The macro's parameter names say where each key goes: parameter `K5B` is
 * placed at row 5, column B. So the parameter list, read in order, is the
 * table from visual position to matrix cell, and the macro body is its
 * inverse plus ten cells, with no physical key, that are filled with `KC_NO`.
 */
module Layout {
  import opened Keycodes

  const Rows: nat := 6
  const Cols: nat := 17
  /** The number of keys, hence of macro parameters, of one layer. */
  const VisualCount: nat := 92

  // Column letters of the matrix, as the macro names them.
  const A: nat := 0
  const B: nat := 1
  const C: nat := 2
  const D: nat := 3
  const E: nat := 4
  const F: nat := 5
  const G: nat := 6
  const H: nat := 7
  const I: nat := 8
  const J: nat := 9
  const K: nat := 10
  const L: nat := 11
  const M: nat := 12
  const N: nat := 13
  const O: nat := 14
  const P: nat := 15
  const Q: nat := 16

  datatype Cell = Cell(row: nat, col: nat)

  predicate InMatrix(c: Cell)
  {
    c.row < Rows && c.col < Cols
  }

  /**
   * The cells the macro body fills with `KC_NO`: row 0 columns D, E, F, G,
   * I and J; row 1 columns B and M; rows 2 and 4 column M.
   */
  predicate IsGap(c: Cell)
  {
    || (c.row == 0 && (c.col == D || c.col == E || c.col == F || c.col == G || c.col == I || c.col == J))
    || (c.row == 1 && (c.col == B || c.col == M))
    || (c.row == 2 && c.col == M)
    || (c.row == 4 && c.col == M)
  }

  /** The cells that hold a physical key. */
  predicate IsKey(c: Cell)
  {
    InMatrix(c) && !IsGap(c)
  }

  /** The number of keys on each of the six visual lines, top to bottom. */
  function LineLength(k: nat): nat
    requires k < 6
  {
    [16, 17, 17, 16, 15, 11][k]
  }

  /** The visual position of the first key of visual line k (0-based). */
  function LineStart(k: nat): (s: nat)
    requires k <= 6
  {
    [0, 16, 33, 50, 66, 81, 92][k]
  }

  /**
   * The macro's parameters on visual line k (0-based), left to right:
   * parameter `K<r><c>` is written `Cell(r, c)`.
   */
  function VisualLine(k: nat): (line: seq<Cell>)
    requires k < 6
    ensures |line| == LineLength(k)
  {
    match k
    // the Esc and function-key line
    case 0 => [Cell(5, A), Cell(5, C), Cell(5, D), Cell(5, E), Cell(5, F), Cell(5, G), Cell(5, H), Cell(5, I),
               Cell(5, J), Cell(5, K), Cell(5, L), Cell(5, M), Cell(5, N), Cell(5, O), Cell(5, P), Cell(5, Q)]
    // the number line, whose first key is wired to row 5
    case 1 => [Cell(5, B), Cell(4, A), Cell(4, B), Cell(4, C), Cell(4, D), Cell(4, E), Cell(4, F), Cell(4, G),
               Cell(4, H), Cell(4, I), Cell(4, J), Cell(4, K), Cell(4, L), Cell(4, N), Cell(4, O), Cell(4, P),
               Cell(4, Q)]
    case 2 => [Cell(3, A), Cell(3, B), Cell(3, C), Cell(3, D), Cell(3, E), Cell(3, F), Cell(3, G), Cell(3, H),
               Cell(3, I), Cell(3, J), Cell(3, K), Cell(3, L), Cell(3, M), Cell(3, N), Cell(3, O), Cell(3, P),
               Cell(3, Q)]
    case 3 => [Cell(2, A), Cell(2, B), Cell(2, C), Cell(2, D), Cell(2, E), Cell(2, F), Cell(2, G), Cell(2, H),
               Cell(2, I), Cell(2, J), Cell(2, K), Cell(2, L), Cell(2, N), Cell(2, O), Cell(2, P), Cell(2, Q)]
    case 4 => [Cell(1, A), Cell(1, C), Cell(1, D), Cell(1, E), Cell(1, F), Cell(1, G), Cell(1, H), Cell(1, I),
               Cell(1, J), Cell(1, K), Cell(1, L), Cell(1, N), Cell(1, O), Cell(1, P), Cell(1, Q)]
    // the space-bar line
    case 5 => [Cell(0, A), Cell(0, B), Cell(0, C), Cell(0, H), Cell(0, K), Cell(0, L), Cell(0, M), Cell(0, N),
               Cell(0, O), Cell(0, P), Cell(0, Q)]
  }

  /** The visual line that visual position i is on. */
  function LineOf(i: nat): (k: nat)
    requires i < VisualCount
    ensures k < 6 && LineStart(k) <= i < LineStart(k + 1)
  {
    if i < 16 then 0 else if i < 33 then 1 else if i < 50 then 2
    else if i < 66 then 3 else if i < 81 then 4 else 5
  }

  /**
   * The macro's whole parameter list in visual order: the cell of the key at
   * visual position i, which is key i - LineStart(k) of its visual line k.
   */
  function Param(i: nat): Cell
    requires i < VisualCount
  {
    var k := LineOf(i);
    VisualLine(k)[i - LineStart(k)]
  }

  /**
   * The position in the parameter list of the parameter the macro body
   * places at key cell c: the start of c's visual line plus the number of
   * keys to its left in that row (row 5 has `K5B` at the end of its line's
   * count, since `K5B` is the first key of the next visual line).
   */
  function ParamIndex(c: Cell): (i: nat)
    requires IsKey(c)
    ensures i < VisualCount
  {
    if c.row == 5 then
      (if c.col == A then 0 else if c.col == B then 16 else c.col - 1)
    else if c.row == 4 then
      (if c.col < M then 17 + c.col else 16 + c.col)
    else if c.row == 3 then
      33 + c.col
    else if c.row == 2 then
      (if c.col < M then 50 + c.col else 49 + c.col)
    else if c.row == 1 then
      (if c.col == A then 66 else if c.col < M then 65 + c.col else 64 + c.col)
    else
      (if c.col <= C then 81 + c.col else if c.col == H then 84 else 75 + c.col)
  }

  // Key j of visual line k is a key cell, and ParamIndex gives back its
  // visual position LineStart(k) + j; one lemma per line keeps each proof small.

  lemma Line0Keys(j: nat)
    requires j < LineLength(0)
    ensures IsKey(VisualLine(0)[j]) && ParamIndex(VisualLine(0)[j]) == LineStart(0) + j
  {
  }

  lemma Line1Keys(j: nat)
    requires j < LineLength(1)
    ensures IsKey(VisualLine(1)[j]) && ParamIndex(VisualLine(1)[j]) == LineStart(1) + j
  {
  }

  lemma Line2Keys(j: nat)
    requires j < LineLength(2)
    ensures IsKey(VisualLine(2)[j]) && ParamIndex(VisualLine(2)[j]) == LineStart(2) + j
  {
  }

  lemma Line3Keys(j: nat)
    requires j < LineLength(3)
    ensures IsKey(VisualLine(3)[j]) && ParamIndex(VisualLine(3)[j]) == LineStart(3) + j
  {
  }

  lemma Line4Keys(j: nat)
    requires j < LineLength(4)
    ensures IsKey(VisualLine(4)[j]) && ParamIndex(VisualLine(4)[j]) == LineStart(4) + j
  {
  }

  lemma Line5Keys(j: nat)
    requires j < LineLength(5)
    ensures IsKey(VisualLine(5)[j]) && ParamIndex(VisualLine(5)[j]) == LineStart(5) + j
  {
  }

  /** Every parameter names a key cell, and ParamIndex finds it again. */
  lemma ParamIsKey(i: nat)
    requires i < VisualCount
    ensures IsKey(Param(i)) && ParamIndex(Param(i)) == i
  {
    var k, j := LineOf(i), i - LineStart(LineOf(i));
    if k == 0 { Line0Keys(j); }
    else if k == 1 { Line1Keys(j); }
    else if k == 2 { Line2Keys(j); }
    else if k == 3 { Line3Keys(j); }
    else if k == 4 { Line4Keys(j); }
    else { Line5Keys(j); }
  }

  /** Distinct key cells have distinct parameter positions. */
  lemma ParamIndexInjective(c1: Cell, c2: Cell)
    requires IsKey(c1) && IsKey(c2) && ParamIndex(c1) == ParamIndex(c2)
    ensures c1 == c2
  {
  }

  /** Every key cell is named by the parameter ParamIndex gives. */
  lemma KeysAreParams(c: Cell)
    requires IsKey(c)
    ensures Param(ParamIndex(c)) == c
  {
    ParamIsKey(ParamIndex(c));
    ParamIndexInjective(Param(ParamIndex(c)), c);
  }

  /** All 92 parameters at once. */
  lemma AllParamsAreKeys()
    ensures forall i | 0 <= i < VisualCount :: IsKey(Param(i)) && ParamIndex(Param(i)) == i
  {
    forall i | 0 <= i < VisualCount
      ensures IsKey(Param(i)) && ParamIndex(Param(i)) == i
    {
      ParamIsKey(i);
    }
  }

  /** The parameter list names no cell twice. */
  lemma ParamsInjective(i: nat, j: nat)
    requires i < VisualCount && j < VisualCount && Param(i) == Param(j)
    ensures i == j
  {
    ParamIsKey(i);
    ParamIsKey(j);
  }

  /** The cells named by the first n parameters. */
  function ParamCells(n: nat): set<Cell>
    requires n <= VisualCount
  {
    set i | 0 <= i < n :: Param(i)
  }

  /** The first n parameters name n distinct cells. */
  lemma {:induction false} ParamCellsCount(n: nat)
    requires n <= VisualCount
    ensures |ParamCells(n)| == n
  {
    if n > 0 {
      ParamCellsCount(n - 1);
      assert ParamCells(n) == ParamCells(n - 1) + {Param(n - 1)};
      if Param(n - 1) in ParamCells(n - 1) {
        var i :| 0 <= i < n - 1 && Param(i) == Param(n - 1);
        ParamsInjective(i, n - 1);
      }
    }
  }

  /** The ten gap cells of the matrix. */
  function GapCells(): set<Cell>
  {
    {Cell(0, D), Cell(0, E), Cell(0, F), Cell(0, G), Cell(0, I), Cell(0, J),
     Cell(1, B), Cell(1, M), Cell(2, M), Cell(4, M)}
  }

  /** The cells the 92 parameters name are exactly the key cells. */
  lemma ParamCellsAreKeys()
    ensures forall c :: c in ParamCells(VisualCount) <==> IsKey(c)
  {
    forall c | IsKey(c)
      ensures c in ParamCells(VisualCount)
    {
      KeysAreParams(c);
    }
    AllParamsAreKeys();
  }

  /** GapCells lists exactly the gap cells of the matrix. */
  lemma GapCellsAreGaps()
    ensures forall c :: c in GapCells() <==> InMatrix(c) && IsGap(c)
  {
  }

  /** There are ten gap cells. */
  lemma GapCellsCount()
    ensures |GapCells()| == 10
  {
  }

  /**
   * The parameter list is a bijection from the 92 visual positions onto the
   * key cells; the other ten cells of the 6 x 17 matrix are the gaps.
   */
  lemma CellPartition()
    ensures forall c :: c in ParamCells(VisualCount) <==> IsKey(c)
    ensures forall c :: c in GapCells() <==> InMatrix(c) && IsGap(c)
    ensures |ParamCells(VisualCount)| == VisualCount && |GapCells()| == 10
    ensures VisualCount + |GapCells()| == Rows * Cols
  {
    ParamCellsCount(VisualCount);
    ParamCellsAreKeys();
    GapCellsAreGaps();
    GapCellsCount();
  }

  // ---------------------------------------------------------------------
  // Visual lines and matrix rows

  /** Outside row 5, a key's parameter sits on visual line 5 - row. */
  lemma ParamIndexLine(c: Cell)
    requires IsKey(c) && c != Cell(5, B)
    ensures LineOf(ParamIndex(c)) == 5 - c.row
  {
  }

  /** Within a row (leaving out `K5B`), parameter order follows column order. */
  lemma ParamIndexMonotone(c1: Cell, c2: Cell)
    requires IsKey(c1) && IsKey(c2) && c1 != Cell(5, B) && c2 != Cell(5, B)
    requires c1.row == c2.row && c1.col < c2.col
    ensures ParamIndex(c1) < ParamIndex(c2)
  {
  }

  /**
   * Visual line k feeds matrix row 5 - k, with one exception: the first key
   * of visual line 1 (`K5B`) is wired to row 5, column B.
   */
  lemma VisualLineFeedsRow(i: nat)
    requires i < VisualCount
    ensures i == LineStart(1) ==> Param(i) == Cell(5, B)
    ensures i != LineStart(1) ==> Param(i).row == 5 - LineOf(i)
  {
    ParamIsKey(i);
    if i != LineStart(1) {
      ParamIndexLine(Param(i));
    }
  }

  /**
   * Two keys on the same visual line (other than `K5B`) land in the same
   * row, in the same left-to-right order.
   */
  lemma VisualLineKeepsOrder(i: nat, j: nat)
    requires i < j < VisualCount && LineOf(i) == LineOf(j) && i != LineStart(1)
    ensures Param(i).row == Param(j).row
    ensures Param(i).col < Param(j).col
  {
    VisualLineFeedsRow(i);
    VisualLineFeedsRow(j);
    ParamIsKey(i);
    ParamIsKey(j);
    if Param(j).col <= Param(i).col {
      if Param(j).col < Param(i).col {
        ParamIndexMonotone(Param(j), Param(i));
      } else {
        ParamsInjective(i, j);
      }
    }
  }

  // ---------------------------------------------------------------------
  // The transform

  /** A dense scan matrix: Rows rows of Cols keycodes each. */
  predicate IsMatrix(m: seq<seq<Keycode>>)
  {
    |m| == Rows && forall r | 0 <= r < Rows :: |m[r]| == Cols
  }

  /** The keycode a matrix holds at cell c. */
  function At(m: seq<seq<Keycode>>, c: Cell): Keycode
    requires IsMatrix(m) && InMatrix(c)
  {
    m[c.row][c.col]
  }

  /** Every gap cell of m holds `KC_NO`. */
  predicate GapsEmpty(m: seq<seq<Keycode>>)
    requires IsMatrix(m)
  {
    forall r, c | 0 <= r < Rows && 0 <= c < Cols && IsGap(Cell(r, c)) :: m[r][c] == KC_NO
  }

  /** What the macro body puts at cell c: `KC_NO` in a gap, else that cell's key. */
  function CellValue(visual: seq<Keycode>, c: Cell): Keycode
    requires |visual| == VisualCount && InMatrix(c)
  {
    if IsGap(c) then KC_NO else visual[ParamIndex(c)]
  }

  /**
   * The `KEYMAP` macro: the 92 keys of a layer, in visual order, laid out as
   * a scan matrix. The C preprocessor rejects any other number of arguments
   * at build time, hence the precondition.
   */
  function Transform(visual: seq<Keycode>): (m: seq<seq<Keycode>>)
    requires |visual| == VisualCount
    ensures IsMatrix(m) && GapsEmpty(m)
    ensures forall r, c | 0 <= r < Rows && 0 <= c < Cols :: m[r][c] == CellValue(visual, Cell(r, c))
  {
    seq(Rows, r requires 0 <= r < Rows =>
      seq(Cols, c requires 0 <= c < Cols => CellValue(visual, Cell(r, c))))
  }

  /** The key at visual position i lands at the cell its parameter names. */
  lemma TransformPlacesKey(visual: seq<Keycode>, i: nat)
    requires |visual| == VisualCount && i < VisualCount
    ensures InMatrix(Param(i)) && At(Transform(visual), Param(i)) == visual[i]
  {
    ParamIsKey(i);
  }

  /** Reads a matrix back in visual order, one keycode per macro parameter. */
  function Visual(m: seq<seq<Keycode>>): (visual: seq<Keycode>)
    requires IsMatrix(m)
    ensures |visual| == VisualCount
  {
    AllParamsAreKeys();
    seq(VisualCount, i requires 0 <= i < VisualCount => At(m, Param(i)))
  }

  /** The transform loses nothing: reading the matrix back gives the layout. */
  lemma VisualOfTransform(visual: seq<Keycode>)
    requires |visual| == VisualCount
    ensures Visual(Transform(visual)) == visual
  {
    forall i | 0 <= i < VisualCount
      ensures Visual(Transform(visual))[i] == visual[i]
    {
      TransformPlacesKey(visual, i);
    }
  }

  /**
   * Every matrix whose gaps hold `KC_NO` is the transform of exactly one
   * layout: the one read back from it.
   */
  lemma TransformOfVisual(m: seq<seq<Keycode>>)
    requires IsMatrix(m) && GapsEmpty(m)
    ensures Transform(Visual(m)) == m
  {
    var m' := Transform(Visual(m));
    forall r | 0 <= r < Rows
      ensures m'[r] == m[r]
    {
      forall c | 0 <= c < Cols
        ensures m'[r][c] == m[r][c]
      {
        var cell := Cell(r, c);
        if !IsGap(cell) {
          KeysAreParams(cell);
          assert At(m', Param(ParamIndex(cell))) == Visual(m)[ParamIndex(cell)];
        } else {
          assert At(m', cell) == KC_NO == At(m, cell);
        }
      }
    }
  }

  /** Different layouts give different matrices. */
  lemma TransformInjective(v1: seq<Keycode>, v2: seq<Keycode>)
    requires |v1| == VisualCount && |v2| == VisualCount
    requires Transform(v1) == Transform(v2)
    ensures v1 == v2
  {
    VisualOfTransform(v1);
    VisualOfTransform(v2);
  }
}
