/**
 * The keymap table of the Phantom controller: two layers built with the
 * `KEYMAP` layout transform, the two Fn tables, and the three read-only
 * accessors the key-event dispatcher calls. Flash-memory reads are ordinary
 * reads of immutable data here.
 */
module Keymap {
  import opened Keycodes
  import opened Layout

  /** Visual line k of layer 0, the default layer, as written. */
  function Layer0Line(k: nat): (line: seq<Keycode>)
    requires k < 6
    ensures |line| == LineLength(k)
  {
    match k
    case 0 => [KC_ESC, KC_F1, KC_F2, KC_F3, KC_F4, KC_F5, KC_F6, KC_F7, KC_F8, KC_F9, KC_F10, KC_F11,
               KC_F12, KC_PSCR, KC_SLCK, KC_BRK]
    case 1 => [KC_GRV, KC_1, KC_2, KC_3, KC_4, KC_5, KC_6, KC_7, KC_8, KC_9, KC_0, KC_MINS, KC_EQL,
               KC_BSPC, KC_INS, KC_HOME, KC_PGUP]
    case 2 => [KC_TAB, KC_Q, KC_W, KC_E, KC_R, KC_T, KC_Y, KC_U, KC_I, KC_O, KC_P, KC_LBRC, KC_RBRC,
               KC_BSLS, KC_DEL, KC_END, KC_PGDN]
    case 3 => [KC_FN1, KC_A, KC_S, KC_D, KC_F, KC_G, KC_H, KC_J, KC_K, KC_L, KC_SCLN, KC_QUOT, KC_ENT,
               KC_0, KC_0, KC_0]
    case 4 => [KC_LSFT, KC_Z, KC_X, KC_C, KC_V, KC_B, KC_N, KC_M, KC_COMM, KC_DOT, KC_SLSH, KC_RSFT,
               KC_0, KC_UP, KC_0]
    case 5 => [KC_LCTL, KC_LGUI, KC_LALT, KC_SPC, KC_RALT, KC_RGUI, KC_APP, KC_RCTL,
               KC_LEFT, KC_DOWN, KC_RGHT]
  }

  /** Visual line k of layer 1, the media layer, as written. */
  function Layer1Line(k: nat): (line: seq<Keycode>)
    requires k < 6
    ensures |line| == LineLength(k)
  {
    match k
    case 0 => [KC_ESC, KC_F1, KC_F2, KC_F3, KC_F4, KC_F5, KC_F6, KC_F7, KC_F8, KC_F9, KC_F10, KC_F11,
               KC_F12, KC_PSCR, KC_SLCK, KC_SLEP]
    case 1 => [KC_GRV, KC_1, KC_2, KC_3, KC_4, KC_5, KC_6, KC_7, KC_8, KC_9, KC_MUTE, KC_VOLD, KC_VOLU,
               KC_BSPC, KC_INS, KC_HOME, KC_PGUP]
    case 2 => [KC_TAB, KC_Q, KC_W, KC_E, KC_R, KC_T, KC_Y, KC_U, KC_I, KC_MSTP, KC_MPLY, KC_MPRV, KC_MNXT,
               KC_MSEL, KC_DEL, KC_END, KC_PGDN]
    case 3 => [KC_FN1, KC_A, KC_S, KC_D, KC_F, KC_G, KC_H, KC_J, KC_K, KC_L, KC_SCLN, KC_QUOT, KC_ENT,
               KC_0, KC_0, KC_0]
    case 4 => [KC_LSFT, KC_Z, KC_X, KC_CALC, KC_V, KC_B, KC_N, KC_M, KC_COMM, KC_DOT, KC_SLSH, KC_CAPS,
               KC_0, KC_UP, KC_0]
    case 5 => [KC_LCTL, KC_LGUI, KC_LALT, KC_SPC, KC_RALT, KC_RGUI, KC_APP, KC_RCTL,
               KC_LEFT, KC_DOWN, KC_RGHT]
  }

  /** The number of layers the table defines. */
  const LayerCount: nat := 2

  /** Visual line k of layer l. */
  function LayerLine(l: nat, k: nat): (line: seq<Keycode>)
    requires l < LayerCount && k < 6
    ensures |line| == LineLength(k)
  {
    if l == 0 then Layer0Line(k) else Layer1Line(k)
  }

  /**
   * The layout of layer l in visual order, the 92 arguments given to
   * `KEYMAP`: key i is key i - LineStart(k) of its visual line k.
   */
  function LayerLayout(l: nat): (visual: seq<Keycode>)
    requires l < LayerCount
    ensures |visual| == VisualCount
  {
    seq(VisualCount, i requires 0 <= i < VisualCount => LayerLine(l, LineOf(i))[i - LineStart(LineOf(i))])
  }

  /** The `keymaps` table: one scan matrix per layer. */
  function Keymaps(): (t: seq<seq<seq<Keycode>>>)
    ensures |t| == LayerCount
    ensures forall l | 0 <= l < LayerCount :: IsMatrix(t[l]) && GapsEmpty(t[l])
  {
    [Transform(LayerLayout(0)), Transform(LayerLayout(1))]
  }

  /** Fn key i switches to layer `FnLayerTable()[i]` while held. */
  function FnLayerTable(): seq<nat>
  {
    [0, 1, 2, 3, 4, 5, 6, 7]
  }

  /** Fn key i sends `FnKeycodeTable()[i]` when tapped without using its layer. */
  function FnKeycodeTable(): seq<Keycode>
  {
    [KC_NO, KC_NO, KC_NO, KC_NO, KC_NO, KC_NO, KC_NO, KC_NO]
  }

  /**
   * `keymap_get_keycode`: the keycode at (row, col) of a layer. The source
   * does no bounds check, so the indices must be in range.
   */
  function GetKeycode(layer: nat, row: nat, col: nat): (k: Keycode)
    requires layer < LayerCount && row < Rows && col < Cols
    ensures IsGap(Cell(row, col)) ==> k == KC_NO
    ensures !IsGap(Cell(row, col)) ==> k == LayerLayout(layer)[ParamIndex(Cell(row, col))]
  {
    Keymaps()[layer][row][col]
  }

  /** `keymap_fn_layer`: the layer Fn key `index` selects; an unchecked read. */
  function FnLayer(index: nat): (l: nat)
    requires index < |FnLayerTable()|
    ensures l == index
  {
    FnLayerTable()[index]
  }

  /** `keymap_fn_keycode`: the tap keycode of Fn key `index`; an unchecked read. */
  function FnKeycode(index: nat): (k: Keycode)
    requires index < |FnKeycodeTable()|
    ensures k == KC_NO
  {
    FnKeycodeTable()[index]
  }

  // ---------------------------------------------------------------------
  // Facts about the two layers

  /** Reading layer l back in visual order gives the layout it was built from. */
  lemma LayerReadsBack(l: nat)
    requires l < LayerCount
    ensures Visual(Keymaps()[l]) == LayerLayout(l)
  {
    VisualOfTransform(LayerLayout(l));
  }

  /** Visual position i of layer l is key i - LineStart(k) of its line k. */
  lemma LayoutOnLine(l: nat, i: nat)
    requires l < LayerCount && i < VisualCount
    ensures LayerLayout(l)[i] == LayerLine(l, LineOf(i))[i - LineStart(LineOf(i))]
  {
  }

  /** At a key cell, layer l holds the argument of the parameter naming it. */
  lemma GetKeycodeAtKey(l: nat, row: nat, col: nat)
    requires l < LayerCount && IsKey(Cell(row, col))
    ensures GetKeycode(l, row, col) == LayerLayout(l)[ParamIndex(Cell(row, col))]
  {
    KeysAreParams(Cell(row, col));
  }

  /** The key at (row, col) of layer l is key j of visual line k. */
  lemma GetKeycodeOnLine(l: nat, row: nat, col: nat)
    requires l < LayerCount && IsKey(Cell(row, col))
    ensures var i := ParamIndex(Cell(row, col));
            GetKeycode(l, row, col) == LayerLine(l, LineOf(i))[i - LineStart(LineOf(i))]
  {
    var i := ParamIndex(Cell(row, col));
    GetKeycodeAtKey(l, row, col);
    assert GetKeycode(l, row, col) == LayerLayout(l)[i];
    LayoutOnLine(l, i);
    assert LayerLayout(l)[i] == LayerLine(l, LineOf(i))[i - LineStart(LineOf(i))];
  }

  /** Layer 1 is layer 0 with eleven keys replaced, line by line. */
  lemma Layer1FromLayer0()
    ensures Layer1Line(0) == Layer0Line(0)[15 := KC_SLEP]
    ensures Layer1Line(1) == Layer0Line(1)[10 := KC_MUTE][11 := KC_VOLD][12 := KC_VOLU]
    ensures Layer1Line(2) == Layer0Line(2)[9 := KC_MSTP][10 := KC_MPLY][11 := KC_MPRV][12 := KC_MNXT][13 := KC_MSEL]
    ensures Layer1Line(3) == Layer0Line(3)
    ensures Layer1Line(4) == Layer0Line(4)[3 := KC_CALC][11 := KC_CAPS]
    ensures Layer1Line(5) == Layer0Line(5)
  {
  }

  /** The positions, by visual line, whose key layer 1 replaces. */
  predicate Replaced(k: nat, j: nat)
  {
    || (k == 0 && j == 15)
    || (k == 1 && 10 <= j <= 12)
    || (k == 2 && 9 <= j <= 13)
    || (k == 4 && (j == 3 || j == 11))
  }

  /**
   * Key j of visual line k differs between the layers exactly where layer 1
   * replaces it, and is a Fn key in either layer exactly when it is the first
   * key of line 3.
   */
  predicate LineFacts(k: nat, j: nat)
    requires k < 6 && j < LineLength(k)
  {
    && (Layer0Line(k)[j] != Layer1Line(k)[j] <==> Replaced(k, j))
    && (IsFn(Layer0Line(k)[j]) <==> k == 3 && j == 0)
    && (IsFn(Layer1Line(k)[j]) <==> k == 3 && j == 0)
  }

  // LineFacts, one visual line and one half at a time so that each proof stays small.

  lemma Line0Differs(j: nat)
    requires j < LineLength(0)
    ensures Layer0Line(0)[j] != Layer1Line(0)[j] <==> j == 15
  {
    if j < 15 {} else {}
  }

  lemma Line1Differs(j: nat)
    requires j < LineLength(1)
    ensures Layer0Line(1)[j] != Layer1Line(1)[j] <==> 10 <= j <= 12
  {
    if j < 10 {} else if j <= 12 {} else {}
  }

  lemma Line2Differs(j: nat)
    requires j < LineLength(2)
    ensures Layer0Line(2)[j] != Layer1Line(2)[j] <==> 9 <= j <= 13
  {
    if j < 9 {} else if j <= 13 {} else {}
  }

  lemma Line3Differs(j: nat)
    requires j < LineLength(3)
    ensures Layer0Line(3)[j] == Layer1Line(3)[j]
  {
  }

  lemma Line4Differs(j: nat)
    requires j < LineLength(4)
    ensures Layer0Line(4)[j] != Layer1Line(4)[j] <==> j == 3 || j == 11
  {
    if j < 3 {} else if j == 3 {} else if j < 11 {} else if j == 11 {} else {}
  }

  lemma Line5Differs(j: nat)
    requires j < LineLength(5)
    ensures Layer0Line(5)[j] == Layer1Line(5)[j]
  {
  }

  lemma Line0FnKeys(j: nat)
    requires j < LineLength(0)
    ensures !IsFn(Layer0Line(0)[j]) && !IsFn(Layer1Line(0)[j])
  {
  }

  lemma Line1FnKeys(j: nat)
    requires j < LineLength(1)
    ensures !IsFn(Layer0Line(1)[j]) && !IsFn(Layer1Line(1)[j])
  {
  }

  lemma Line2FnKeys(j: nat)
    requires j < LineLength(2)
    ensures !IsFn(Layer0Line(2)[j]) && !IsFn(Layer1Line(2)[j])
  {
  }

  lemma Line3FnKeys(j: nat)
    requires j < LineLength(3)
    ensures (IsFn(Layer0Line(3)[j]) <==> j == 0) && (IsFn(Layer1Line(3)[j]) <==> j == 0)
  {
  }

  lemma Line4FnKeys(j: nat)
    requires j < LineLength(4)
    ensures !IsFn(Layer0Line(4)[j]) && !IsFn(Layer1Line(4)[j])
  {
  }

  lemma Line5FnKeys(j: nat)
    requires j < LineLength(5)
    ensures !IsFn(Layer0Line(5)[j]) && !IsFn(Layer1Line(5)[j])
  {
  }

  lemma LinesCompared(k: nat, j: nat)
    requires k < 6 && j < LineLength(k)
    ensures LineFacts(k, j)
  {
    if k == 0 { Line0Differs(j); Line0FnKeys(j); }
    else if k == 1 { Line1Differs(j); Line1FnKeys(j); }
    else if k == 2 { Line2Differs(j); Line2FnKeys(j); }
    else if k == 3 { Line3Differs(j); Line3FnKeys(j); }
    else if k == 4 { Line4Differs(j); Line4FnKeys(j); }
    else { Line5Differs(j); Line5FnKeys(j); }
  }

  /** The cells where layer 1 differs from layer 0. */
  function ChangedCells(): set<Cell>
  {
    {Cell(5, Q),
     Cell(4, J), Cell(4, K), Cell(4, L),
     Cell(3, J), Cell(3, K), Cell(3, L), Cell(3, M), Cell(3, N),
     Cell(1, E), Cell(1, N)}
  }

  /** The changed cells are the key cells of the replaced positions. */
  lemma ChangedCellsOnLines(c: Cell)
    requires IsKey(c)
    ensures var i := ParamIndex(c);
            var k, j := LineOf(i), i - LineStart(LineOf(i));
            c in ChangedCells() <==> Replaced(k, j)
  {
  }

  /**
   * At a key cell, the keycodes the two layouts give it differ exactly when
   * the cell is one of ChangedCells. The values are passed in so that the
   * comparison is made on them alone.
   */
  lemma ChangedAtKey(c: Cell, v0: Keycode, v1: Keycode)
    requires IsKey(c)
    requires var i := ParamIndex(c);
             var k, j := LineOf(i), i - LineStart(LineOf(i));
             v0 == Layer0Line(k)[j] && v1 == Layer1Line(k)[j]
    ensures v0 != v1 <==> c in ChangedCells()
  {
    var i := ParamIndex(c);
    LinesCompared(LineOf(i), i - LineStart(LineOf(i)));
    ChangedCellsOnLines(c);
  }

  /** Both layers leave every gap cell empty, so they agree there. */
  lemma GapsAgree(row: nat, col: nat)
    requires row < Rows && col < Cols && IsGap(Cell(row, col))
    ensures GetKeycode(0, row, col) == GetKeycode(1, row, col)
  {
    assert GetKeycode(0, row, col) == KC_NO;
    assert GetKeycode(1, row, col) == KC_NO;
  }

  /** Every changed cell is a key cell. */
  lemma ChangedCellsAreKeys(c: Cell)
    requires c in ChangedCells()
    ensures IsKey(c)
  {
  }

  /** At a key cell the layers differ exactly on ChangedCells. */
  lemma KeysDiffer(row: nat, col: nat)
    requires IsKey(Cell(row, col))
    ensures GetKeycode(0, row, col) != GetKeycode(1, row, col) <==> Cell(row, col) in ChangedCells()
  {
    GetKeycodeOnLine(0, row, col);
    GetKeycodeOnLine(1, row, col);
    ChangedAtKey(Cell(row, col), GetKeycode(0, row, col), GetKeycode(1, row, col));
  }

  /**
   * Layers 0 and 1 hold the same keycode at every cell except the eleven
   * of ChangedCells.
   */
  lemma LayersDiffer(row: nat, col: nat)
    requires row < Rows && col < Cols
    ensures GetKeycode(0, row, col) != GetKeycode(1, row, col) <==> Cell(row, col) in ChangedCells()
  {
    if IsGap(Cell(row, col)) {
      GapsAgree(row, col);
      if Cell(row, col) in ChangedCells() {
        ChangedCellsAreKeys(Cell(row, col));
      }
    } else {
      KeysDiffer(row, col);
    }
  }

  /**
   * A key cell holds in layer `l` the keycode at its position in that
   * layer's layout line.
   */
  lemma KeycodeIs(l: nat, row: nat, col: nat, v: Keycode)
    requires l < LayerCount && IsKey(Cell(row, col))
    requires var i := ParamIndex(Cell(row, col));
             v == LayerLine(l, LineOf(i))[i - LineStart(LineOf(i))]
    ensures GetKeycode(l, row, col) == v
  {
    GetKeycodeOnLine(l, row, col);
  }

  /** Pause/Break becomes Sleep. */
  lemma ChangedBottomRow()
    ensures GetKeycode(0, 5, Q) == KC_BRK && GetKeycode(1, 5, Q) == KC_SLEP
  {
    KeycodeIs(0, 5, Q, KC_BRK);
    KeycodeIs(1, 5, Q, KC_SLEP);
  }

  /** 0, - and = become Mute, Volume Down and Volume Up. */
  lemma ChangedDigitRow()
    ensures GetKeycode(0, 4, J) == KC_0 && GetKeycode(1, 4, J) == KC_MUTE
    ensures GetKeycode(0, 4, K) == KC_MINS && GetKeycode(1, 4, K) == KC_VOLD
    ensures GetKeycode(0, 4, L) == KC_EQL && GetKeycode(1, 4, L) == KC_VOLU
  {
    KeycodeIs(0, 4, J, KC_0); KeycodeIs(1, 4, J, KC_MUTE);
    KeycodeIs(0, 4, K, KC_MINS); KeycodeIs(1, 4, K, KC_VOLD);
    KeycodeIs(0, 4, L, KC_EQL); KeycodeIs(1, 4, L, KC_VOLU);
  }

  /** O and P become Media Stop and Media Play. */
  lemma ChangedTabRowLetters()
    ensures GetKeycode(0, 3, J) == KC_O && GetKeycode(1, 3, J) == KC_MSTP
    ensures GetKeycode(0, 3, K) == KC_P && GetKeycode(1, 3, K) == KC_MPLY
  {
    KeycodeIs(0, 3, J, KC_O); KeycodeIs(1, 3, J, KC_MSTP);
    KeycodeIs(0, 3, K, KC_P); KeycodeIs(1, 3, K, KC_MPLY);
  }

  /** [, ] and \ become Media Previous, Media Next and Media Select. */
  lemma ChangedTabRowBrackets()
    ensures GetKeycode(0, 3, L) == KC_LBRC && GetKeycode(1, 3, L) == KC_MPRV
    ensures GetKeycode(0, 3, M) == KC_RBRC && GetKeycode(1, 3, M) == KC_MNXT
    ensures GetKeycode(0, 3, N) == KC_BSLS && GetKeycode(1, 3, N) == KC_MSEL
  {
    KeycodeIs(0, 3, L, KC_LBRC); KeycodeIs(1, 3, L, KC_MPRV);
    KeycodeIs(0, 3, M, KC_RBRC); KeycodeIs(1, 3, M, KC_MNXT);
    KeycodeIs(0, 3, N, KC_BSLS); KeycodeIs(1, 3, N, KC_MSEL);
  }

  /** C becomes Calculator and Right Shift becomes Caps Lock. */
  lemma ChangedShiftRow()
    ensures GetKeycode(0, 1, E) == KC_C && GetKeycode(1, 1, E) == KC_CALC
    ensures GetKeycode(0, 1, N) == KC_RSFT && GetKeycode(1, 1, N) == KC_CAPS
  {
    KeycodeIs(0, 1, E, KC_C); KeycodeIs(1, 1, E, KC_CALC);
    KeycodeIs(0, 1, N, KC_RSFT); KeycodeIs(1, 1, N, KC_CAPS);
  }

  /**
   * The argument `0` in a layout is the digit-zero key `KC_0`, not the
   * empty `KC_NO`: the five unlabelled keys right of Return and around Up
   * hold the code of layer 0's digit key 0 at [4][J] (ChangedDigitRow).
   */
  lemma ZeroArgumentsAreDigitZero(l: nat)
    requires l < LayerCount
    ensures GetKeycode(l, 2, O) == KC_0 && GetKeycode(l, 2, P) == KC_0 && GetKeycode(l, 2, Q) == KC_0
    ensures GetKeycode(l, 1, O) == KC_0 && GetKeycode(l, 1, Q) == KC_0
  {
    KeycodeIs(l, 2, O, KC_0);
    KeycodeIs(l, 2, P, KC_0);
    KeycodeIs(l, 2, Q, KC_0);
    KeycodeIs(l, 1, O, KC_0);
    KeycodeIs(l, 1, Q, KC_0);
  }

  // ---------------------------------------------------------------------
  // Fn keys

  /**
   * At a key cell, the keycode a layout gives it is an Fn key exactly when
   * the cell is [2][A].
   */
  lemma FnAtKey(l: nat, c: Cell, v: Keycode)
    requires l < LayerCount && IsKey(c)
    requires var i := ParamIndex(c);
             var k, j := LineOf(i), i - LineStart(LineOf(i));
             v == LayerLine(l, k)[j]
    ensures IsFn(v) <==> c == Cell(2, A)
  {
    var i := ParamIndex(c);
    LinesCompared(LineOf(i), i - LineStart(LineOf(i)));
    if c == Cell(2, A) {
      assert i == 50;
    } else if LineOf(i) == 3 && i - LineStart(LineOf(i)) == 0 {
      ParamIndexInjective(c, Cell(2, A));
    }
  }

  /** Both layers put `KC_FN1` at [2][A]. */
  lemma Fn1Cell(l: nat)
    requires l < LayerCount
    ensures GetKeycode(l, 2, A) == KC_FN1
  {
    KeycodeIs(l, 2, A, KC_FN1);
  }

  /** At a key cell, a layer holds an Fn key exactly at [2][A]. */
  lemma FnOnlyAtFn1Cell(l: nat, row: nat, col: nat)
    requires l < LayerCount && IsKey(Cell(row, col))
    ensures IsFn(GetKeycode(l, row, col)) <==> Cell(row, col) == Cell(2, A)
  {
    GetKeycodeOnLine(l, row, col);
    FnAtKey(l, Cell(row, col), GetKeycode(l, row, col));
  }

  /** A gap cell holds no Fn key. */
  lemma NoFnInGaps(l: nat, row: nat, col: nat)
    requires l < LayerCount && row < Rows && col < Cols && IsGap(Cell(row, col))
    ensures !IsFn(GetKeycode(l, row, col))
  {
    assert GetKeycode(l, row, col) == KC_NO;
  }

  /**
   * The only Fn key either layer uses is `KC_FN1`, at [2][A] (where the
   * printed diagram of layer 0 shows Caps), and the layer it selects exists.
   */
  lemma LayersUseOnlyFn1(l: nat, row: nat, col: nat)
    requires l < LayerCount && row < Rows && col < Cols
    ensures IsFn(GetKeycode(l, row, col)) <==> Cell(row, col) == Cell(2, A)
    ensures GetKeycode(l, 2, A) == KC_FN1
    ensures FnLayer(FnIndex(KC_FN1)) < LayerCount
  {
    Fn1Cell(l);
    if IsGap(Cell(row, col)) {
      NoFnInGaps(l, row, col);
    } else {
      FnOnlyAtFn1Cell(l, row, col);
    }
  }

  /**
   * Fn keys 2 to 7 name layers that the table does not define; a dispatcher
   * that followed one would read past the end of `keymaps`.
   */
  lemma FnLayersPastTable(index: nat)
    requires LayerCount <= index < |FnLayerTable()|
    ensures FnLayer(index) >= LayerCount
  {
  }
}
