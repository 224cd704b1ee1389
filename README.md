# Phantom keymap

A Dafny model of the keymap of the Phantom keyboard controller
(`keyboard/phantom/keymap.c`). The file is a table of constants and
three small read accessors, so the model is pure: datatypes, functions and
lemmas.

- `Keycodes` has one constructor per keycode the two layers use, and the
  eight Fn keys `KC_FN0`..`KC_FN7`.
- `Layout` models the `KEYMAP` macro. The macro maps the 92 keys of a
  layer, in the order they appear on the physical board, onto a scan
  matrix of 6 rows and 17 columns (columns `A`..`Q`).
  - The macro's parameter list is `VisualLine`/`Param`. Each parameter
    `K<row><col>` names the cell it is wired to.
  - The macro body is `IsGap` plus `ParamIndex`. `ParamIndex` gives the
    position of the parameter the body places at a cell.
  - The ten gap cells hold `KC_NO`.
  - The lemmas prove that the parameter list is a bijection onto the 92
    non-gap cells. They also prove that the macro, `Transform`, and its
    read-back `Visual` are mutually inverse.
- `Keymap` models the `keymaps` table (layer 0, the default layer, and
  layer 1, which replaces eleven keys with Sleep, media and
  volume keys, Calculator and Caps Lock), the `fn_layer` and `fn_keycode` tables, and
  the accessors `keymap_get_keycode`, `keymap_fn_layer` and
  `keymap_fn_keycode`. Each layer's arguments are written as
  the six lines of the source, and `LayerLayout` concatenates them.

The table differs in two places from what a reader might expect. The model
follows the table in both:
- Cell [2][A] holds `FN1` in both layers. Layer 0's printed diagram labels
  that key Caps.
- `fn_layer` sends Fn keys 2 to 7 to layers 2 to 7, which the table does
  not define. Only `FN1` is used, and it selects layer 1, which exists.

## Model

| member | source | states |
|---|---|---|
| Layout.Transform | keyboard/phantom/keymap.c:33-48 | the macro yields 6 rows of 17 keycodes, with `KC_NO` in each of the ten gap cells |
| Layout.TransformPlacesKey | keyboard/phantom/keymap.c:33-48 | the key at visual position i lands at the in-matrix cell its parameter `K<row><col>` names |
| Layout.VisualOfTransform | keyboard/phantom/keymap.c:33-48 | reading the matrix back parameter by parameter gives the 92 arguments unchanged |
| Layout.TransformOfVisual | keyboard/phantom/keymap.c:33-48 | a 6x17 matrix whose gaps hold `KC_NO` is the macro applied to its own read-back |
| Layout.TransformInjective | keyboard/phantom/keymap.c:33-48 | different argument lists give different matrices |
| Layout.VisualLine | keyboard/phantom/keymap.c:34-39 | the six lines of the parameter list have 16, 17, 17, 16, 15 and 11 parameters; that the cells they name are exactly the key cells is `ParamIsKey` and `ParamCellsAreKeys` |
| Layout.ParamIndex | keyboard/phantom/keymap.c:42-47 | the body places at each non-gap cell a parameter position below 92; that it is the parameter naming the cell is `KeysAreParams` |
| Layout.ParamIsKey | keyboard/phantom/keymap.c:34-47 | every parameter names a non-gap cell, and the body places that parameter at that cell |
| Layout.KeysAreParams | keyboard/phantom/keymap.c:42-47 | every non-gap cell is fed by the parameter that names it |
| Layout.ParamIndexInjective | keyboard/phantom/keymap.c:42-47 | the body places different parameters at different cells |
| Layout.ParamsInjective | keyboard/phantom/keymap.c:34-39 | no two parameters name the same cell |
| Layout.ParamCellsCount | keyboard/phantom/keymap.c:34-39 | the first n parameters name exactly n distinct cells |
| Layout.ParamCellsAreKeys | keyboard/phantom/keymap.c:34-47 | the cells the 92 parameters name are exactly the non-gap cells |
| Layout.GapCellsAreGaps | keyboard/phantom/keymap.c:42-46 | the gaps are row 0 columns D, E, F, G, I, J; row 1 columns B, M; row 2 column M; row 4 column M |
| Layout.GapCellsCount | keyboard/phantom/keymap.c:42-46 | there are ten gap cells |
| Layout.CellPartition | keyboard/phantom/keymap.c:33-48 | 92 key cells, all named by parameters, plus 10 gaps make up all 102 cells |
| Layout.ParamIndexLine | keyboard/phantom/keymap.c:34-47 | apart from `K5B`, the parameter for a cell in row r is on visual line 5 - r |
| Layout.ParamIndexMonotone | keyboard/phantom/keymap.c:34-47 | within a row (apart from `K5B`), parameter order follows column order |
| Layout.VisualLineFeedsRow | keyboard/phantom/keymap.c:34-47 | visual line k feeds row 5 - k, except that position 16 (`K5B`, first on line 35) goes to [5][B] |
| Layout.VisualLineKeepsOrder | keyboard/phantom/keymap.c:34-47 | two arguments on one visual line (not `K5B`) land in one row, left to right in the same order |
| Keymap.Layer0Line | keyboard/phantom/keymap.c:121-127 | each line of layer 0 has as many arguments as the matching line of the macro's parameter list |
| Keymap.Layer1Line | keyboard/phantom/keymap.c:147-153 | each line of layer 1 has as many arguments as the matching line of the macro's parameter list |
| Keymap.Keymaps | keyboard/phantom/keymap.c:100-156 | the table has two layers, each a 6x17 matrix with `KC_NO` in every gap |
| Keymap.LayerReadsBack | keyboard/phantom/keymap.c:100-156 | reading a layer back in visual order gives the arguments it was written with |
| Keymap.GetKeycode | keyboard/phantom/keymap.c:159-162 | `keymaps[layer][row][col]` is `KC_NO` at a gap, and otherwise the layer's argument for that cell's parameter |
| Keymap.GetKeycodeOnLine | keyboard/phantom/keymap.c:159-162 | at a key cell, the keycode is the argument at that cell's position on its visual line |
| Keymap.FnLayer | keyboard/phantom/keymap.c:54-167 | `keymap_fn_layer(i)`, a read of `fn_layer`, is i for each of the eight Fn keys |
| Keymap.FnKeycode | keyboard/phantom/keymap.c:67-172 | `keymap_fn_keycode(i)`, a read of `fn_keycode`, is `KC_NO` for each of the eight Fn keys |
| Keymap.Layer1FromLayer0 | keyboard/phantom/keymap.c:147-153 | each line of layer 1 is the matching line of layer 0 with eleven keys replaced: Sleep, Mute, Volume Down and Up, five media-transport keys, Calculator and Caps Lock |
| Keymap.LayersDiffer | keyboard/phantom/keymap.c:121-153 | the layers hold different keycodes at a cell if and only if it is one of the eleven changed cells |
| Keymap.ChangedBottomRow | keyboard/phantom/keymap.c:121-153 | [5][Q] is Pause in layer 0 and Sleep in layer 1 |
| Keymap.ChangedDigitRow | keyboard/phantom/keymap.c:121-153 | [4][J..L] are 0, -, = in layer 0 and Mute, Volume Down, Volume Up in layer 1 |
| Keymap.ChangedTabRowLetters | keyboard/phantom/keymap.c:121-153 | [3][J], [3][K] are O, P in layer 0 and Media Stop, Media Play in layer 1 |
| Keymap.ChangedTabRowBrackets | keyboard/phantom/keymap.c:121-153 | [3][L..N] are [, ], \ in layer 0 and Media Previous, Next, Select in layer 1 |
| Keymap.ChangedShiftRow | keyboard/phantom/keymap.c:121-153 | [1][E] is C in layer 0 and Calculator in layer 1; [1][N] is Right Shift in layer 0 and Caps Lock in layer 1 |
| Keymap.ZeroArgumentsAreDigitZero | keyboard/phantom/keymap.c:121-153 | the unlabelled keys [2][O..Q], [1][O] and [1][Q] hold `KC_0`, not `KC_NO`, in both layers |
| Keymap.LayersUseOnlyFn1 | keyboard/phantom/keymap.c:121-153 | in either layer a cell holds an Fn key if and only if it is [2][A]; that key is `FN1`, and its layer exists |
| Keymap.FnLayersPastTable | keyboard/phantom/keymap.c:54-63 | Fn keys 2 to 7 select layers at or past the number of layers defined |

## Left out

- Flash storage: `PROGMEM` and `pgm_read_byte` are modelled as plain reads of immutable values.
- Numeric keycode values: keycodes are constructors. No property here depends on their bytes, only on their equality.
- `MATRIX_ROWS` and `MATRIX_COLS` come from the board's configuration header (not part of this model). They are fixed at 6 and 17.
- Keymap.GetKeycode, Keymap.FnLayer, Keymap.FnKeycode: the `uint8_t` arguments become `nat`, with preconditions that keep them in range. The C code does no bounds check, so an out-of-range read is undefined and is not modelled.
- Layout.Transform: the preprocessor rejects any argument count other than 92 at build time. That check is the precondition `|visual| == VisualCount`.
- Keycodes.FnIndex: the numbering `KC_FN<i>` is Fn slot i comes from the keycode header, which is not part of this model; it is stated as a definition.
- The layer-switching logic in `layer.c`, and the debug and print headers: not part of this model.
