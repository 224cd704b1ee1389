/**
 * The keycodes named in the Phantom keymap. Their numeric values come from a
 * header that is not part of this model, so a keycode is an atomic value and
 * only the distinctness of the names matters. `KC_NO` is the "no key here"
 * sentinel; `KC_0` is the digit-zero key, a different code.
 */
module Keycodes {

  datatype Keycode =
    | KC_NO
    // digits
    | KC_0 | KC_1 | KC_2 | KC_3 | KC_4 | KC_5 | KC_6 | KC_7 | KC_8 | KC_9
    // letters
    | KC_A | KC_B | KC_C | KC_D | KC_E | KC_F | KC_G | KC_H | KC_I | KC_J | KC_K | KC_L | KC_M
    | KC_N | KC_O | KC_P | KC_Q | KC_R | KC_S | KC_T | KC_U | KC_V | KC_W | KC_X | KC_Y | KC_Z
    // function row and the editing block
    | KC_ESC | KC_F1 | KC_F2 | KC_F3 | KC_F4 | KC_F5 | KC_F6 | KC_F7 | KC_F8 | KC_F9
    | KC_F10 | KC_F11 | KC_F12 | KC_PSCR | KC_SLCK | KC_BRK
    | KC_INS | KC_HOME | KC_PGUP | KC_DEL | KC_END | KC_PGDN
    | KC_UP | KC_LEFT | KC_DOWN | KC_RGHT
    // punctuation and editing
    | KC_GRV | KC_MINS | KC_EQL | KC_BSPC | KC_TAB | KC_LBRC | KC_RBRC | KC_BSLS
    | KC_SCLN | KC_QUOT | KC_ENT | KC_COMM | KC_DOT | KC_SLSH | KC_SPC | KC_CAPS
    // modifiers
    | KC_LSFT | KC_RSFT | KC_LCTL | KC_RCTL | KC_LALT | KC_RALT | KC_LGUI | KC_RGUI | KC_APP
    // system, media and application keys
    | KC_SLEP | KC_MUTE | KC_VOLD | KC_VOLU | KC_MSTP | KC_MPLY | KC_MPRV | KC_MNXT | KC_MSEL
    | KC_CALC
    // the eight Fn keys, whose meaning the Fn tables give
    | KC_FN0 | KC_FN1 | KC_FN2 | KC_FN3 | KC_FN4 | KC_FN5 | KC_FN6 | KC_FN7

  /** True of the eight Fn keys. */
  predicate IsFn(k: Keycode)
  {
    k.KC_FN0? || k.KC_FN1? || k.KC_FN2? || k.KC_FN3? ||
    k.KC_FN4? || k.KC_FN5? || k.KC_FN6? || k.KC_FN7?
  }

  /**
   * The Fn slot a Fn key selects: `KC_FN<i>` is slot i, the index into the
   * `fn_layer` and `fn_keycode` tables. The keycode header that fixes this
   * numbering is not part of this model; it is taken as a definition.
   */
  function FnIndex(k: Keycode): (i: nat)
    requires IsFn(k)
    ensures i < 8
  {
    match k
    case KC_FN0 => 0
    case KC_FN1 => 1
    case KC_FN2 => 2
    case KC_FN3 => 3
    case KC_FN4 => 4
    case KC_FN5 => 5
    case KC_FN6 => 6
    case KC_FN7 => 7
  }
}
