/** The evdev event-type, key-code, key-state and bus-type constants the daemon uses
    (their values are those of the Linux input subsystem). */
module Ecodes {

  /** Event type of key events. */
  const EV_KEY: int := 1

  const KEY_MUTE: int := 113
  const KEY_VOLUMEDOWN: int := 114
  const KEY_VOLUMEUP: int := 115
  const KEY_POWER: int := 116

  /** Key states carried in a key event's value (`KeyEvent.key_up`, `key_down`, `key_hold`). */
  const KEY_STATE_UP: int := 0
  const KEY_STATE_DOWN: int := 1
  const KEY_STATE_HOLD: int := 2

  /** Bus type of a USB input device. */
  const BUS_USB: int := 3
}
