/** The few SDL2 definitions the input handling of main.c depends on: key codes
    (`SDL_Keycode`, a signed 32-bit integer), event types (an unsigned 32-bit
    integer) and the event record that `SDL_PollEvent` fills in. The numeric
    values are those of SDL2's public headers. */
module Sdl {

  /** `SDL_Keycode` is a `Sint32`. */
  newtype Keycode = k: int | -0x8000_0000 <= k < 0x8000_0000

  /** The type tag of an `SDL_Event` is a `Uint32`. */
  newtype EventType = t: int | 0 <= t < 0x1_0000_0000

  const KeyEscape: Keycode := 27   // SDLK_ESCAPE == '\x1B'
  const Key1: Keycode := 49        // SDLK_1 == '1'
  const Key2: Keycode := 50        // SDLK_2 == '2'
  const Key3: Keycode := 51        // SDLK_3 == '3'
  const KeyR: Keycode := 114       // SDLK_r == 'r'
  const KeyW: Keycode := 119       // SDLK_w == 'w'

  const QuitEvent: EventType := 0x100     // SDL_QUIT
  const KeyDownEvent: EventType := 0x300  // SDL_KEYDOWN

  /** An `SDL_Event` as main.c reads it: its type tag and, for a key-down event,
      the key code in `e.key.keysym.sym`. For other event types `sym` is not read. */
  datatype Event = Event(kind: EventType, sym: Keycode)

  /** A key press as SDL reports it. */
  function Press(key: Keycode): (e: Event) {
    Event(KeyDownEvent, key)
  }
}
