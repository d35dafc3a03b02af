# learn-opengl: input state machine and frame dispatch

A Dafny model of the part of the learn-opengl demo (`main.c`) that has logic of
its own. The demo opens a window and draws one of three scenes: a square, a
triangle, or a textured quad. Keyboard input switches between them. The model covers:

- the application context (`struct context`) and the global running flag
  `g__running`;
- `process_keydown`, the key-to-state transition function;
- `handle_input`, which drains SDL's event queue in arrival order;
- the frame loop of `main`, which picks the polygon mode and the render routine
  each frame;
- the shader and texture slots `texture_render` uses;
- the labels the OpenGL debug callback prints (`_gl_source`, `_gl_type`,
  `_gl_severity`).

The main result is an invariant. From the start, `variation` is -1 until key `3`
is first pressed and stays in [0, 2] after that (`MinusOneUntilThree` with
`ReachableIsWellFormed`). The texture state is only ever
entered with a variation in [0, 2]. So `shader_ids[variation]` in
`texture_render` reads one of the three slots `texture_setup` filled.

Layout:

- `sdl.dfy` (module `Sdl`): SDL key codes, event types and the event record, with
  the numeric values of SDL2's headers.
- `input.dfy` (module `Input`): the pure state machine. It holds `KeyStep`,
  `EventStep`, `Fold` (a whole queue), the invariant `WellFormed` and the lemmas
  about key presses.
- `render.dfy` (module `Render`): per-frame dispatch (`Dispatch`), the
  textured-quad choices (`TexturePassOf`), the frame loop as a function of the
  event batches (`Run`) and the lemmas about when the loop stops.
- `app.dfy` (module `App`): the imperative side. It has the classes `Context`,
  `Globals` and `EventQueue`, and the methods `Init`, `ProcessKeydown`,
  `HandleInput` and `RunDemo`. `ProcessKeydown`, `HandleInput` and `RunDemo` are
  proved against the pure model.
- `gl_debug.dfy` (module `GlDebug`): the three label functions over `GLenum`.
  Enumerant values follow the KHR_debug extension (OpenGL 4.3, section 20).

Two facts about the code that the model makes explicit:

- Key `3` increments `variation` and resets it to 0 once it reaches 3. On
  [-1, 2] this is the successor modulo 3 (`NextVariation`'s contract); outside
  [-1, 2] they differ everywhere except at 5, 8, 11, ... (values that are 2
  modulo 3), but the program never holds such a value.
- The context starts in `STATE_INVALID` (main.c:38, main.c:620). In that state
  no render routine runs until `1`, `2` or `3` is pressed.

## Model

| member | source | states |
|---|---|---|
| Input.NextVariation | main.c:217-224 | from any value >= -1 the new variation is in [0, 2], and on [-1, 2] it is the successor modulo 3 |
| Input.KeyStep | main.c:203-235 | field by field: Escape clears running, `1`/`2`/`3` set the state, `3` advances the variation, `w`/`r` flip their flag; every other field is kept |
| Input.EventStep | main.c:244-252 | a quit event or Escape clears running and changes nothing else; an event that is neither quit nor key-down changes nothing |
| Input.Fold | main.c:242-253 | draining a queue keeps the invariant; running stays set iff it was set and no event in the queue asks to quit |
| Input.KeyStepKeepsWellFormed | main.c:217-224 | every key press keeps `-1 <= variation <= 2`, a valid index in the texture state, and -1 in the invalid state |
| Input.FoldAppend | main.c:242-253 | draining two queues in turn equals draining their concatenation |
| Input.MinusOneUntilThree | main.c:217-224 | from a well-formed context, `variation` is -1 after a queue of events iff it was -1 before and no event in the queue is a press of `3` |
| Input.ReachableIsWellFormed | main.c:620 | every context reached from the start satisfies the invariant, so in the texture state the variation is in [0, 2] |
| Input.SelectKeys | main.c:211-216 | `1` and `2` set the state to square and triangle and change nothing else |
| Input.ToggleTwice | main.c:225-230 | `w` and `r` each change the context, and pressing the same one twice restores it |
| Input.UnhandledKeyIsNoop | main.c:231-233 | a key with no case changes nothing |
| Input.ThreePressesCycle | main.c:217-224 | three presses of `3` select the texture state and leave the variation at its old value modulo 3 |
| Input.PressesFromStart | main.c:183 | n presses of `3` from the start give the texture state with variation (n - 1) mod 3, i.e. 0, 1, 2, 0, ... |
| Render.TexturePassOf | main.c:574-605 | the shader slot is the variation; texture unit i is bound to texture slot i; a second unit is bound exactly when the variation is 2; rotation follows the flag |
| Render.Dispatch | main.c:654-669 | polygon mode is LINE iff wireframes are on; exactly one render routine runs, chosen by the state, and none in the invalid state |
| Render.TexturePassUsesSetSlots | main.c:558-576 | on a well-formed context the textured quad uses only shader slots 0-2 and texture slots 0-1 |
| Render.Run | main.c:645-673 | the loop keeps the invariant, draws at most one frame per batch, and ends only when running is cleared or the batches run out |
| Render.QuitEndsLoop | main.c:646-650 | after a quit event or Escape in batch i, no frame after frame i is drawn, and running ends cleared |
| Render.NoQuitKeepsDrawing | main.c:646-673 | while no batch before i asks to quit, frame i is drawn |
| Render.DrawsUseSetSlots | main.c:656-667 | every textured frame the loop draws uses only shader slots 0-2 and texture slots 0-1, the ones `texture_setup` filled |
| Render.FirstQuitIsLastFrame | main.c:646-673 | when batch i holds the first request to quit and the loop is running, exactly i + 1 frames are drawn, so frame i is the last one |
| App.Context.constructor | main.c:620 | the zero context: invalid state, variation 0, both flags false |
| App.Globals.constructor | main.c:68 | `g__running` starts false |
| App.EventQueue.Poll | main.c:242 | reports whether an event was pending and removes the oldest one |
| App.Init | main.c:183 | sets variation to -1 and leaves the other fields |
| App.ProcessKeydown | main.c:203-235 | the new context and flag are `KeyStep` of the old ones |
| App.HandleInput | main.c:237-254 | empties the queue; the new context is the left fold of the events in arrival order |
| App.RunDemo | main.c:617-678 | the draws and final state of `main`'s loop are those of `Run` from the started context |
| GlDebug.SourceLabel | main.c:87-100 | each listed source gets its label from the source table, every other value gets "???" |
| GlDebug.TypeLabel | main.c:102-118 | each listed message type gets its label from the type table, every other value gets "???" |
| GlDebug.SeverityLabel | main.c:120-131 | each listed severity gets its label from the severity table, every other value gets "???" |
| GlDebug.SourceLabelDistinguishes | main.c:87-100 | two different sources share a label only when neither is listed |
| GlDebug.TypeLabelDistinguishes | main.c:102-118 | two different message types share a label only when neither is listed |
| GlDebug.SeverityLabelDistinguishes | main.c:120-131 | two different severities share a label only when neither is listed |

## Left out

- All OpenGL and SDL calls, including buffer, vertex-array, texture and shader
  creation, draws, window and context setup, buffer swap and `SDL_Delay`. These
  are foreign calls. A frame is modelled only by the choices it makes
  (`FrameDraw`), and render targets are modelled only by which of their slots
  `texture_setup` fills.
- `gl_check_error`: it only drains the driver's error queue.
- `read_file_to_buffer`, `shader_compile`, `shader_create`, `texture_create`: file
  I/O, memory allocation and driver calls.
- The floating-point parts: the time-dependent green channel of `square_render`,
  `SDL_GetTicks`, and the rotation matrix of `texture_render`. The model keeps
  only whether the rotation is applied.
- `_signal_handler` and `stack_trace` (trace.h): asynchronous signals and the
  Windows symbol API. An interrupt that clears `g__running` between frames is
  not modelled.
- `_gl_debug_msg_cb` and all other console output. The labels it prints are
  modelled; the formatting is not.
- RunDemo: the source loop has no bound. The model takes the events of each
  frame as a finite script, so the loop also ends when the script runs out.
  SDL's queue filling in the background is modelled as one batch arriving
  before each frame polls.
- Input.KeyStep: `variation` is an unbounded integer, so the C `int` overflow of
  `ctx->variation++` is not modelled. Every reachable value is in [-1, 2]
  (`ReachableIsWellFormed`), so the overflow cannot happen.
