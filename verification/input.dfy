/** The input state machine of main.c as pure functions: the effect of one key
    press (`process_keydown`), of one polled event (the switch in `handle_input`)
    and of a whole queue of events, with the invariants that keep the texture
    variation a valid shader index. */
module Input {
  import opened Sdl

  /** `enum state`; `Invalid` is the zero value the context starts in. */
  datatype State = Invalid | RenderSquare | RenderTriangle | RenderTexture

  /** What input handling reads and writes: the non-handle fields of
      `struct context` together with the global running flag `g__running`. */
  datatype Snapshot = Snapshot(
    state: State,
    variation: int,
    rotate: bool,
    wireframes: bool,
    running: bool)

  /** The number of texture shader variants key `3` cycles through. */
  const VariationCount := 3

  /** The context as the frame loop first sees it: zero-initialised, `variation`
      set to -1 by `init`, and `g__running` set just before the loop. */
  const Started := Snapshot(Invalid, -1, false, false, true)

  /** The keys `process_keydown` has a case for. */
  const HandledKeys: set<Keycode> := {KeyEscape, Key1, Key2, Key3, KeyW, KeyR}

  /** The variation after key `3`: increment, then reset to 0 once it reaches 3.
      On every value the program can hold this is the successor modulo 3. */
  function NextVariation(v: int): (r: int)
    ensures -1 <= v ==> 0 <= r < VariationCount
    ensures -1 <= v < VariationCount ==> r == (v + 1) % VariationCount
  {
    if v + 1 >= VariationCount then 0 else v + 1
  }

  /** `process_keydown`: the effect of one key press. */
  function KeyStep(s: Snapshot, key: Keycode): (r: Snapshot)
    ensures r.running == (s.running && key != KeyEscape)
    ensures r.wireframes == (s.wireframes != (key == KeyW))
    ensures r.rotate == (s.rotate != (key == KeyR))
    ensures r.variation == if key == Key3 then NextVariation(s.variation) else s.variation
    ensures r.state == (if key == Key1 then RenderSquare
                        else if key == Key2 then RenderTriangle
                        else if key == Key3 then RenderTexture
                        else s.state)
  {
    if key == KeyEscape then s.(running := false)
    else if key == Key1 then s.(state := RenderSquare)
    else if key == Key2 then s.(state := RenderTriangle)
    else if key == Key3 then s.(state := RenderTexture, variation := NextVariation(s.variation))
    else if key == KeyW then s.(wireframes := !s.wireframes)
    else if key == KeyR then s.(rotate := !s.rotate)
    else s
  }

  /** An event that clears the running flag: the window-close event or Escape. */
  predicate RequestsQuit(e: Event) {
    e.kind == QuitEvent || (e.kind == KeyDownEvent && e.sym == KeyEscape)
  }

  /** The body of the polling loop in `handle_input`: quit and key-down events
      act, every other event type is ignored. */
  function EventStep(s: Snapshot, e: Event): (r: Snapshot)
    ensures e.kind != QuitEvent && e.kind != KeyDownEvent ==> r == s
    ensures RequestsQuit(e) ==> r == s.(running := false)
    ensures r.running == (s.running && !RequestsQuit(e))
  {
    if e.kind == QuitEvent then s.(running := false)
    else if e.kind == KeyDownEvent then KeyStep(s, e.sym)
    else s
  }

  /** What the program can be in: `variation` is -1 before the first `3` and a
      variation index afterwards; the texture state always has a valid index, and
      the invalid state is only ever the initial one. */
  predicate WellFormed(s: Snapshot) {
    && -1 <= s.variation < VariationCount
    && (s.state == RenderTexture ==> 0 <= s.variation)
    && (s.state == Invalid ==> s.variation == -1)
  }

  /** Draining the queue `es` in arrival order: a left fold of `EventStep`. */
  function Fold(s: Snapshot, es: seq<Event>): (r: Snapshot)
    ensures WellFormed(s) ==> WellFormed(r)
    ensures r.running <==> s.running && forall i :: 0 <= i < |es| ==> !RequestsQuit(es[i])
    decreases |es|
  {
    if es == [] then s else Fold(EventStep(s, es[0]), es[1..])
  }

  /** Every key press keeps the invariant. */
  lemma KeyStepKeepsWellFormed(s: Snapshot, key: Keycode)
    requires WellFormed(s)
    ensures WellFormed(KeyStep(s, key))
  {
  }

  /** Draining two queues one after the other is draining their concatenation. */
  lemma {:induction false} FoldAppend(s: Snapshot, a: seq<Event>, b: seq<Event>)
    ensures Fold(s, a + b) == Fold(Fold(s, a), b)
    decreases |a|
  {
    if a != [] {
      assert (a + b)[1..] == a[1..] + b;
      FoldAppend(EventStep(s, a[0]), a[1..], b);
    } else {
      assert a + b == b;
    }
  }

  /** `variation` leaves -1 exactly at the first press of `3` and never returns
      to it; with `WellFormed` it is in [0, 2] from then on. */
  lemma {:induction false} MinusOneUntilThree(s: Snapshot, es: seq<Event>)
    requires WellFormed(s)
    ensures Fold(s, es).variation == -1 <==>
              s.variation == -1 && forall i :: 0 <= i < |es| ==> es[i] != Press(Key3)
    decreases |es|
  {
    if es != [] {
      MinusOneUntilThree(EventStep(s, es[0]), es[1..]);
      forall i | 0 <= i < |es| - 1 ensures es[1..][i] == es[i + 1] { }
    }
  }

  /** Every context the program reaches from its start is well formed, so in the
      texture state `variation` is in [0, 2]. */
  lemma ReachableIsWellFormed(es: seq<Event>)
    ensures WellFormed(Fold(Started, es))
    ensures Fold(Started, es).state == RenderTexture ==> 0 <= Fold(Started, es).variation < VariationCount
  {
  }

  /** Keys `1` and `2` select a render mode and change nothing else. */
  lemma SelectKeys(s: Snapshot)
    ensures KeyStep(s, Key1) == s.(state := RenderSquare)
    ensures KeyStep(s, Key2) == s.(state := RenderTriangle)
  {
  }

  /** `w` and `r` toggle one flag each; pressing the same one twice restores the context. */
  lemma {:induction false} ToggleTwice(s: Snapshot, key: Keycode)
    requires key == KeyW || key == KeyR
    ensures KeyStep(s, key) != s
    ensures Fold(s, [Press(key), Press(key)]) == s
  {
    assert [Press(key), Press(key)][1..] == [Press(key)];
    assert Fold(s, [Press(key), Press(key)]) == Fold(KeyStep(s, key), [Press(key)]);
  }

  /** A key `process_keydown` has no case for changes nothing. */
  lemma UnhandledKeyIsNoop(s: Snapshot, key: Keycode)
    requires key !in HandledKeys
    ensures KeyStep(s, key) == s
  {
  }

  /** Three presses of `3` from a well-formed context select the texture state and
      bring the variation to its value modulo 3: back to itself once it is an
      index, to 2 from the initial -1. */
  lemma {:induction false} ThreePressesCycle(s: Snapshot)
    requires WellFormed(s)
    ensures Fold(s, [Press(Key3), Press(Key3), Press(Key3)])
         == s.(state := RenderTexture, variation := s.variation % VariationCount)
  {
    var p := Press(Key3);
    var s1 := KeyStep(s, Key3);
    var s2 := KeyStep(s1, Key3);
    var s3 := KeyStep(s2, Key3);
    assert [p, p, p][1..] == [p, p];
    assert [p, p][1..] == [p];
    assert Fold(s, [p, p, p]) == Fold(s1, [p, p]) == Fold(s2, [p]) == s3;
  }

  /** `n` presses of `3` from the start yield the variations 0, 1, 2, 0, ... */
  lemma {:induction false} PressesFromStart(n: nat)
    requires n > 0
    ensures Fold(Started, seq(n, _ => Press(Key3)))
         == Started.(state := RenderTexture, variation := (n - 1) % VariationCount)
  {
    var p := Press(Key3);
    if n == 1 {
      assert seq(1, _ => p) == [p];
    } else {
      PressesFromStart(n - 1);
      assert seq(n, _ => p) == seq(n - 1, _ => p) + [p];
      FoldAppend(Started, seq(n - 1, _ => p), [p]);
    }
  }
}
