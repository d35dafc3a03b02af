/** The per-frame decisions of main.c's frame loop: which polygon mode is set,
    which render routine runs, and, for the textured quad, which shader slot and
    texture units `texture_render` uses. The graphics calls themselves are not
    modelled; a frame is described by the choices it makes. */
module Render {
  import opened Sdl
  import opened Input

  /** The capacity of `shader_ids` and `texture_ids` in `struct render_target`. */
  const HandleSlots := 10
  /** `texture_setup` fills `shader_ids[0..3]` and `texture_ids[0..2]`. */
  const TextureShadersSet := 3
  const TexturesSet := 2

  datatype PolygonMode = Fill | Line

  /** The choices `texture_render` makes: the `shader_ids` slot it uses, the
      `texture_ids` slots it binds (the i-th to texture unit i), and whether the
      transform is the time-dependent rotation rather than the identity. */
  datatype TexturePass = TexturePass(shaderSlot: nat, textureSlots: seq<nat>, rotated: bool)

  /** The render routine one frame calls; `NoRender` when the switch has no case. */
  datatype Renderer = NoRender | SquareRender | TriangleRender | TextureRender(pass: TexturePass)

  datatype FrameDraw = FrameDraw(mode: PolygonMode, renderer: Renderer)

  /** `texture_render`: `variation` indexes `shader_ids`, which C leaves undefined
      outside the array. */
  function TexturePassOf(variation: int, rotate: bool): (p: TexturePass)
    requires 0 <= variation < HandleSlots
    ensures p.shaderSlot == variation && p.rotated == rotate
    ensures 1 <= |p.textureSlots| <= 2 && p.textureSlots[0] == 0
    ensures |p.textureSlots| == 2 <==> variation == 2
    ensures forall i :: 0 <= i < |p.textureSlots| ==> p.textureSlots[i] == i
  {
    TexturePass(variation, if variation == 2 then [0, 1] else [0], rotate)
  }

  /** The body of the frame loop after input: the polygon mode from the wireframe
      flag, then the render routine for the current state. */
  function Dispatch(s: Snapshot): (d: FrameDraw)
    requires s.state == RenderTexture ==> 0 <= s.variation < HandleSlots
    ensures d.mode == Line <==> s.wireframes
    ensures d.renderer == NoRender <==> s.state == Invalid
    ensures d.renderer == SquareRender <==> s.state == RenderSquare
    ensures d.renderer == TriangleRender <==> s.state == RenderTriangle
    ensures d.renderer.TextureRender? <==> s.state == RenderTexture
    ensures d.renderer.TextureRender? ==> d.renderer.pass == TexturePassOf(s.variation, s.rotate)
  {
    var mode := if s.wireframes then Line else Fill;
    match s.state
    case Invalid => FrameDraw(mode, NoRender)
    case RenderSquare => FrameDraw(mode, SquareRender)
    case RenderTriangle => FrameDraw(mode, TriangleRender)
    case RenderTexture => FrameDraw(mode, TextureRender(TexturePassOf(s.variation, s.rotate)))
  }

  /** On a well-formed context the textured quad only uses the shader and texture
      slots `texture_setup` filled. */
  lemma TexturePassUsesSetSlots(s: Snapshot)
    requires WellFormed(s) && s.state == RenderTexture
    ensures Dispatch(s).renderer.TextureRender?
    ensures Dispatch(s).renderer.pass.shaderSlot < TextureShadersSet
    ensures forall i :: 0 <= i < |Dispatch(s).renderer.pass.textureSlots| ==>
              Dispatch(s).renderer.pass.textureSlots[i] < TexturesSet
  {
  }

  /** What a run of the frame loop produces: one draw per frame, and the context
      it ends in. */
  datatype Trace = Trace(draws: seq<FrameDraw>, last: Snapshot)

  /** The frame loop `while (g__running)` over a script of event batches, the
      i-th batch being the events pending when frame i polls. Each frame drains its
      batch, then draws; the loop stops at the first check that finds the flag
      cleared, or when the script runs out. */
  function Run(s: Snapshot, script: seq<seq<Event>>): (t: Trace)
    requires WellFormed(s)
    ensures WellFormed(t.last)
    ensures |t.draws| <= |script|
    ensures !t.last.running || |t.draws| == |script|
    decreases |script|
  {
    if !s.running || script == [] then Trace([], s)
    else
      var next := Fold(s, script[0]);
      var rest := Run(next, script[1..]);
      Trace([Dispatch(next)] + rest.draws, rest.last)
  }

  /** After a batch `i` that asks to quit, no frame after frame `i` is drawn, and
      running ends cleared. */
  lemma {:induction false} QuitEndsLoop(s: Snapshot, script: seq<seq<Event>>, i: nat, j: nat)
    requires WellFormed(s)
    requires i < |script| && j < |script[i]| && RequestsQuit(script[i][j])
    ensures |Run(s, script).draws| <= i + 1
    ensures !Run(s, script).last.running
    decreases i
  {
    if s.running {
      var next := Fold(s, script[0]);
      if i == 0 {
        assert !next.running;
      } else {
        QuitEndsLoop(next, script[1..], i - 1, j);
      }
    }
  }

  /** While no batch asks to quit, every frame up to batch `i` is drawn. */
  lemma {:induction false} NoQuitKeepsDrawing(s: Snapshot, script: seq<seq<Event>>, i: nat)
    requires WellFormed(s) && s.running
    requires i < |script|
    requires forall k, j :: 0 <= k < i && 0 <= j < |script[k]| ==> !RequestsQuit(script[k][j])
    ensures |Run(s, script).draws| >= i + 1
    decreases i
  {
    if i > 0 {
      var next := Fold(s, script[0]);
      assert next.running;
      NoQuitKeepsDrawing(next, script[1..], i - 1);
    }
  }

  /** Every frame the loop draws renders the textured quad, if at all, only with
      the shader and texture slots `texture_setup` filled. */
  lemma {:induction false} DrawsUseSetSlots(s: Snapshot, script: seq<seq<Event>>, k: nat)
    requires WellFormed(s)
    requires k < |Run(s, script).draws|
    ensures Run(s, script).draws[k].renderer.TextureRender? ==>
              && Run(s, script).draws[k].renderer.pass.shaderSlot < TextureShadersSet
              && forall i :: 0 <= i < |Run(s, script).draws[k].renderer.pass.textureSlots| ==>
                   Run(s, script).draws[k].renderer.pass.textureSlots[i] < TexturesSet
    decreases k
  {
    var next := Fold(s, script[0]);
    if k > 0 {
      DrawsUseSetSlots(next, script[1..], k - 1);
    }
  }

  /** When batch `i` holds the first request to quit, frame `i` is the last one
      drawn: exactly `i + 1` frames are drawn. */
  lemma FirstQuitIsLastFrame(s: Snapshot, script: seq<seq<Event>>, i: nat, j: nat)
    requires WellFormed(s) && s.running
    requires i < |script| && j < |script[i]| && RequestsQuit(script[i][j])
    requires forall k, l :: 0 <= k < i && 0 <= l < |script[k]| ==> !RequestsQuit(script[k][l])
    ensures |Run(s, script).draws| == i + 1
  {
    QuitEndsLoop(s, script, i, j);
    NoQuitKeepsDrawing(s, script, i);
  }
}
