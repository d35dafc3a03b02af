/** The imperative side of main.c: the context object and the global running
    flag that `process_keydown` and `handle_input` update in place, SDL's event
    queue as `SDL_PollEvent` drains it, and the frame loop of `main`.
    `ProcessKeydown`, `HandleInput` and `RunDemo` are proved against the pure
    model in Input and Render. */
module App {
  import opened Sdl
  import opened Input
  import opened Render

  /** `struct context` without its window, GL context and GPU handle fields. */
  class Context {
    var state: State
    var variation: int
    var rotate: bool
    var drawWireframes: bool

    /** `struct context ctx = {0}`. */
    constructor ()
      ensures state == Invalid && variation == 0 && !rotate && !drawWireframes
    {
      state := Invalid;
      variation := 0;
      rotate := false;
      drawWireframes := false;
    }
  }

  /** The file-scope globals of main.c: `g__running`, zero-initialised. */
  class Globals {
    var running: bool

    constructor ()
      ensures !running
    {
      running := false;
    }
  }

  /** SDL's internal event queue, in arrival order. */
  class EventQueue {
    var pending: seq<Event>

    constructor ()
      ensures pending == []
    {
      pending := [];
    }

    /** Events reaching the queue from the window system. */
    method Arrive(batch: seq<Event>)
      modifies this
      ensures pending == old(pending) + batch
    {
      pending := pending + batch;
    }

    /** `SDL_PollEvent`: report whether an event was pending and, if so, remove
        and return the oldest one. */
    method Poll() returns (got: bool, e: Event)
      modifies this
      ensures got <==> old(pending) != []
      ensures got ==> e == old(pending)[0] && pending == old(pending)[1..]
      ensures !got ==> pending == old(pending)
    {
      got := pending != [];
      if got {
        e := pending[0];
        pending := pending[1..];
      } else {
        e := Event(0, 0);
      }
    }
  }

  /** The state input handling sees in `ctx` and the globals. */
  function Snap(ctx: Context, g: Globals): (r: Snapshot)
    reads ctx, g
  {
    Snapshot(ctx.state, ctx.variation, ctx.rotate, ctx.drawWireframes, g.running)
  }

  /** The part of `init` that is not window or GL setup: `variation = -1`. */
  method Init(ctx: Context)
    modifies ctx
    ensures ctx.variation == -1
    ensures ctx.state == old(ctx.state) && ctx.rotate == old(ctx.rotate)
    ensures ctx.drawWireframes == old(ctx.drawWireframes)
  {
    ctx.variation := -1;
  }

  /** `process_keydown`. */
  method ProcessKeydown(ctx: Context, g: Globals, key: Keycode)
    modifies ctx, g
    ensures Snap(ctx, g) == KeyStep(old(Snap(ctx, g)), key)
  {
    if key == KeyEscape {
      g.running := false;
    } else if key == Key1 {
      ctx.state := RenderSquare;
    } else if key == Key2 {
      ctx.state := RenderTriangle;
    } else if key == Key3 {
      ctx.state := RenderTexture;
      ctx.variation := ctx.variation + 1;
      if ctx.variation >= 3 {
        ctx.variation := 0;
      }
    } else if key == KeyW {
      ctx.drawWireframes := !ctx.drawWireframes;
    } else if key == KeyR {
      ctx.rotate := !ctx.rotate;
    }
    // any other key is only logged
  }

  /** `handle_input`: poll until the queue is empty, applying each event in
      arrival order. */
  method HandleInput(ctx: Context, g: Globals, q: EventQueue)
    modifies ctx, g, q
    ensures q.pending == []
    ensures Snap(ctx, g) == Fold(old(Snap(ctx, g)), old(q.pending))
  {
    var got, e := q.Poll();
    while got
      invariant got ==> Fold(Snap(ctx, g), [e] + q.pending) == Fold(old(Snap(ctx, g)), old(q.pending))
      invariant !got ==> q.pending == [] && Snap(ctx, g) == Fold(old(Snap(ctx, g)), old(q.pending))
      decreases |q.pending| + (if got then 1 else 0)
    {
      assert ([e] + q.pending)[1..] == q.pending;
      if e.kind == QuitEvent {
        g.running := false;
      } else if e.kind == KeyDownEvent {
        ProcessKeydown(ctx, g, e.sym);
      }
      got, e := q.Poll();
    }
  }

  /** `main` from the zero context on: `init`, set `g__running`, then run the
      frame loop, where the events arriving before frame i are `frames[i]`.
      Returns what each frame drew and the final state. */
  method RunDemo(frames: seq<seq<Event>>) returns (draws: seq<FrameDraw>, last: Snapshot)
    ensures Trace(draws, last) == Run(Started, frames)
  {
    var ctx := new Context();
    var g := new Globals();
    var q := new EventQueue();
    Init(ctx);
    g.running := true;
    draws := [];
    var i := 0;
    while g.running && i < |frames|
      invariant 0 <= i <= |frames|
      invariant WellFormed(Snap(ctx, g))
      invariant q.pending == []
      invariant Run(Started, frames) == Trace(draws + Run(Snap(ctx, g), frames[i..]).draws,
                                              Run(Snap(ctx, g), frames[i..]).last)
      decreases |frames| - i
    {
      ghost var before := Snap(ctx, g);
      assert frames[i..][0] == frames[i] && frames[i..][1..] == frames[i + 1..];
      q.Arrive(frames[i]);
      assert q.pending == frames[i];
      HandleInput(ctx, g, q);
      assert Snap(ctx, g) == Fold(before, frames[i]);
      var draw := Dispatch(Snap(ctx, g));
      assert Run(before, frames[i..]).draws == [draw] + Run(Snap(ctx, g), frames[i + 1..]).draws;
      draws := draws + [draw];
      i := i + 1;
    }
    last := Snap(ctx, g);
  }
}
