/**
 * The frame loop of sph::application (source/application.cpp:138-144,
 * 312-370, include/application.hpp:53-70). Every GL and GLFW call is appended
 * to `trace`; timing and the title's text are not modelled, the title event
 * records the frame number it shows.
 *
 * The window's close flag (glfwWindowShouldClose) is kept as the field
 * `closeRequested`; whether the user asks to close during a poll is the
 * boolean handed to `PollInput`.
 */
module Application {
  import opened Layout
  import opened Linking
  import opened Frames

  /** The first poll at which a close request arrives. */
  function FirstClose(input: seq<bool>): (k: nat)
    requires true in input
    ensures k < |input| && input[k]
    ensures forall j :: 0 <= j < k ==> !input[j]
  {
    if input[0] then 0
    else
      assert true in input[1..] by {
        var i :| 0 <= i < |input| && input[i];
        assert input[1..][i - 1] == input[i];
      }
      1 + FirstClose(input[1..])
  }

  class App {
    /** render_program_handle, compute_program_handle[0..3), the vao and the particle buffer. */
    const config: Config

    /** frame_number */
    var frameNumber: nat
    /** paused: declared and initialized, never read or written by the loop. */
    var paused: bool
    /** scene_id */
    var sceneId: int
    /** The window's close flag, raised by a poll. */
    var closeRequested: bool
    /** Calls issued since construction. */
    var trace: seq<Event>

    /**
     * The object invariant: initialization's link checks passed (as written,
     * they inspect only the render program), and the calls so far are
     * exactly frames 1 .. frameNumber-1, whole.
     */
    ghost predicate Valid()
      reads this
    {
      && |config.compute| == 3
      && InitializeAsWritten(config.render, config.compute) == Pass
      && frameNumber >= 1
      && trace == RunEvents(config, 1, frameNumber - 1)
    }

    /** application(): the field initializers, once the link checks as written have passed. */
    constructor (config: Config)
      requires |config.compute| == 3
      requires InitializeAsWritten(config.render, config.compute) == Pass
      ensures Valid()
      ensures this.config == config
      ensures frameNumber == 1 && !paused && sceneId == 0
      ensures !closeRequested && trace == []
    {
      this.config := config;
      frameNumber := 1;
      paused := false;
      sceneId := 0;
      closeRequested := false;
      trace := [];
    }

    /** glfwPollEvents: may raise the close flag, which then stays raised. */
    method PollInput(closeNow: bool)
      modifies this`trace, this`closeRequested
      ensures trace == old(trace) + [PollEvents]
      ensures closeRequested == (old(closeRequested) || closeNow)
    {
      trace := trace + [PollEvents];
      closeRequested := closeRequested || closeNow;
    }

    /** invoke_compute_shader: the three stages, each bind, dispatch, barrier, unbind. */
    method InvokeComputeShader()
      requires |config.compute| == 3
      modifies this`trace
      ensures trace == old(trace) + StepEvents(config)
    {
      for i := 0 to 3
        invariant trace == old(trace) + StagesEvents(config.compute[..i], config.buffer)
      {
        trace := trace + [UseProgram(config.compute[i].handle)];
        trace := trace + [BindStorageBase(0, config.buffer)];
        trace := trace + [DispatchCompute(SphGroupCount(), 1, 1)];
        trace := trace + [StorageBarrier];
        trace := trace + [UnbindStorage];
        assert config.compute[..i + 1][..i] == config.compute[..i];
      }
      assert config.compute[..3] == config.compute;
    }

    /** render(): clear, draw all particles as points, swap. */
    method Render()
      modifies this`trace
      ensures trace == old(trace) + RenderEvents(config)
    {
      trace := trace + [Clear];
      trace := trace + [UseProgram(config.render.handle)];
      trace := trace + [BindVertexArray(config.vao)];
      trace := trace + [DrawPoints(0, ParticleCount)];
      trace := trace + [BindVertexArray(0)];
      trace := trace + [SwapBuffers];
    }

    /**
     * main_loop: poll, one compute step, render, set the title showing the
     * current frame number, then count the frame. `paused` plays no part.
     */
    method MainLoop(closeNow: bool)
      requires Valid()
      modifies this
      ensures Valid()
      ensures trace == old(trace) + FrameEvents(config, old(frameNumber))
      ensures frameNumber == old(frameNumber) + 1
      ensures closeRequested == (old(closeRequested) || closeNow)
      ensures paused == old(paused) && sceneId == old(sceneId)
    {
      FrameAfter(trace, config, frameNumber);
      PollInput(closeNow);
      InvokeComputeShader();
      Render();
      trace := trace + [SetTitle(frameNumber)];
      frameNumber := frameNumber + 1;
    }

    /**
     * run: whole frames until the close flag is up. The flag is looked at only
     * between frames, so the frame whose poll raised it still runs to the end.
     * `input[k]` says whether the k-th poll raises it; only runs that end are
     * modelled.
     */
    method Run(input: seq<bool>) returns (ghost frames: nat)
      requires Valid()
      requires closeRequested || true in input
      modifies this
      ensures Valid() && closeRequested
      ensures frames == if old(closeRequested) then 0 else FirstClose(input) + 1
      ensures frameNumber == old(frameNumber) + frames
      ensures trace == old(trace) + RunEvents(config, old(frameNumber), frames)
      ensures paused == old(paused) && sceneId == old(sceneId)
    {
      var k: nat := 0;
      while !closeRequested
        invariant Valid()
        invariant old(closeRequested) ==> closeRequested
        invariant old(closeRequested) ==> k == 0
        invariant !old(closeRequested) ==> k <= FirstClose(input) + 1
        invariant !old(closeRequested) ==> (closeRequested <==> k == FirstClose(input) + 1)
        invariant frameNumber == old(frameNumber) + k
        invariant trace == old(trace) + RunEvents(config, old(frameNumber), k)
        invariant paused == old(paused) && sceneId == old(sceneId)
        decreases |input| - k
      {
        MainLoop(input[k]);
        k := k + 1;
      }
      frames := k;
    }
  }
}
