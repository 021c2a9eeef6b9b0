/**
 * The GL calls one frame issues, as a trace of events
 * (source/application.cpp:312-370). A compute step binds each of the three
 * compute programs in turn, binds the particle buffer to storage binding 0,
 * dispatches SPH_GROUP_COUNT work groups, issues a shader-storage barrier and
 * unbinds the buffer; rendering clears, draws the particles as points and
 * swaps; the window title is set last. What the GPU does with these calls is
 * not modelled: each call is an opaque event.
 */
module Frames {
  import opened Layout
  import opened Linking

  /** One host-side call into GLFW or GL. */
  datatype Event =
    | PollEvents                                // glfwPollEvents
    | UseProgram(program: nat)                  // glUseProgram
    | BindStorageBase(binding: nat, buffer: nat) // glBindBuffersBase(GL_SHADER_STORAGE_BUFFER, ...)
    | DispatchCompute(x: nat, y: nat, z: nat)   // glDispatchCompute
    | StorageBarrier                            // glMemoryBarrier(GL_SHADER_STORAGE_BARRIER_BIT)
    | UnbindStorage                             // glBindBuffer(GL_SHADER_STORAGE_BUFFER, 0)
    | Clear                                     // glClear
    | BindVertexArray(vao: nat)                 // glBindVertexArray
    | DrawPoints(first: nat, count: nat)        // glDrawArrays(GL_POINTS, ...)
    | SwapBuffers                               // glfwSwapBuffers
    | SetTitle(frame: nat)                      // glfwSetWindowTitle("frame #...")

  predicate IsPoll(e: Event) { e.PollEvents? }
  predicate IsUse(e: Event) { e.UseProgram? }
  predicate IsDispatch(e: Event) { e.DispatchCompute? }
  predicate IsBarrier(e: Event) { e.StorageBarrier? }
  predicate IsDraw(e: Event) { e.DrawPoints? }
  predicate IsSwap(e: Event) { e.SwapBuffers? }
  predicate IsTitle(e: Event) { e.SetTitle? }

  /** The GL objects created by initialize_opengl and used every frame. */
  datatype Config = Config(render: Program, compute: seq<Program>, vao: nat, buffer: nat)

  /** Calls of one pass of the loop in invoke_compute_shader. */
  function StageEvents(p: Program, buffer: nat): (t: seq<Event>)
  {
    [UseProgram(p.handle), BindStorageBase(0, buffer), DispatchCompute(SphGroupCount(), 1, 1),
     StorageBarrier, UnbindStorage]
  }

  /** Calls of the stage loop over the given programs, in order. */
  function StagesEvents(ps: seq<Program>, buffer: nat): (t: seq<Event>)
  {
    if ps == [] then [] else StagesEvents(ps[..|ps| - 1], buffer) + StageEvents(ps[|ps| - 1], buffer)
  }

  /** invoke_compute_shader: the stages of compute_program_handle[0..3). */
  function StepEvents(c: Config): (t: seq<Event>)
  {
    StagesEvents(c.compute, c.buffer)
  }

  /** render(). */
  function RenderEvents(c: Config): (t: seq<Event>)
  {
    [Clear, UseProgram(c.render.handle), BindVertexArray(c.vao), DrawPoints(0, ParticleCount),
     BindVertexArray(0), SwapBuffers]
  }

  /** main_loop() with frame_number == n on entry. */
  function FrameEvents(c: Config, n: nat): (t: seq<Event>)
  {
    [PollEvents] + StepEvents(c) + RenderEvents(c) + [SetTitle(n)]
  }

  /** A trace followed by a frame's calls, issued one group at a time. */
  lemma FrameAfter(t: seq<Event>, c: Config, n: nat)
    ensures t + [PollEvents] + StepEvents(c) + RenderEvents(c) + [SetTitle(n)] == t + FrameEvents(c, n)
  {
  }

  /** k consecutive frames, the first one numbered n. */
  function RunEvents(c: Config, n: nat, k: nat): (t: seq<Event>)
  {
    if k == 0 then [] else RunEvents(c, n, k - 1) + FrameEvents(c, n + k - 1)
  }

  /** Number of events in t satisfying p. */
  function Count(t: seq<Event>, p: Event -> bool): (r: nat)
    ensures r <= |t|
  {
    if t == [] then 0 else Count(t[..|t| - 1], p) + (if p(t[|t| - 1]) then 1 else 0)
  }

  /** The program handles bound by glUseProgram in t, in order. */
  function ProgramsUsed(t: seq<Event>): (hs: seq<nat>)
    ensures |hs| == Count(t, IsUse)
  {
    if t == [] then []
    else ProgramsUsed(t[..|t| - 1]) + (if t[|t| - 1].UseProgram? then [t[|t| - 1].program] else [])
  }

  /** The frame numbers shown in the window title in t, in order. */
  function TitlesShown(t: seq<Event>): (ns: seq<nat>)
    ensures |ns| == Count(t, IsTitle)
  {
    if t == [] then []
    else TitlesShown(t[..|t| - 1]) + (if t[|t| - 1].SetTitle? then [t[|t| - 1].frame] else [])
  }

  /** The consecutive frame numbers n, n+1, ..., n+k-1. */
  function Consecutive(n: nat, k: nat): (ns: seq<nat>)
    ensures |ns| == k
    ensures forall j :: 0 <= j < k ==> ns[j] == n + j
  {
    if k == 0 then [] else Consecutive(n, k - 1) + [n + k - 1]
  }

  const StageLength: nat := 5
  const FrameLength: nat := 1 + 3 * StageLength + 6 + 1

  // ---------------------------------------------------------------------
  // Counting

  lemma {:induction false} CountAppend(a: seq<Event>, b: seq<Event>, p: Event -> bool)
    ensures Count(a + b, p) == Count(a, p) + Count(b, p)
  {
    if b == [] {
      assert a + b == a;
    } else {
      assert (a + b)[..|a + b| - 1] == a + b[..|b| - 1];
      assert (a + b)[|a + b| - 1] == b[|b| - 1];
      CountAppend(a, b[..|b| - 1], p);
    }
  }

  lemma {:induction false} ProgramsUsedAppend(a: seq<Event>, b: seq<Event>)
    ensures ProgramsUsed(a + b) == ProgramsUsed(a) + ProgramsUsed(b)
  {
    if b == [] {
      assert a + b == a;
    } else {
      assert (a + b)[..|a + b| - 1] == a + b[..|b| - 1];
      assert (a + b)[|a + b| - 1] == b[|b| - 1];
      ProgramsUsedAppend(a, b[..|b| - 1]);
    }
  }

  lemma {:induction false} TitlesShownAppend(a: seq<Event>, b: seq<Event>)
    ensures TitlesShown(a + b) == TitlesShown(a) + TitlesShown(b)
  {
    if b == [] {
      assert a + b == a;
    } else {
      assert (a + b)[..|a + b| - 1] == a + b[..|b| - 1];
      assert (a + b)[|a + b| - 1] == b[|b| - 1];
      TitlesShownAppend(a, b[..|b| - 1]);
    }
  }

  /** Count, ProgramsUsed and TitlesShown of a single event. */
  lemma Single(e: Event, p: Event -> bool)
    ensures Count([e], p) == if p(e) then 1 else 0
    ensures ProgramsUsed([e]) == if e.UseProgram? then [e.program] else []
    ensures TitlesShown([e]) == if e.SetTitle? then [e.frame] else []
  {
    assert [e][..0] == [];
  }

  /** Count of a six-event sequence, event by event. */
  lemma Unfold6(t: seq<Event>, p: Event -> bool)
    requires |t| == 6
    ensures Count(t, p) == Count([t[0]], p) + Count([t[1]], p) + Count([t[2]], p) + Count([t[3]], p) + Count([t[4]], p) + Count([t[5]], p)
  {
    var a, b := t[..5], [t[5]];
    assert t == a + b;
    CountAppend(a, b, p);
    Unfold5(a, p);
  }

  /** Count and ProgramsUsed of a five-event sequence, event by event. */
  lemma Unfold5(t: seq<Event>, p: Event -> bool)
    requires |t| == 5
    ensures Count(t, p) == Count([t[0]], p) + Count([t[1]], p) + Count([t[2]], p) + Count([t[3]], p) + Count([t[4]], p)
    ensures ProgramsUsed(t) == ProgramsUsed([t[0]]) + ProgramsUsed([t[1]]) + ProgramsUsed([t[2]]) + ProgramsUsed([t[3]]) + ProgramsUsed([t[4]])
  {
    var a, b, c, d, e := [t[0]], [t[1]], [t[2]], [t[3]], [t[4]];
    assert t == a + b + c + d + e;
    CountAppend(a + b + c + d, e, p);
    CountAppend(a + b + c, d, p);
    CountAppend(a + b, c, p);
    CountAppend(a, b, p);
    ProgramsUsedAppend(a + b + c + d, e);
    ProgramsUsedAppend(a + b + c, d);
    ProgramsUsedAppend(a + b, c);
    ProgramsUsedAppend(a, b);
  }

  // ---------------------------------------------------------------------
  // One compute step

  /** One stage: bind its program, then exactly one dispatch of SPH_GROUP_COUNT groups, then one barrier. */
  lemma StageShape(p: Program, buffer: nat)
    ensures |StageEvents(p, buffer)| == StageLength
    ensures StageEvents(p, buffer)[0] == UseProgram(p.handle)
    ensures StageEvents(p, buffer)[2] == DispatchCompute(SphGroupCount(), 1, 1)
    ensures StageEvents(p, buffer)[3] == StorageBarrier
    ensures Count(StageEvents(p, buffer), IsUse) == 1
    ensures Count(StageEvents(p, buffer), IsDispatch) == 1
    ensures Count(StageEvents(p, buffer), IsBarrier) == 1
    ensures ProgramsUsed(StageEvents(p, buffer)) == [p.handle]
  {
    var t := StageEvents(p, buffer);
    Unfold5(t, IsUse);
    Unfold5(t, IsDispatch);
    Unfold5(t, IsBarrier);
  }

  /** The handles of a list of programs. */
  function Handles(ps: seq<Program>): (hs: seq<nat>)
    ensures |hs| == |ps|
    ensures forall k :: 0 <= k < |ps| ==> hs[k] == ps[k].handle
  {
    if ps == [] then [] else Handles(ps[..|ps| - 1]) + [ps[|ps| - 1].handle]
  }

  /** Only compute-side calls: binding, dispatch, barrier. */
  predicate IsComputeCall(e: Event)
  {
    e.UseProgram? || e.BindStorageBase? || e.DispatchCompute? || e.StorageBarrier? || e.UnbindStorage?
  }

  /** Stage i of the stage loop occupies events [5i, 5i+5) of its trace. */
  lemma {:induction false} StagesLayout(ps: seq<Program>, buffer: nat)
    ensures |StagesEvents(ps, buffer)| == StageLength * |ps|
    ensures forall i :: 0 <= i < |ps| ==>
      StagesEvents(ps, buffer)[StageLength * i .. StageLength * i + StageLength] == StageEvents(ps[i], buffer)
    ensures forall k :: 0 <= k < |StagesEvents(ps, buffer)| ==> IsComputeCall(StagesEvents(ps, buffer)[k])
  {
    if ps != [] {
      var init := ps[..|ps| - 1];
      StagesLayout(init, buffer);
      var prefix := StagesEvents(init, buffer);
      var last := StageEvents(ps[|ps| - 1], buffer);
      var t := StagesEvents(ps, buffer);
      assert t == prefix + last;
      forall i | 0 <= i < |ps|
        ensures t[StageLength * i .. StageLength * i + StageLength] == StageEvents(ps[i], buffer)
      {
        if i < |init| {
          assert init[i] == ps[i];
          assert t[StageLength * i .. StageLength * i + StageLength]
              == prefix[StageLength * i .. StageLength * i + StageLength];
        } else {
          assert t[StageLength * i .. StageLength * i + StageLength] == last;
        }
      }
      forall k | 0 <= k < |t|
        ensures IsComputeCall(t[k])
      {
        if k < |prefix| { assert t[k] == prefix[k]; } else { assert t[k] == last[k - |prefix|]; }
      }
    }
  }

  /** The stage loop binds the programs in list order, with one dispatch and one barrier each. */
  lemma {:induction false} StagesCounts(ps: seq<Program>, buffer: nat)
    ensures ProgramsUsed(StagesEvents(ps, buffer)) == Handles(ps)
    ensures Count(StagesEvents(ps, buffer), IsUse) == |ps|
    ensures Count(StagesEvents(ps, buffer), IsDispatch) == |ps|
    ensures Count(StagesEvents(ps, buffer), IsBarrier) == |ps|
    ensures Count(StagesEvents(ps, buffer), IsPoll) == 0
    ensures Count(StagesEvents(ps, buffer), IsDraw) == 0
    ensures Count(StagesEvents(ps, buffer), IsSwap) == 0
    ensures Count(StagesEvents(ps, buffer), IsTitle) == 0
  {
    if ps != [] {
      var init := ps[..|ps| - 1];
      StagesCounts(init, buffer);
      var prefix := StagesEvents(init, buffer);
      var last := StageEvents(ps[|ps| - 1], buffer);
      StageShape(ps[|ps| - 1], buffer);
      ProgramsUsedAppend(prefix, last);
      CountAppend(prefix, last, IsUse);
      CountAppend(prefix, last, IsDispatch);
      CountAppend(prefix, last, IsBarrier);
      CountAppend(prefix, last, IsPoll);
      CountAppend(prefix, last, IsDraw);
      CountAppend(prefix, last, IsSwap);
      CountAppend(prefix, last, IsTitle);
      Unfold5(last, IsPoll);
      Unfold5(last, IsDraw);
      Unfold5(last, IsSwap);
      Unfold5(last, IsTitle);
    }
  }

  /**
   * One compute step (invoke_compute_shader) with the three programs: they
   * are bound in the order 0, 1, 2, and stage i is exactly bind, buffer bind,
   * one dispatch of SPH_GROUP_COUNT groups, one storage barrier and unbind,
   * all before program i+1 is bound.
   */
  lemma StepOrder(c: Config)
    requires |c.compute| == 3
    ensures |StepEvents(c)| == 3 * StageLength
    ensures ProgramsUsed(StepEvents(c)) == [c.compute[0].handle, c.compute[1].handle, c.compute[2].handle]
    ensures forall i :: 0 <= i < 3 ==>
      StepEvents(c)[StageLength * i .. StageLength * (i + 1)] == StageEvents(c.compute[i], c.buffer)
    ensures forall i :: 0 <= i < 3 ==>
      && StepEvents(c)[StageLength * i] == UseProgram(c.compute[i].handle)
      && StepEvents(c)[StageLength * i + 2] == DispatchCompute(SphGroupCount(), 1, 1)
      && StepEvents(c)[StageLength * i + 3] == StorageBarrier
    ensures Count(StepEvents(c), IsDispatch) == 3 && Count(StepEvents(c), IsBarrier) == 3
  {
    StagesLayout(c.compute, c.buffer);
    StagesCounts(c.compute, c.buffer);
    var t := StepEvents(c);
    forall i | 0 <= i < 3
      ensures t[StageLength * i] == UseProgram(c.compute[i].handle)
      ensures t[StageLength * i + 2] == DispatchCompute(SphGroupCount(), 1, 1)
      ensures t[StageLength * i + 3] == StorageBarrier
    {
      var stage := t[StageLength * i .. StageLength * i + StageLength];
      assert stage == StageEvents(c.compute[i], c.buffer);
      assert t[StageLength * i] == stage[0];
      assert t[StageLength * i + 2] == stage[2];
      assert t[StageLength * i + 3] == stage[3];
    }
  }

  /** Every dispatch covers the whole population: 157 groups of 128 invocations. */
  lemma DispatchCoversParticles()
    ensures SphGroupCount() * WorkGroupSize >= ParticleCount
    ensures (SphGroupCount() - 1) * WorkGroupSize < ParticleCount
  {
  }

  // ---------------------------------------------------------------------
  // One frame

  /** Count over a frame is the sum over its four parts. */
  lemma FrameCount(c: Config, n: nat, p: Event -> bool)
    ensures Count(FrameEvents(c, n), p)
         == Count([PollEvents], p) + Count(StepEvents(c), p) + Count(RenderEvents(c), p) + Count([SetTitle(n)], p)
  {
    var a, b, r, z := [PollEvents], StepEvents(c), RenderEvents(c), [SetTitle(n)];
    CountAppend(a + b + r, z, p);
    CountAppend(a + b, r, p);
    CountAppend(a, b, p);
  }

  /** main_loop's calls, part by part: poll, one compute step, render, title. */
  lemma FrameLayout(c: Config, n: nat)
    requires |c.compute| == 3
    ensures |FrameEvents(c, n)| == FrameLength
    ensures FrameEvents(c, n)[0] == PollEvents
    ensures FrameEvents(c, n)[1 .. 1 + 3 * StageLength] == StepEvents(c)
    ensures FrameEvents(c, n)[1 + 3 * StageLength .. FrameLength - 1] == RenderEvents(c)
    ensures FrameEvents(c, n)[FrameLength - 1] == SetTitle(n)
  {
    StagesLayout(c.compute, c.buffer);
    var f := FrameEvents(c, n);
    assert f[1 .. 16] == StepEvents(c);
    assert f[16 .. 22] == RenderEvents(c);
  }

  /**
   * main_loop: the poll comes first and only once, every dispatch of the
   * compute step comes after it and before the draw, and the draw, the swap
   * and the title with the frame number come last.
   */
  lemma FrameOrder(c: Config, n: nat)
    requires |c.compute| == 3
    ensures |FrameEvents(c, n)| == FrameLength
    ensures FrameEvents(c, n)[19] == DrawPoints(0, ParticleCount)
    ensures FrameEvents(c, n)[21] == SwapBuffers
    ensures forall i :: 0 <= i < FrameLength ==> (IsPoll(FrameEvents(c, n)[i]) <==> i == 0)
    ensures forall i :: 0 <= i < FrameLength && IsDispatch(FrameEvents(c, n)[i]) ==> 0 < i < 19
    ensures forall i :: 0 <= i < FrameLength ==> (IsDraw(FrameEvents(c, n)[i]) <==> i == 19)
  {
    FrameLayout(c, n);
    StagesLayout(c.compute, c.buffer);
    var f := FrameEvents(c, n);
    var step, render := StepEvents(c), RenderEvents(c);
    forall i | 1 <= i < 16
      ensures IsComputeCall(f[i])
    {
      assert f[i] == f[1 .. 16][i - 1] == step[i - 1];
    }
    forall i | 16 <= i < 22
      ensures f[i] == render[i - 16]
    {
      assert f[i] == f[16 .. 22][i - 16];
    }
  }

  /** One frame holds one poll, three dispatches, three barriers, one draw, one swap and one title. */
  lemma FrameCounts(c: Config, n: nat)
    requires |c.compute| == 3
    ensures Count(FrameEvents(c, n), IsPoll) == 1
    ensures Count(FrameEvents(c, n), IsDispatch) == 3
    ensures Count(FrameEvents(c, n), IsBarrier) == 3
    ensures Count(FrameEvents(c, n), IsDraw) == 1
    ensures Count(FrameEvents(c, n), IsSwap) == 1
    ensures Count(FrameEvents(c, n), IsTitle) == 1
  {
    var render := RenderEvents(c);
    StagesCounts(c.compute, c.buffer);
    FrameCount(c, n, IsPoll);
    FrameCount(c, n, IsDispatch);
    FrameCount(c, n, IsBarrier);
    FrameCount(c, n, IsDraw);
    FrameCount(c, n, IsSwap);
    FrameCount(c, n, IsTitle);
    Unfold6(render, IsPoll);
    Unfold6(render, IsDispatch);
    Unfold6(render, IsBarrier);
    Unfold6(render, IsDraw);
    Unfold6(render, IsSwap);
    Unfold6(render, IsTitle);
  }

  /** The title set by frame n shows n. */
  lemma FrameTitle(c: Config, n: nat)
    requires |c.compute| == 3
    ensures TitlesShown(FrameEvents(c, n)) == [n]
  {
    var step, render := StepEvents(c), RenderEvents(c);
    StagesCounts(c.compute, c.buffer);
    Unfold6(render, IsTitle);
    var a, z := [PollEvents], [SetTitle(n)];
    TitlesShownAppend(a + step + render, z);
    TitlesShownAppend(a + step, render);
    TitlesShownAppend(a, step);
    Single(PollEvents, IsTitle);
    Single(SetTitle(n), IsTitle);
  }

  // ---------------------------------------------------------------------
  // A run of frames

  /**
   * k frames from frame number n are exactly k whole frames, frame j
   * occupying events [23j, 23j+23) with its own number: no frame, and so no
   * compute step, is ever cut short.
   */
  lemma {:induction false} RunLayout(c: Config, n: nat, k: nat)
    requires |c.compute| == 3
    ensures |RunEvents(c, n, k)| == FrameLength * k
    ensures forall j :: 0 <= j < k ==>
      RunEvents(c, n, k)[FrameLength * j .. FrameLength * j + FrameLength] == FrameEvents(c, n + j)
  {
    if k > 0 {
      RunLayout(c, n, k - 1);
      var prefix := RunEvents(c, n, k - 1);
      var last := FrameEvents(c, n + k - 1);
      var t := RunEvents(c, n, k);
      FrameLayout(c, n + k - 1);
      assert t == prefix + last;
      forall j | 0 <= j < k
        ensures t[FrameLength * j .. FrameLength * j + FrameLength] == FrameEvents(c, n + j)
      {
        if j < k - 1 {
          assert t[FrameLength * j .. FrameLength * j + FrameLength]
              == prefix[FrameLength * j .. FrameLength * j + FrameLength];
        } else {
          assert t[FrameLength * j .. FrameLength * j + FrameLength] == last;
        }
      }
    }
  }

  /**
   * k frames hold k polls, k compute steps (3k dispatches and 3k barriers),
   * k draws and k swaps.
   */
  lemma {:induction false} RunCounts(c: Config, n: nat, k: nat)
    requires |c.compute| == 3
    ensures Count(RunEvents(c, n, k), IsPoll) == k
    ensures Count(RunEvents(c, n, k), IsDispatch) == 3 * k
    ensures Count(RunEvents(c, n, k), IsBarrier) == 3 * k
    ensures Count(RunEvents(c, n, k), IsDraw) == k
    ensures Count(RunEvents(c, n, k), IsSwap) == k
  {
    if k > 0 {
      RunCounts(c, n, k - 1);
      var prefix := RunEvents(c, n, k - 1);
      var last := FrameEvents(c, n + k - 1);
      FrameCounts(c, n + k - 1);
      CountAppend(prefix, last, IsPoll);
      CountAppend(prefix, last, IsDispatch);
      CountAppend(prefix, last, IsBarrier);
      CountAppend(prefix, last, IsDraw);
      CountAppend(prefix, last, IsSwap);
    }
  }

  /** The titles of k frames from frame number n show n, n+1, ..., n+k-1. */
  lemma {:induction false} RunTitles(c: Config, n: nat, k: nat)
    requires |c.compute| == 3
    ensures TitlesShown(RunEvents(c, n, k)) == Consecutive(n, k)
  {
    if k > 0 {
      RunTitles(c, n, k - 1);
      FrameTitle(c, n + k - 1);
      TitlesShownAppend(RunEvents(c, n, k - 1), FrameEvents(c, n + k - 1));
    }
  }

  /** Two runs back to back are one longer run. */
  lemma {:induction false} RunEventsAppend(c: Config, n: nat, a: nat, b: nat)
    ensures RunEvents(c, n, a) + RunEvents(c, n + a, b) == RunEvents(c, n, a + b)
  {
    if b > 0 {
      RunEventsAppend(c, n, a, b - 1);
    }
  }
}
