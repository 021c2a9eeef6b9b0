# sph_opengl: host-side orchestration, modelled in Dafny

sph_opengl runs a 2D smoothed-particle-hydrodynamics simulation on the GPU.
The host program fills an initial image of 20000 particle records and uploads
it to one shader-storage buffer. Then, every frame, it polls input, runs three
compute programs one after the other (density and pressure, force,
integration), draws the particles as points, and counts the frame.

This project models the host logic that can be stated without a GPU:

- `layout.dfy` (module `Layout`): the compile-time constants, the
  work-group count (a ceiling division), and the byte layout of the
  `particle_type` record. This covers member offsets, record stride, the
  buffer size and the range the vertex attribute reads.
- `scene.dfy` (module `Scene`): the initial particle image. The records are
  zeroed, then a nested loop with a running index writes the position of
  each slot on a 125 x 160 grid. It is an imperative method over an `array`,
  proved against `InitialParticle`.
- `scene_selector.dfy` (module `SceneSelector`): `main`'s scan of `argv` for
  `"-a"`.
- `linking.dfy` (module `Linking`): the four program link checks of
  initialization (see Findings).
- `frames.dfy` (module `Frames`): the GL/GLFW calls of one compute step, one
  render, one frame and a run of frames, as a trace of events. This module
  also holds the ordering and counting lemmas about that trace.
- `application.dfy` (module `Application`): class `App` holds
  `frameNumber`, `paused`, `sceneId`, the close flag and the trace. Its
  methods `InvokeComputeShader`, `Render`, `MainLoop` and `Run` append the
  calls they issue to the trace.

Positions are exact integers in units of SPH_PARTICLE_RADIUS (0.005):
- column x, row y is at (-125 + 2x, 200 - 2y), which stands for
  (-0.625 + 0.01x, 1 - 0.01y);
- the zero that memset leaves is (0, 0).

Facts about the code that the model keeps:
- The code stores particles as an interleaved array of 32-byte records, read
  with stride `sizeof(particle_t)`, not as five separate field arrays.
- Nothing reads `paused`. Every frame runs a compute step, and
  `frame_number` grows by one per frame. It starts at 1, not 0.
- The fill loop's outer variable is the column (125 of them) and its inner
  variable is the row (160 of them). So slot 159 ends column 0 and slot 160
  starts column 1.
- No dispatch or present error is checked. Three of the four link checks
  inspect the wrong program (see Findings).

## Model

| member | source | states |
|---|---|---|
| `Layout.SphGroupCount` | include/application.hpp:23-27 | for 20000 particles and work groups of 128, SPH_GROUP_COUNT is 157 |
| `Layout.GroupCountIsCeiling` | include/application.hpp:26-27 | (n + w - 1) / w groups cover n invocations, one group fewer does not, and 0 invocations need 0 groups |
| `Layout.GroupCountIsLeast` | include/application.hpp:26-27 | no smaller group count g with g * w >= n exists |
| `Layout.OffsetValues` | include/application.hpp:73-80 | with packed 4-byte floats, members sit at offsets 0, 8, 16, 24, 28 and the record is 32 bytes |
| `Layout.FieldsDisjointAndInside` | include/application.hpp:73-80 | every member lies inside the record and distinct members do not overlap |
| `Layout.BufferSizeValue` | source/application.cpp:235 | the storage buffer is sizeof(particle_t) * particle_count = 32 * 20000 = 640000 bytes |
| `Layout.FieldRangeInsideRecord` | source/application.cpp:235 | each member of particle i < N lies inside i's record, and the record lies inside the buffer |
| `Layout.RecordsDisjoint` | include/application.hpp:73-80 | the records of distinct particles do not overlap |
| `Layout.FieldRangesDisjoint` | include/application.hpp:73-80 | no two distinct (particle, member) pairs share a byte |
| `Layout.VertexAttribReadsPosition` | source/application.cpp:242-246 | with stride 32 and offset 0, the vertex attribute reads exactly particle i's position, bytes [32i, 32i+8) |
| `Scene.InitialParticleData` | source/application.cpp:218-231 | the zeroed array of N records ends with slot i holding InitialParticle(i); the write log is exactly 0, 1, ..., N-1, so each slot is written exactly once; every access is in bounds |
| `Scene.GridFillsPopulation` | source/application.cpp:223-225 | 125 columns times 160 rows is SPH_PARTICLE_COUNT |
| `Scene.SlotInverse` | source/application.cpp:222-231 | the running index at column x, row y is 160x + y < 20000, and its column and row recover x and y |
| `Scene.SlotSurjective` | source/application.cpp:222-231 | every slot below 20000 is reached by the grid point (i div 160, i mod 160) |
| `Scene.SlotInjective` | source/application.cpp:222-231 | two grid points that reach the same slot are the same point |
| `Scene.GridCorners` | source/application.cpp:223-229 | slot 0 is at (-0.625, 1); slot 159 is column 0, row 159; slot 160 is column 1, row 0; slot 19999 is the last grid point |
| `Scene.InitialOtherFieldsZero` | source/application.cpp:219-220 | velocity, force, density and pressure of every initial record are zero |
| `Scene.UptoOnce` | source/application.cpp:222-231 | each index below n occurs exactly once in the write order 0..n-1, and no other index occurs |
| `SceneSelector.Find` | source/main.cpp:12 | std::find returns the first position holding the key, or argc when none does |
| `SceneSelector.SelectScene` | source/main.cpp:12 | the scene id is 0 or 1, and it is 1 iff some argument equals "-a" |
| `SceneSelector.ProgramNameIsSearched` | source/main.cpp:12 | argv[0] lies inside the searched range [argv, argv + argc) |
| `SceneSelector.OnlyExactMatch` | source/main.cpp:12 | with no argument equal to "-a", scene 0 is chosen |
| `SceneSelector.SelectionDependsOnlyOnPresence` | source/main.cpp:12 | two argument lists with the same presence of "-a" select the same scene |
| `SceneSelector.SelectionIgnoresOrderAndMultiplicity` | source/main.cpp:12 | reordering or duplicating arguments does not change the scene |
| `SceneSelector.SelectionOfConcatenation` | source/main.cpp:12 | adding arguments selects scene 1 iff either part holds "-a" |
| `SceneSelector.FindFirst` | source/main.cpp:12 | find stops no later than any occurrence of the key |
| `Linking.RunChecks` | source/application.cpp:254-272 | a sequence of check_program_linked calls passes iff every checked program linked |
| `Linking.InitializeAsWritten` | source/application.cpp:185-216 | as written, initialization passes iff the render program linked |
| `Linking.Initialize` | source/application.cpp:185-216 | with each check given the program just linked, initialization passes iff all four programs linked |
| `Linking.AsWrittenMissesComputeLinkFailure` | source/application.cpp:196-216 | a density-pressure program that failed to link passes the written checks and fails the intended ones |
| `Linking.IntendedIsStricter` | source/application.cpp:196-216 | the intended checks never accept a configuration the written checks reject |
| `Frames.StageShape` | source/application.cpp:351-355 | one stage binds its program first, then has exactly one dispatch of SPH_GROUP_COUNT x 1 x 1 groups, then one storage barrier |
| `Frames.StagesLayout` | source/application.cpp:349-356 | stage i of the loop occupies events [5i, 5i+5) of the step, and a step issues only compute-side calls |
| `Frames.StagesCounts` | source/application.cpp:349-356 | the stage loop binds the programs in list order, with as many dispatches and barriers as programs, and no poll, draw, swap or title |
| `Frames.StepOrder` | source/application.cpp:346-357 | one compute step binds programs 0, 1, 2 in that order, and each is followed by one dispatch and one barrier before the next is bound |
| `Frames.DispatchCoversParticles` | source/application.cpp:353 | each dispatch of 157 groups of 128 covers all 20000 particles with less than one spare group |
| `Frames.FrameLayout` | source/application.cpp:312-344 | a frame is a poll, then one whole compute step, then the render calls, then the title |
| `Frames.FrameOrder` | source/application.cpp:323-329 | the poll is the first and only poll of a frame, every dispatch comes after it and before the single draw, and the swap follows the draw |
| `Frames.FrameCounts` | source/application.cpp:312-370 | a frame holds one poll, three dispatches, three barriers, one draw, one swap and one title |
| `Frames.FrameTitle` | source/application.cpp:340-341 | the title set during a frame shows the frame_number the frame started with |
| `Frames.RunLayout` | source/application.cpp:138-144 | k frames are exactly k whole frames back to back, so no frame or compute step is cut short |
| `Frames.RunCounts` | source/application.cpp:138-144 | k frames hold k polls, 3k dispatches, 3k barriers, k draws and k swaps |
| `Frames.RunTitles` | source/application.cpp:340-343 | the titles shown by k frames from frame n are n, n+1, ..., n+k-1 |
| `Frames.RunEventsAppend` | source/application.cpp:138-144 | a run of a frames followed by b more frames is one run of a + b frames |
| `Application.FirstClose` | source/application.cpp:140 | the first poll raising the close flag, with no earlier poll raising it |
| `Application.App.constructor` | include/application.hpp:60-65 | a new application has frame_number 1, paused false, scene_id 0 and an empty trace, once the render program has linked (the only program the written checks inspect) |
| `Application.App.PollInput` | source/application.cpp:323 | polling appends a poll event and can only raise the close flag |
| `Application.App.InvokeComputeShader` | source/application.cpp:346-357 | the loop appends exactly one compute step for compute_program_handle[0..3) |
| `Application.App.Render` | source/application.cpp:359-370 | render appends clear, render program bind, vao bind, a draw of all particles as points, vao unbind and swap |
| `Application.App.MainLoop` | source/application.cpp:312-344 | one frame appends the frame's events, frame_number grows by exactly 1 whatever paused is, paused and scene_id are unchanged, and the trace stays whole frames 1..frame_number-1 |
| `Application.App.Run` | source/application.cpp:138-144 | frames run until the close flag is up: the frame whose poll raised it completes, the counter grows by the number of frames run, and the trace grows by those whole frames |

## Left out

- Window creation, the GLEW version check and the debug-message callback
  (source/application.cpp:21-99, 146-183) are library calls and logging.
- Shader file reading and compilation (source/application.cpp:274-310) are file
  I/O and driver calls. A program is modelled as a handle with the link
  status the driver reports.
- Buffer creation, the upload and the vertex-array setup
  (source/application.cpp:233-250) are not events of the trace, which starts
  empty after construction. Their sizes and stride are covered by `Layout`.
- Floating point: positions are exact multiples of the particle radius. The
  rounding of `-0.625f + particle_length * 2 * x` in single precision is
  not modelled.
- Chrono timing and the window title text (source/application.cpp:320-341):
  the title event keeps only the frame number it shows.
- What the three compute kernels and the render shaders compute, and the
  GPU's asynchronous execution. Dispatch and barrier are opaque events.
- Teardown (source/application.cpp:111-136) only releases resources.
- shader/compile.py is build plumbing.
- source/application.cpp uses `particle_t`, `particle_count`, `group_count`
  and `particle_length`, which the shown header does not declare. The model
  takes them to be `particle_type`, SPH_PARTICLE_COUNT, SPH_GROUP_COUNT and
  SPH_PARTICLE_RADIUS; the last choice fixes the grid spacing at 0.01.
- App.frameNumber: `frame_number` is a `uint64_t`. The model uses an unbounded
  counter, so wrap-around after 2^64 frames is not modelled.
- App.Run: only runs in which a close request eventually arrives are
  modelled, because a run that is never closed does not terminate.
- The `application(int64_t scene_id)` constructor (include/application.hpp:37)
  is declared but not defined in the source. The id `SelectScene` computes
  is therefore not passed on, and `App.constructor` models `application()`.
  `main`'s construction of the application and its call to `run` are not
  modelled beyond `SelectScene` and `App.Run`.

## Findings

| source | as written | input that shows it | evidently intended | confidence | as-written member | corrected member |
|---|---|---|---|---|---|---|
| source/application.cpp:201 | after linking each compute program, `check_program_linked(render_program_handle)` checks the render program again (also at lines 208 and 215) | render program linked, density-pressure program failed to link: initialization passes | `check_program_linked(compute_program_handle[i])` after linking compute program i | high (not executed) | `Linking.InitializeAsWritten`, `Linking.AsWrittenMissesComputeLinkFailure` | `Linking.Initialize` |

`App` is built on the checks as written: its constructor and invariant ask
only that `InitializeAsWritten` passes, that is that the render program
linked. `Linking.Initialize` states what the corrected checks would demand.
