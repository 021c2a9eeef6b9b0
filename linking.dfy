/**
 * The link checks of initialize_opengl (source/application.cpp:185-216,
 * 254-272). Each program is linked and then `check_program_linked` throws
 * "shader link error" if the handle it is given did not link. Compilation,
 * file loading and the link log are left to the driver and not modelled: a
 * program is a handle together with the link status the driver reports.
 */
module Linking {

  /** A GL program object and the GL_LINK_STATUS the driver reports for it. */
  datatype Program = Program(handle: nat, linked: bool)

  /** Initialization either passes every check or throws "shader link error". */
  datatype Outcome = Pass | LinkError

  /** The handle each of the four check_program_linked calls receives, in program order. */
  function CheckedAsWritten(render: Program, compute: seq<Program>): (checked: seq<Program>)
  {
    [render, render, render, render]
  }

  /** The handle each check was evidently meant to receive: each program right after its link. */
  function CheckedIntended(render: Program, compute: seq<Program>): (checked: seq<Program>)
    requires |compute| == 3
  {
    [render, compute[0], compute[1], compute[2]]
  }

  /** Runs the checks in order; the first unlinked program throws. */
  function RunChecks(checked: seq<Program>): (r: Outcome)
    ensures r == Pass <==> forall k :: 0 <= k < |checked| ==> checked[k].linked
  {
    if checked == [] then Pass
    else if !checked[0].linked then LinkError
    else RunChecks(checked[1..])
  }

  /** Initialization as written: only the render program's status is ever inspected. */
  function InitializeAsWritten(render: Program, compute: seq<Program>): (r: Outcome)
    ensures r == Pass <==> render.linked
  {
    RunChecks(CheckedAsWritten(render, compute))
  }

  /** Initialization as intended: it passes iff all four programs linked. */
  function Initialize(render: Program, compute: seq<Program>): (r: Outcome)
    requires |compute| == 3
    ensures r == Pass <==> render.linked && forall k :: 0 <= k < 3 ==> compute[k].linked
  {
    var checked := CheckedIntended(render, compute);
    assert checked[1..] == compute && forall k :: 0 <= k < 3 ==> checked[k + 1] == compute[k];
    RunChecks(checked)
  }

  /** As written, a compute program that failed to link goes unnoticed. */
  lemma AsWrittenMissesComputeLinkFailure()
    ensures InitializeAsWritten(Program(1, true), [Program(2, false), Program(3, true), Program(4, true)]) == Pass
    ensures Initialize(Program(1, true), [Program(2, false), Program(3, true), Program(4, true)]) == LinkError
  {
  }

  /** The intended checks never accept what the written ones reject. */
  lemma IntendedIsStricter(render: Program, compute: seq<Program>)
    requires |compute| == 3
    ensures Initialize(render, compute) == Pass ==> InitializeAsWritten(render, compute) == Pass
  {
  }
}
