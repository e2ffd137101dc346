/**
 * The plain data-quality pipeline runner: build the dbt models (the only
 * fatal step), run the dbt tests, run three validation checkpoints in a fixed
 * order when the `great_expectations` directory exists, and build the docs.
 * Every step after the model build only reports its failure and goes on.
 *
 * The return code of each shell command is an input (`returnCode`), as is the
 * existence of the `great_expectations` directory.
 */
module QualityPipeline {

  /** The shell commands the runner issues. */
  datatype Command =
    | DbtRun                    // dbt run
    | DbtTest                   // dbt test
    | Checkpoint(name: string)  // great_expectations checkpoint run <name>
    | DocsGenerate              // dbt docs generate
    | GxDocsBuild               // great_expectations docs build

  /** The checkpoints, in the order they run. */
  const Checkpoints: seq<string> := ["marts_suite", "staging_suite", "full_pipeline"]

  /** `run_command`: a step succeeds exactly when its return code is 0, that
      is, exactly when running it on its own reports no failure. */
  predicate Succeeds(returnCode: Command -> int, c: Command): (ok: bool)
    ensures ok <==> Failing(returnCode, [c]) == []
  {
    assert [c][..0] == [];
    returnCode(c) == 0
  }

  /** The checkpoint commands for a list of checkpoint names. */
  function CheckpointCommands(names: seq<string>): (cs: seq<Command>)
    ensures |cs| == |names|
    ensures forall i :: 0 <= i < |names| ==> cs[i] == Checkpoint(names[i])
  {
    seq(|names|, i requires 0 <= i < |names| => Checkpoint(names[i]))
  }

  /** The commands among `cs` that returned a non-zero code, in the order they ran. */
  function Failing(returnCode: Command -> int, cs: seq<Command>): (f: seq<Command>)
    ensures |f| <= |cs|
  {
    if cs == [] then []
    else
      var last := cs[|cs| - 1];
      assert cs == cs[..|cs| - 1] + [last];
      Failing(returnCode, cs[..|cs| - 1]) + (if returnCode(last) == 0 then [] else [last])
  }

  lemma FailingAppend(returnCode: Command -> int, cs: seq<Command>, c: Command)
    ensures Failing(returnCode, cs + [c]) == Failing(returnCode, cs) + (if Succeeds(returnCode, c) then [] else [c])
  {
    assert (cs + [c])[..|cs|] == cs;
  }

  /** Failures of two runs of commands, one after the other. */
  lemma {:induction false} FailingConcat(returnCode: Command -> int, a: seq<Command>, b: seq<Command>)
    ensures Failing(returnCode, a + b) == Failing(returnCode, a) + Failing(returnCode, b)
  {
    if b == [] {
      assert a + b == a;
    } else {
      var b' := b[..|b| - 1];
      var last := b[|b| - 1];
      assert a + b == (a + b') + [last];
      FailingConcat(returnCode, a, b');
      FailingAppend(returnCode, a + b', last);
      FailingAppend(returnCode, b', last);
      assert b == b' + [last];
    }
  }

  /** The checkpoint loop: every checkpoint runs, whatever the earlier ones returned. */
  method RunCheckpoints(returnCode: Command -> int) returns (issued: seq<Command>, issues: seq<Command>)
    ensures issued == CheckpointCommands(Checkpoints)
    ensures issues == Failing(returnCode, issued)
  {
    issued, issues := [], [];
    for i := 0 to |Checkpoints|
      invariant issued == CheckpointCommands(Checkpoints[..i])
      invariant issues == Failing(returnCode, issued)
    {
      var cmd := Checkpoint(Checkpoints[i]);
      assert CheckpointCommands(Checkpoints[..i + 1]) == CheckpointCommands(Checkpoints[..i]) + [cmd];
      FailingAppend(returnCode, issued, cmd);
      issued := issued + [cmd];
      if !Succeeds(returnCode, cmd) {
        issues := issues + [cmd];
      }
    }
    assert Checkpoints[..|Checkpoints|] == Checkpoints;
  }

  /** What one run of the script does: the commands issued in order, the
      steps that reported issues, the exit code and whether the completion
      message was reached. */
  datatype QualityRun = QualityRun(issued: seq<Command>, issues: seq<Command>, exitCode: int, completed: bool)

  /** The commands issued after a successful model build. */
  function AdvisoryCommands(gxExists: bool): seq<Command> {
    [DbtTest] + (if gxExists then CheckpointCommands(Checkpoints) else []) +
    [DocsGenerate] + (if gxExists then [GxDocsBuild] else [])
  }

  /** A command is reported as failing exactly when it ran and its return code was not 0. */
  lemma {:induction false} InFailing(returnCode: Command -> int, cs: seq<Command>, c: Command)
    ensures c in Failing(returnCode, cs) <==> c in cs && !Succeeds(returnCode, c)
  {
    if cs != [] {
      var init := cs[..|cs| - 1];
      InFailing(returnCode, init, c);
      assert cs == init + [cs[|cs| - 1]];
    }
  }

  /** Steps 2 to 5 of `main`, reached once the models built: none of them can stop the run. */
  method RunAdvisorySteps(returnCode: Command -> int, gxExists: bool) returns (issued: seq<Command>, issues: seq<Command>)
    ensures issued == AdvisoryCommands(gxExists)
    ensures issues == Failing(returnCode, issued)
  {
    issued := [DbtTest];
    issues := [];
    if !Succeeds(returnCode, DbtTest) {
      issues := issues + [DbtTest];
    }
    FailingAppend(returnCode, [], DbtTest);

    if gxExists {
      var ranCheckpoints, checkpointIssues := RunCheckpoints(returnCode);
      FailingConcat(returnCode, issued, ranCheckpoints);
      issued := issued + ranCheckpoints;
      issues := issues + checkpointIssues;
    }

    FailingAppend(returnCode, issued, DocsGenerate);
    issued := issued + [DocsGenerate];
    if !Succeeds(returnCode, DocsGenerate) {
      issues := issues + [DocsGenerate];
    }

    if gxExists {
      FailingAppend(returnCode, issued, GxDocsBuild);
      issued := issued + [GxDocsBuild];
      if !Succeeds(returnCode, GxDocsBuild) {
        issues := issues + [GxDocsBuild];
      }
    }
  }

  /** The plain runner's `main`. */
  method RunDataQualityPipeline(returnCode: Command -> int, gxExists: bool) returns (out: QualityRun)
    ensures !Succeeds(returnCode, DbtRun) ==> out == QualityRun([DbtRun], [], 1, false)
    ensures Succeeds(returnCode, DbtRun) ==> out.exitCode == 0 && out.completed
    ensures Succeeds(returnCode, DbtRun) ==> out.issued == [DbtRun] + AdvisoryCommands(gxExists)
    ensures Succeeds(returnCode, DbtRun) ==> out.issues == Failing(returnCode, AdvisoryCommands(gxExists))
  {
    if !Succeeds(returnCode, DbtRun) {
      return QualityRun([DbtRun], [], 1, false);
    }
    var issued, issues := RunAdvisorySteps(returnCode, gxExists);
    out := QualityRun([DbtRun] + issued, issues, 0, true);
  }

  /** With the validation directory present, the commands a run issues after a
      successful build put the three checkpoints once each, in the fixed order,
      right after the tests. */
  lemma CheckpointsRunInOrder()
    ensures var cs := [DbtRun] + AdvisoryCommands(true);
      cs[2] == Checkpoint("marts_suite") && cs[3] == Checkpoint("staging_suite") &&
      cs[4] == Checkpoint("full_pipeline") &&
      forall i :: 0 <= i < |cs| && cs[i].Checkpoint? ==> 2 <= i <= 4
  {
    var cs := [DbtRun] + AdvisoryCommands(true);
    assert cs == [DbtRun, DbtTest, Checkpoint("marts_suite"), Checkpoint("staging_suite"),
                  Checkpoint("full_pipeline"), DocsGenerate, GxDocsBuild];
  }

  /** Without the validation directory no checkpoint and no data-docs build is issued. */
  lemma NoValidationWithoutDirectory()
    ensures forall c :: c in AdvisoryCommands(false) ==> !c.Checkpoint? && c != GxDocsBuild
  {
    assert AdvisoryCommands(false) == [DbtTest, DocsGenerate];
  }
}
