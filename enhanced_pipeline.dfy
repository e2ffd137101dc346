/**
 * The enhanced pipeline runner: dbt dependencies, the three required model
 * layers, tests, optional Great Expectations validation, documentation, and an
 * optional webhook notification. A failing required layer ends the run with
 * exit code 1; every other step runs with "continue on error".
 *
 * Each shell command is an input: `run` gives the return code and captured
 * output the command would produce. The parsed dbt results file, the existence
 * of the `gx` directory and the webhook variable are inputs too.
 */
module EnhancedPipeline {
  import opened Common

  /** What a finished subprocess reports. */
  datatype ProcessResult = ProcessResult(returnCode: int, stdout: string, stderr: string)

  /** What `run_command` returns: the success flag and the text it passes back. */
  datatype CommandOutcome = CommandOutcome(success: bool, output: string)

  /** `run_command`'s result policy. A non-zero return code counts as success
      when the caller asked to continue on error; the error text is passed
      back either way. */
  function RunCommand(p: ProcessResult, continueOnError: bool): (r: CommandOutcome)
    ensures r.success <==> p.returnCode == 0 || continueOnError
    ensures p.returnCode == 0 ==> r.output == p.stdout
    ensures p.returnCode != 0 ==> r.output == p.stderr
  {
    if p.returnCode != 0 then
      if !continueOnError then CommandOutcome(false, p.stderr) else CommandOutcome(true, p.stderr)
    else CommandOutcome(true, p.stdout)
  }

  /** With "continue on error" no return code makes a step fail, so a
      warning guarded by that step's failure can never be recorded. */
  lemma ContinueOnErrorNeverFails(p: ProcessResult)
    ensures RunCommand(p, true).success
  {
  }

  /** The parsed `run_results.json`: `NoResults` when the file is missing, is an
      empty object or has no "results" key; otherwise the status of each entry
      (`None` when the entry has no "status"). */
  datatype RunResults = NoResults | Results(statuses: seq<Option<string>>)

  datatype TestSummary = TestSummary(passed: nat, failed: nat, warned: nat)

  /** Number of entries whose status is exactly `status`. */
  function CountStatus(statuses: seq<Option<string>>, status: string): (n: nat)
    ensures n <= |statuses|
  {
    if statuses == [] then 0
    else (if statuses[0] == Some(status) then 1 else 0) + CountStatus(statuses[1..], status)
  }

  /** `get_test_summary`. */
  function GetTestSummary(results: RunResults): (s: TestSummary)
    ensures results.NoResults? ==> s == TestSummary(0, 0, 0)
    ensures results.Results? ==> s.passed + s.failed + s.warned <= |results.statuses|
  {
    match results
    case NoResults => TestSummary(0, 0, 0)
    case Results(statuses) =>
      CountsBounded(statuses);
      TestSummary(CountStatus(statuses, "pass"), CountStatus(statuses, "fail"), CountStatus(statuses, "warn"))
  }

  /** The three status counts never exceed the number of entries together,
      because no entry has two statuses. */
  lemma {:induction false} CountsBounded(statuses: seq<Option<string>>)
    ensures CountStatus(statuses, "pass") + CountStatus(statuses, "fail") + CountStatus(statuses, "warn") <= |statuses|
  {
    if statuses != [] {
      CountsBounded(statuses[1..]);
    }
  }

  /** An entry with any other status (or none) changes no count. */
  lemma {:induction false} UnknownStatusIgnored(statuses: seq<Option<string>>, x: Option<string>)
    requires x != Some("pass") && x != Some("fail") && x != Some("warn")
    ensures GetTestSummary(Results(statuses + [x])) == GetTestSummary(Results(statuses))
  {
    CountAppend(statuses, x, "pass");
    CountAppend(statuses, x, "fail");
    CountAppend(statuses, x, "warn");
  }

  lemma {:induction false} CountAppend(statuses: seq<Option<string>>, x: Option<string>, status: string)
    ensures CountStatus(statuses + [x], status) == CountStatus(statuses, status) + (if x == Some(status) then 1 else 0)
  {
    if statuses != [] {
      assert (statuses + [x])[1..] == statuses[1..] + [x];
      CountAppend(statuses[1..], x, status);
    }
  }

  /** The payload `send_notification` posts. */
  datatype Notification = Notification(webhookUrl: string, text: string, username: string, iconEmoji: string)

  /** `send_notification`: nothing is sent without a webhook URL; the icon is the
      hospital exactly for a successful run. A failed POST is only reported. */
  function SendNotification(status: string, message: string, webhookUrl: Option<string>): (n: Option<Notification>)
    ensures n.Some? <==> Truthy(webhookUrl)
    ensures n.Some? ==> n.value.webhookUrl == webhookUrl.value
    ensures n.Some? ==> (n.value.iconEmoji == ":hospital:" <==> status == "success")
    ensures n.Some? ==> n.value.text == "\U{1F680} Pipeline " + status + ": " + message
  {
    if Truthy(webhookUrl) then
      Some(Notification(webhookUrl.value, "\U{1F680} Pipeline " + status + ": " + message,
                        "Healthcare Analytics Pipeline",
                        if status == "success" then ":hospital:" else ":warning:"))
    else None
  }

  /** The shell commands the runner issues. */
  datatype Command =
    | Deps          // dbt deps
    | Staging       // dbt run --select staging
    | Intermediate  // dbt run --select intermediate
    | Marts         // dbt run --select marts
    | Test          // dbt test
    | GxValidate    // python scripts/gx_run_checkpoint.py
    | DocsGenerate  // dbt docs generate
    | GxDocs        // python scripts/gx_docs_build.py

  /** Everything one run of the script does that can be observed: the commands
      issued in order, the error and warning lists, the final status, the exit
      code, the test summary (once the tests ran) and the notification sent. */
  datatype PipelineRun = PipelineRun(
    issued: seq<Command>,
    errors: seq<string>,
    warnings: seq<string>,
    status: string,
    exitCode: int,
    summary: Option<TestSummary>,
    notification: Option<Notification>)

  /** All three required model layers succeed. */
  predicate RequiredOk(run: Command -> ProcessResult) {
    run(Staging).returnCode == 0 && run(Intermediate).returnCode == 0 && run(Marts).returnCode == 0
  }

  function CompletionMessage(s: TestSummary): string {
    "Pipeline completed. Tests: " + NatToString(s.passed) + " passed, " + NatToString(s.failed) + " failed"
  }

  /** Steps 5 to 8 of the runner, reached once the required layers built: tests,
      the test summary, validation and documentation. All of them continue on
      error, so the only warning that can be recorded is the failed-test count. */
  method RunAdvisorySteps(run: Command -> ProcessResult, testResults: RunResults, gxExists: bool)
    returns (tail: seq<Command>, warnings: seq<string>, summary: TestSummary)
    ensures tail == [Test] + (if gxExists then [GxValidate] else []) + [DocsGenerate] + (if gxExists then [GxDocs] else [])
    ensures summary == GetTestSummary(testResults)
    ensures warnings == if summary.failed > 0 then [NatToString(summary.failed) + " tests failed"] else []
  {
    tail := [];
    warnings := [];
    var step: CommandOutcome;

    // Step 5: tests (advisory), then the summary of the results file
    tail := tail + [Test];
    step := RunCommand(run(Test), true);
    if !step.success {
      warnings := warnings + ["Some dbt tests failed"];
    }
    summary := GetTestSummary(testResults);
    if summary.failed > 0 {
      warnings := warnings + [NatToString(summary.failed) + " tests failed"];
    }

    // Step 6: validation (advisory, only when configured)
    if gxExists {
      tail := tail + [GxValidate];
      step := RunCommand(run(GxValidate), true);
      if !step.success {
        warnings := warnings + ["Great Expectations validation had issues"];
      }
    }

    // Step 7: documentation (advisory)
    tail := tail + [DocsGenerate];
    step := RunCommand(run(DocsGenerate), true);
    if !step.success {
      warnings := warnings + ["Documentation generation had issues"];
    }

    // Step 8: data docs (advisory, only when configured)
    if gxExists {
      tail := tail + [GxDocs];
      step := RunCommand(run(GxDocs), true);
      if !step.success {
        warnings := warnings + ["GX docs generation had issues"];
      }
    }
  }

  /** The end of the runner's `main`: the final status, the notification and
      the exit code. Only a run without errors gets here, so the status stays
      "success" and the exit code is 0. */
  method Finish(
    issued: seq<Command>, errors: seq<string>, warnings: seq<string>, status: string,
    summary: TestSummary, webhookUrl: Option<string>)
    returns (out: PipelineRun)
    requires errors == [] && status == "success"
    ensures out == PipelineRun(issued, errors, warnings, "success", 0, Some(summary),
                               SendNotification("success", CompletionMessage(summary), webhookUrl))
    ensures out.notification.Some? <==> Truthy(webhookUrl)
    ensures out.notification.Some? ==>
      out.notification.value.iconEmoji == ":hospital:" &&
      out.notification.value.text == "\U{1F680} Pipeline success: " + CompletionMessage(summary)
  {
    assert "success" != "failed" by { assert "success"[0] != "failed"[0]; }
    var pipelineStatus := status;
    if !(pipelineStatus == "success" && |errors| == 0) {
      pipelineStatus := "failed";
    }

    var notification: Option<Notification> := None;
    if Truthy(webhookUrl) {
      notification := SendNotification(pipelineStatus, CompletionMessage(summary), webhookUrl);
    }

    var exitCode := if pipelineStatus == "failed" then 1 else 0;
    out := PipelineRun(issued, errors, warnings, pipelineStatus, exitCode, Some(summary), notification);
  }

  /** Steps 2 to 4 of the runner: the three required model layers in order.
      The first failing layer ends the sequence with its error; `errors` is
      empty exactly when all three built. */
  method RunModelLayers(run: Command -> ProcessResult) returns (issued: seq<Command>, errors: seq<string>)
    ensures errors == [] <==> RequiredOk(run)
    ensures run(Staging).returnCode != 0 ==>
      issued == [Staging] && errors == ["Staging models failed"]
    ensures run(Staging).returnCode == 0 && run(Intermediate).returnCode != 0 ==>
      issued == [Staging, Intermediate] && errors == ["Intermediate models failed"]
    ensures run(Staging).returnCode == 0 && run(Intermediate).returnCode == 0 && run(Marts).returnCode != 0 ==>
      issued == [Staging, Intermediate, Marts] && errors == ["Marts models failed"]
    ensures RequiredOk(run) ==> issued == [Staging, Intermediate, Marts]
  {
    errors := [];
    issued := [Staging];
    var step := RunCommand(run(Staging), false);
    if !step.success {
      errors := errors + ["Staging models failed"];
      return;
    }
    issued := issued + [Intermediate];
    step := RunCommand(run(Intermediate), false);
    if !step.success {
      errors := errors + ["Intermediate models failed"];
      return;
    }
    issued := issued + [Marts];
    step := RunCommand(run(Marts), false);
    if !step.success {
      errors := errors + ["Marts models failed"];
      return;
    }
  }

  /** The enhanced runner's `main`. */
  method RunEnhancedPipeline(
    run: Command -> ProcessResult, testResults: RunResults, gxExists: bool, webhookUrl: Option<string>)
    returns (out: PipelineRun)
    ensures out.exitCode == (if RequiredOk(run) then 0 else 1)
    ensures out.errors == [] <==> out.exitCode == 0
    ensures out.exitCode == 0 ==> out.status == "success"
    ensures out.exitCode != 0 ==> out.status == "failed" && |out.errors| == 1
    ensures run(Staging).returnCode != 0 ==>
      out.issued == [Deps, Staging] && out.errors == ["Staging models failed"]
    ensures run(Staging).returnCode == 0 && run(Intermediate).returnCode != 0 ==>
      out.issued == [Deps, Staging, Intermediate] && out.errors == ["Intermediate models failed"]
    ensures run(Staging).returnCode == 0 && run(Intermediate).returnCode == 0 && run(Marts).returnCode != 0 ==>
      out.issued == [Deps, Staging, Intermediate, Marts] && out.errors == ["Marts models failed"]
    ensures RequiredOk(run) ==>
      out.issued == [Deps, Staging, Intermediate, Marts, Test] + (if gxExists then [GxValidate] else []) +
                    [DocsGenerate] + (if gxExists then [GxDocs] else [])
    ensures !RequiredOk(run) ==> out.warnings == [] && out.summary == None && out.notification == None
    ensures RequiredOk(run) ==> out.summary == Some(GetTestSummary(testResults))
    ensures RequiredOk(run) ==>
      out.warnings == (if out.summary.value.failed > 0 then [NatToString(out.summary.value.failed) + " tests failed"] else [])
    ensures out.notification.Some? <==> RequiredOk(run) && Truthy(webhookUrl)
    ensures out.notification.Some? ==>
      out.notification == SendNotification("success", CompletionMessage(out.summary.value), webhookUrl)
    ensures out.notification.Some? ==>
      out.notification.value.iconEmoji == ":hospital:" &&
      out.notification.value.text == "\U{1F680} Pipeline success: " + CompletionMessage(out.summary.value)
  {
    var pipelineStatus := "success";
    var warnings: seq<string> := [];
    var issued: seq<Command> := [];

    // Step 1: dependencies (advisory)
    issued := issued + [Deps];
    var step := RunCommand(run(Deps), true);
    if !step.success {
      warnings := warnings + ["dbt deps had issues"];
    }

    // Steps 2-4: the required model layers
    var layers, errors := RunModelLayers(run);
    issued := issued + layers;
    if errors != [] {
      assert !RequiredOk(run) && warnings == [];
      pipelineStatus := "failed";
      return PipelineRun(issued, errors, warnings, pipelineStatus, 1, None, None);
    }
    assert RequiredOk(run) && issued == [Deps, Staging, Intermediate, Marts];

    var tail, advisoryWarnings, summary := RunAdvisorySteps(run, testResults, gxExists);
    issued := issued + tail;
    warnings := warnings + advisoryWarnings;

    out := Finish(issued, errors, warnings, pipelineStatus, summary, webhookUrl);
  }
}
