/** The tester node of backend/nodes/tester.py: it picks a sandbox image and
    command by stack, runs the tests (the run is an input here), and records
    the outcome in the state. */
module Tester {
  import opened Wrappers
  import opened Json
  import opened State
  import Graph

  /** The container image and shell command a test run uses. */
  datatype Sandbox = Sandbox(image: string, command: string)

  const PYTEST_COMMAND: string :=
    "bash -c '([ -f requirements.txt ] && pip install -r requirements.txt --quiet) 2>&1; "
    + "pip install pytest --quiet 2>&1; pytest -v --tb=short 2>&1'"

  const NPM_COMMAND: string := "bash -c 'npm install 2>&1 && (npm test 2>&1 || true)'"

  /** NODE runs npm in `node:18`; PYTHON and every other stack run the same
      pytest command in `python:3.11-slim`. */
  function SelectSandbox(stack: Stack): (s: Sandbox)
    ensures stack == Node ==> s == Sandbox("node:18", NPM_COMMAND)
    ensures stack != Node ==> s == Sandbox("python:3.11-slim", PYTEST_COMMAND)
  {
    match stack
    case Python => Sandbox("python:3.11-slim", PYTEST_COMMAND)
    case Node => Sandbox("node:18", NPM_COMMAND)
    case Unknown => Sandbox("python:3.11-slim", PYTEST_COMMAND)
  }

  /** What the Docker run produced: the container finished (`wait` may omit
      `StatusCode`), or Docker raised a `ContainerError` or any other exception. */
  datatype SandboxOutcome =
    | Finished(statusCode: Option<int>, logs: string)
    | ContainerError(stderr: string, message: string)
    | ExecutionFailed(message: string)

  /** The exit code the node records: the container's `StatusCode`, 1 when it
      is missing, and 1 after any exception inside the `try`. */
  function ExitCode(o: SandboxOutcome): (code: int)
    ensures !o.Finished? ==> code == 1
    ensures o.Finished? && o.statusCode.None? ==> code == 1
    ensures o.Finished? && o.statusCode.Some? ==> code == o.statusCode.value
  {
    match o
    case Finished(status, _) => status.GetOr(1)
    case ContainerError(_, _) => 1
    case ExecutionFailed(_) => 1
  }

  /** The log text the node stores in `error_logs`. */
  function RunLogs(o: SandboxOutcome): string {
    match o
    case Finished(_, logs) => logs
    case ContainerError(stderr, message) =>
      "Container error: " + (if stderr != "" then stderr else message)
    case ExecutionFailed(message) => "Docker Execution Failed: " + message
  }

  /** The `TEST_RUN` event of one run, carrying the exit code and the retry
      count before this run. */
  function TestRunEvent(timestamp: string, exitCode: int, retryCount: nat): TimelineEvent {
    TimelineEvent(timestamp, "TEST_RUN", map["exit_code" := JInt(exitCode), "retry_count" := JInt(retryCount)])
  }

  /** The state `tester_node` leaves behind. Exit code 0 marks the run PASSED
      and healing complete and keeps the retry count; any other code marks it
      FAILED and counts one more retry. The logs replace `error_logs`, one event
      is appended to the timeline, `current_step` becomes TESTING_COMPLETE, and
      nothing else changes. */
  function TesterEffect(v: StateView, outcome: SandboxOutcome, timestamp: string): StateView {
    var code := ExitCode(outcome);
    v.(errorLogs := RunLogs(outcome),
       timeline := v.timeline + [TestRunEvent(timestamp, code, v.retryCount)],
       finalStatus := if code == 0 then Passed else Failed,
       isHealingComplete := if code == 0 then true else v.isHealingComplete,
       retryCount := if code == 0 then v.retryCount else v.retryCount + 1,
       currentStep := TestingComplete)
  }

  /** What the tester's effect promises about the counters, the timeline,
      the logs and what it keeps. */
  lemma TesterEffectCases(v: StateView, outcome: SandboxOutcome, timestamp: string)
    ensures var w := TesterEffect(v, outcome, timestamp);
      && (w.finalStatus == Passed <==> ExitCode(outcome) == 0)
      && (w.finalStatus != Passed ==> w.finalStatus == Failed && w.retryCount == v.retryCount + 1)
      && (w.finalStatus == Passed ==> w.retryCount == v.retryCount && w.isHealingComplete)
      && w.timeline == v.timeline + [TestRunEvent(timestamp, ExitCode(outcome), v.retryCount)]
      && w.errorLogs == RunLogs(outcome) && w.currentStep == TestingComplete
      && w.fixesApplied == v.fixesApplied && w.detectedStack == v.detectedStack
      && w == v.(errorLogs := w.errorLogs, timeline := w.timeline, finalStatus := w.finalStatus,
                 isHealingComplete := w.isHealingComplete, retryCount := w.retryCount,
                 currentStep := w.currentStep)
  {
  }

  /** The fields the tester writes, computed from the state before the run. */
  method Record(v: StateView, outcome: SandboxOutcome, timestamp: string)
    returns (logs: string, timeline: seq<TimelineEvent>, status: Status, complete: bool, retries: nat)
    ensures TesterEffect(v, outcome, timestamp) == v.(errorLogs := logs, timeline := timeline,
      finalStatus := status, isHealingComplete := complete, retryCount := retries, currentStep := TestingComplete)
  {
    var exitCode := ExitCode(outcome);
    logs := RunLogs(outcome);
    timeline := v.timeline + [TestRunEvent(timestamp, exitCode, v.retryCount)];
    if exitCode == 0 {
      status, complete, retries := Passed, true, v.retryCount;
    } else {
      status, complete, retries := Failed, v.isHealingComplete, v.retryCount + 1;
    }
  }

  /** `tester_node`: runs in the sandbox its stack selects and updates the
      state in place as `TesterEffect` says. */
  method TesterNode(st: AgentState, outcome: SandboxOutcome, timestamp: string) returns (ran: Sandbox)
    modifies st
    ensures ran == SelectSandbox(old(st.detectedStack))
    ensures st.View() == TesterEffect(old(st.View()), outcome, timestamp)
  {
    ran := SelectSandbox(st.detectedStack);
    var logs, timeline, status, complete, retries := Record(st.View(), outcome, timestamp);
    Write(st, logs, timeline, status, complete, retries);
  }

  /** The six writes of `tester_node` to the state. */
  method Write(st: AgentState, logs: string, timeline: seq<TimelineEvent>, status: Status, complete: bool,
               retries: nat)
    modifies st
    ensures st.View() == old(st.View()).(errorLogs := logs, timeline := timeline, finalStatus := status,
      isHealingComplete := complete, retryCount := retries, currentStep := TestingComplete)
  {
    st.errorLogs, st.timeline, st.finalStatus := logs, timeline, status;
    st.isHealingComplete, st.retryCount, st.currentStep := complete, retries, TestingComplete;
  }
}
