/** The pipeline tracker of frontend/src/components/Sidebar.jsx: the status
    `getStageStatus` gives each of the five stages from the store's logs and
    run flags. */
module Sidebar {
  import opened Wrappers
  import opened AgentStore

  const STAGE_KEYS: seq<string> := ["DISCOVERY", "TESTER", "DEBUGGER", "FIXER", "GIT"]

  datatype StageStatus = Idle | Running | Done | Error

  /** `PIPELINE_STAGES.findIndex((s) => s.key === key)`: -1 when absent. */
  function FindIndex(keys: seq<string>, key: string): (i: int)
    ensures -1 <= i < |keys|
    ensures i == -1 <==> key !in keys
    ensures i >= 0 ==> keys[i] == key && forall j :: 0 <= j < i ==> keys[j] != key
    decreases |keys|
  {
    if keys == [] then -1
    else if keys[0] == key then 0
    else
      var i := FindIndex(keys[1..], key);
      if i == -1 then -1 else i + 1
  }

  /** The agent of the most recent log that belongs to a stage
      (`[...logs].reverse().find(...)?.agent`). */
  function ActiveAgent(logs: seq<LogEntry>): (a: Option<string>)
    ensures a.Some? ==> a.value in STAGE_KEYS
    ensures a.None? <==> forall k :: 0 <= k < |logs| ==> logs[k].agent !in STAGE_KEYS
    decreases |logs|
  {
    if logs == [] then None
    else if logs[|logs| - 1].agent in STAGE_KEYS then Some(logs[|logs| - 1].agent)
    else
      var a := ActiveAgent(logs[..|logs| - 1]);
      assert forall k :: 0 <= k < |logs| - 1 ==> logs[..|logs| - 1][k] == logs[k];
      a
  }

  /** The active agent is the agent of a stage log with no stage log after it. */
  lemma {:induction false} ActiveAgentIsLast(logs: seq<LogEntry>) returns (k: nat)
    requires ActiveAgent(logs).Some?
    ensures k < |logs| && logs[k].agent == ActiveAgent(logs).value
    ensures forall j :: k < j < |logs| ==> logs[j].agent !in STAGE_KEYS
    decreases |logs|
  {
    var n := |logs| - 1;
    if logs[n].agent in STAGE_KEYS {
      k := n;
    } else {
      k := ActiveAgentIsLast(logs[..n]);
      assert logs[..n][k] == logs[k];
      forall j | k < j < |logs| ensures logs[j].agent !in STAGE_KEYS {
        if j < n {
          assert logs[..n][j] == logs[j];
        }
      }
    }
  }

  /** `activeIdx`: -1 when no log belongs to a stage (`findIndex` of null). */
  function ActiveIndex(logs: seq<LogEntry>): (i: int)
    ensures -1 <= i < |STAGE_KEYS|
  {
    match ActiveAgent(logs)
    case None => -1
    case Some(a) => FindIndex(STAGE_KEYS, a)
  }

  /** `getStageStatus`. */
  function StageStatusOf(stageKey: string, logs: seq<LogEntry>, isRunning: bool, runComplete: bool,
                         runData: Option<MockRun>): StageStatus
  {
    if logs == [] && !runComplete then Idle
    else
      var stageIdx := FindIndex(STAGE_KEYS, stageKey);
      var activeIdx := ActiveIndex(logs);
      if runComplete then
        if runData.Some? && runData.value.passed then Done
        else if stageIdx < activeIdx then Done
        else if stageIdx == activeIdx then Error
        else Idle
      else if isRunning then
        if stageIdx < activeIdx then Done
        else if stageIdx == activeIdx then Running
        else Idle
      else Idle
  }

  /** Before any log and any completed run every stage is idle. */
  lemma IdleAtStart(stageKey: string, isRunning: bool, runData: Option<MockRun>)
    ensures StageStatusOf(stageKey, [], isRunning, false, runData) == Idle
  {
  }

  /** A completed, passed run marks every stage done. */
  lemma PassedRunAllDone(stageKey: string, logs: seq<LogEntry>, isRunning: bool, run: MockRun)
    requires run.passed
    ensures StageStatusOf(stageKey, logs, isRunning, true, Some(run)) == Done
  {
  }

  lemma StageKeysDistinct()
    ensures forall i, j :: 0 <= i < j < |STAGE_KEYS| ==> STAGE_KEYS[i] != STAGE_KEYS[j]
  {
    assert STAGE_KEYS[0][0] == 'D' && STAGE_KEYS[1][0] == 'T' && STAGE_KEYS[3][0] == 'F' && STAGE_KEYS[4][0] == 'G';
    assert STAGE_KEYS[2][0] == 'D' && STAGE_KEYS[0][1] == 'I' && STAGE_KEYS[2][1] == 'E';
  }

  /** Stage `i` of the tracker, with the active stage: before it done, the
      active one error after a failed run or running while the run goes on,
      after it idle. */
  lemma StageByPosition(i: nat, logs: seq<LogEntry>, isRunning: bool, runComplete: bool,
                        runData: Option<MockRun>)
    requires i < |STAGE_KEYS| && (logs != [] || runComplete)
    requires runComplete ==> !(runData.Some? && runData.value.passed)
    requires runComplete || isRunning
    ensures var s := StageStatusOf(STAGE_KEYS[i], logs, isRunning, runComplete, runData);
      var a := ActiveIndex(logs);
      (i < a ==> s == Done)
      && (i == a ==> s == (if runComplete then Error else Running))
      && (i > a ==> s == Idle)
  {
    StageKeysDistinct();
    assert FindIndex(STAGE_KEYS, STAGE_KEYS[i]) == i;
  }

  /** At most one stage is running or in error at any time. */
  lemma AtMostOneActive(i: nat, j: nat, logs: seq<LogEntry>, isRunning: bool, runComplete: bool,
                        runData: Option<MockRun>)
    requires i < |STAGE_KEYS| && j < |STAGE_KEYS|
    requires StageStatusOf(STAGE_KEYS[i], logs, isRunning, runComplete, runData) in {Running, Error}
    requires StageStatusOf(STAGE_KEYS[j], logs, isRunning, runComplete, runData) in {Running, Error}
    ensures i == j
  {
    ActiveStageIsActiveIndex(i, logs, isRunning, runComplete, runData);
    ActiveStageIsActiveIndex(j, logs, isRunning, runComplete, runData);
  }

  lemma ActiveStageIsActiveIndex(i: nat, logs: seq<LogEntry>, isRunning: bool, runComplete: bool,
                                 runData: Option<MockRun>)
    requires i < |STAGE_KEYS|
    requires StageStatusOf(STAGE_KEYS[i], logs, isRunning, runComplete, runData) in {Running, Error}
    ensures i == ActiveIndex(logs)
  {
    StageKeysDistinct();
    assert FindIndex(STAGE_KEYS, STAGE_KEYS[i]) == i;
  }

  /** None of the agents of the store's mock log sequence is a stage key. */
  lemma MockAgentsAreNoStage(k: nat)
    requires k < |AGENT_LOG_SEQUENCE|
    ensures AGENT_LOG_SEQUENCE[k].agent !in STAGE_KEYS
  {
    var a := AGENT_LOG_SEQUENCE[k].agent;
    assert a[0] in {'C', 'A', 'P', 'E', 'V'};
    if a[0] == 'E' {
      assert a == "EXECUTOR" && |a| == 8;
    }
  }

  /** So while the mock stream runs in order no stage ever leaves `idle`;
      only a completed, passed run turns them all to done. */
  lemma MockStreamLeavesStagesIdle(stageKey: string, v: StoreView)
    requires LogsFollowSequence(v) && stageKey in STAGE_KEYS
    requires !(v.runComplete && v.runData.Some? && v.runData.value.passed)
    ensures StageStatusOf(stageKey, v.terminalLogs, v.isRunning, v.runComplete, v.runData) == Idle
  {
    forall k | 0 <= k < |v.terminalLogs| ensures v.terminalLogs[k].agent !in STAGE_KEYS {
      MockAgentsAreNoStage(k);
    }
    assert ActiveIndex(v.terminalLogs) == -1;
  }
}
