/** The workflow state (`AgentState` of backend/state.py, with the extra keys
    backend/main.py and backend/nodes/git_node.py put in it). Every node receives
    the one state object and updates it in place, so it is a class here; `View`
    gives its value, and node methods state their effect as an update of it. */
module State {
  import opened Wrappers
  import opened Json

  /** `detected_stack`. */
  datatype Stack = Python | Node | Unknown

  /** `current_step`. */
  datatype Step =
    | Start
    | DiscoveryFailed
    | DiscoveryComplete
    | TestingComplete
    | DebugComplete
    | FixApplied
    | GitCommitComplete

  /** `final_status`. */
  datatype Status = Pending | Passed | Failed

  /** One entry of `fixes_applied` (`FixDetail`); `bug_type` and `line` are copied
      from the analysis as they are, so they can be any JSON value. */
  datatype FixDetail = FixDetail(
    path: string,
    bugType: Json,
    line: Json,
    description: string,
    commitMessage: Option<string>)

  /** One entry of `timeline`. */
  datatype TimelineEvent = TimelineEvent(timestamp: string, event: string, details: map<string, Json>)

  /** The value of the whole state dictionary. `branchPushed`, `prUrl` and
      `branchName` are None until git_node first writes them. */
  datatype StateView = StateView(
    today: string,
    repoUrl: string,
    teamName: string,
    leaderName: string,
    repoPath: string,
    upstreamUrl: string,
    forkUrl: string,
    startTime: real,
    currentStep: Step,
    retryCount: nat,
    errorLogs: string,
    detectedStack: Stack,
    testFiles: seq<string>,
    fixesApplied: seq<FixDetail>,
    timeline: seq<TimelineEvent>,
    finalStatus: Status,
    totalTime: real,
    finalScore: int,
    isHealingComplete: bool,
    currentAnalysis: Json,
    maxIterations: int,
    iterations: int,
    runId: Option<string>,
    modelName: string,
    branchPushed: Option<bool>,
    prUrl: Option<string>,
    branchName: Option<string>)

  class AgentState {
    var today: string
    var repoUrl: string
    var teamName: string
    var leaderName: string
    var repoPath: string
    var upstreamUrl: string
    var forkUrl: string
    var startTime: real
    var currentStep: Step
    var retryCount: nat
    var errorLogs: string
    var detectedStack: Stack
    var testFiles: seq<string>
    var fixesApplied: seq<FixDetail>
    var timeline: seq<TimelineEvent>
    var finalStatus: Status
    var totalTime: real
    var finalScore: int
    var isHealingComplete: bool
    var currentAnalysis: Json
    var maxIterations: int
    var iterations: int
    var runId: Option<string>
    var modelName: string
    var branchPushed: Option<bool>
    var prUrl: Option<string>
    var branchName: Option<string>

    function View(): StateView
      reads this
    {
      StateView(today, repoUrl, teamName, leaderName, repoPath, upstreamUrl, forkUrl, startTime,
        currentStep, retryCount, errorLogs, detectedStack, testFiles, fixesApplied, timeline,
        finalStatus, totalTime, finalScore, isHealingComplete, currentAnalysis, maxIterations,
        iterations, runId, modelName, branchPushed, prUrl, branchName)
    }

    /** The initial state `run_healing_workflow` builds for a request: nothing
        discovered, no retries, no fixes, no events, status PENDING. */
    constructor Initial(repoUrl: string, teamName: string, leaderName: string, today: string,
                        startTime: real, maxIterations: int, runId: Option<string>, modelName: string)
      ensures View() == StateView(today, repoUrl, teamName, leaderName, "", repoUrl, "", startTime,
        Start, 0, "", Unknown, [], [], [], Pending, 0.0, 0, false, JObject(map[]),
        maxIterations, 0, runId, modelName, None, None, None)
    {
      this.today := today;
      this.repoUrl := repoUrl;
      this.teamName := teamName;
      this.leaderName := leaderName;
      this.repoPath := "";
      this.upstreamUrl := repoUrl;
      this.forkUrl := "";
      this.startTime := startTime;
      this.currentStep := Start;
      this.retryCount := 0;
      this.errorLogs := "";
      this.detectedStack := Unknown;
      this.testFiles := [];
      this.fixesApplied := [];
      this.timeline := [];
      this.finalStatus := Pending;
      this.totalTime := 0.0;
      this.finalScore := 0;
      this.isHealingComplete := false;
      this.currentAnalysis := JObject(map[]);
      this.maxIterations := maxIterations;
      this.iterations := 0;
      this.runId := runId;
      this.modelName := modelName;
      this.branchPushed := None;
      this.prUrl := None;
      this.branchName := None;
    }
  }
}
