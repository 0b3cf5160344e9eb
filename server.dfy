/** The service of backend/main.py: its branch-name sanitiser, the request
    defaults, the bookkeeping of a background healing run in `run_status` and
    the results list, and the `/status` lookup. The HTTP framework, the
    background scheduling and the reading and writing of results.json are
    not part of this model: the results list is a field of the server. */
module Server {
  import opened Wrappers
  import opened Text
  import opened Json
  import opened State
  import GitNode
  import Graph
  import Workflow
  import Score = Scoring

  /** The character `_sanitize` turns `c` into before filtering: only ' '
      becomes '_'; a '-' stays and is then dropped. */
  function MainChar(c: char): char {
    if c == ' ' then '_' else UpperChar(c)
  }

  function MainMap(s: string): (r: string)
    ensures |r| == |s| && forall i :: 0 <= i < |s| ==> r[i] == MainChar(s[i])
  {
    seq(|s|, i requires 0 <= i < |s| => MainChar(s[i]))
  }

  function GitMap(s: string): (r: string)
    ensures |r| == |s| && forall i :: 0 <= i < |s| ==> r[i] == GitNode.GitChar(s[i])
  {
    seq(|s|, i requires 0 <= i < |s| => GitNode.GitChar(s[i]))
  }

  /** `_sanitize`: `re.sub(r"[^A-Z0-9_]", "", s.upper().replace(" ", "_"))`. */
  function MainSanitize(s: string): (r: string)
    ensures forall i :: 0 <= i < |r| ==> GitNode.BranchChar(r[i])
  {
    GitNode.KeepBranchChars(ReplaceAll(Upper(s), " ", "_"))
  }

  /** `_sanitize` works character by character. */
  lemma MainSanitizeIsCharMap(s: string)
    ensures MainSanitize(s) == GitNode.KeepBranchChars(MainMap(s))
  {
    ReplaceCharIsMap(Upper(s), ' ', '_');
    assert MapChar(Upper(s), ' ', '_') == MainMap(s);
  }

  /** Sanitising twice is sanitising once. */
  lemma MainSanitizeIdempotent(s: string)
    ensures MainSanitize(MainSanitize(s)) == MainSanitize(s)
  {
    var r := MainSanitize(s);
    assert Upper(r) == r;
    ReplaceAbsent(r, ' ', "_");
    GitNode.KeepBranchCharsIdentity(r);
  }

  /** On input without '-' the service's sanitiser and the git node's agree. */
  lemma SanitizersAgreeWithoutHyphen(s: string)
    requires '-' !in s
    ensures MainSanitize(s) == GitNode.Sanitize(s)
  {
    MainSanitizeIsCharMap(s);
    GitNode.SanitizeIsCharMap(s);
    assert MainMap(s) == GitMap(s);
  }

  lemma MainMapConcat(a: string, b: string)
    ensures MainMap(a + b) == MainMap(a) + MainMap(b)
  {
  }

  lemma GitMapConcat(a: string, b: string)
    ensures GitMap(a + b) == GitMap(a) + GitMap(b)
  {
  }

  /** A '-' vanishes in `_sanitize`, ... */
  lemma HyphenDropped(a: string, b: string)
    ensures MainSanitize(a + "-" + b) == MainSanitize(a) + MainSanitize(b)
  {
    MainMapConcat(a + "-", b);
    MainMapConcat(a, "-");
    assert MainMap("-") == "-";
    MainSanitizeIsCharMap(a + "-" + b);
    MainSanitizeIsCharMap(a);
    MainSanitizeIsCharMap(b);
    GitNode.KeepBranchCharsConcat(MainMap(a) + MainMap("-"), MainMap(b));
    GitNode.KeepBranchCharsConcat(MainMap(a), MainMap("-"));
    assert GitNode.KeepBranchChars("-") == [];
  }

  /** ... where the git node's sanitiser puts a '_'. */
  lemma HyphenKept(a: string, b: string)
    ensures GitNode.Sanitize(a + "-" + b) == GitNode.Sanitize(a) + "_" + GitNode.Sanitize(b)
  {
    GitMapConcat(a + "-", b);
    GitMapConcat(a, "-");
    assert GitMap("-") == "_";
    GitNode.SanitizeIsCharMap(a + "-" + b);
    GitNode.SanitizeIsCharMap(a);
    GitNode.SanitizeIsCharMap(b);
    assert GitMap(a) == seq(|a|, i requires 0 <= i < |a| => GitNode.GitChar(a[i]));
    assert GitMap(b) == seq(|b|, i requires 0 <= i < |b| => GitNode.GitChar(b[i]));
    assert GitMap(a + "-" + b) == seq(|a + "-" + b|, i requires 0 <= i < |a + "-" + b| => GitNode.GitChar((a + "-" + b)[i]));
    GitNode.KeepBranchCharsConcat(GitMap(a) + GitMap("-"), GitMap(b));
    GitNode.KeepBranchCharsConcat(GitMap(a), GitMap("-"));
    assert GitNode.KeepBranchChars("_") == "_";
  }

  /** `_branch_name`: the same layout and suffix as the git node's name. */
  function BranchName(team: string, leader: string): (b: string)
    ensures EndsWith(b, GitNode.BRANCH_SUFFIX)
  {
    MainSanitize(team) + "_" + MainSanitize(leader) + GitNode.BRANCH_SUFFIX
  }

  /** The reported branch is the pushed branch when neither name holds a '-'. */
  lemma BranchNamesAgreeWithoutHyphen(team: string, leader: string)
    requires '-' !in team && '-' !in leader
    ensures BranchName(team, leader) == GitNode.MakeBranchName(team, leader)
  {
    SanitizersAgreeWithoutHyphen(team);
    SanitizersAgreeWithoutHyphen(leader);
  }

  lemma MainSanitizeAlEx(leader: string)
    requires leader == "al-ex"
    ensures MainSanitize(leader) == "ALEX"
  {
    MainMapAlEx(leader);
    KeepAlEx(MainMap(leader));
    MainSanitizeIsCharMap(leader);
  }

  lemma MainMapAlEx(leader: string)
    requires leader == "al-ex"
    ensures MainMap(leader) == "AL-EX"
  {
    var m := MainMap(leader);
    assert m[0] == 'A' && m[1] == 'L' && m[2] == '-' && m[3] == 'E' && m[4] == 'X';
  }

  lemma KeepAlEx(m: string)
    requires m == "AL-EX"
    ensures GitNode.KeepBranchChars(m) == "ALEX"
  {
    assert m == "AL" + (['-'] + "EX");
    assert "AL" + "EX" == "ALEX";
    KeepDropsOne("AL", '-', "EX");
  }

  lemma KeepDropsOne(a: string, c: char, b: string)
    requires forall i :: 0 <= i < |a| ==> GitNode.BranchChar(a[i])
    requires forall i :: 0 <= i < |b| ==> GitNode.BranchChar(b[i])
    requires !GitNode.BranchChar(c)
    ensures GitNode.KeepBranchChars(a + ([c] + b)) == a + b
  {
    var cb := [c] + b;
    assert cb[0] == c && cb[1..] == b;
    assert GitNode.KeepBranchChars(cb) == b by {
      GitNode.KeepBranchCharsIdentity(b);
    }
    GitNode.KeepBranchCharsConcat(a, cb);
    GitNode.KeepBranchCharsIdentity(a);
  }

  /** With a '-' they differ: for leader "al-ex" the service reports a branch
      that the git node never pushes. */
  lemma HyphenedLeaderDiffers(team: string, leader: string)
    requires '-' !in team && leader == "al-ex"
    ensures BranchName(team, leader) != GitNode.MakeBranchName(team, leader)
  {
    MainSanitizeAlEx(leader);
    GitNode.SanitizeAlEx(leader);
    SanitizersAgreeWithoutHyphen(team);
    assert |BranchName(team, leader)| + 1 == |GitNode.MakeBranchName(team, leader)|;
  }

  const DEFAULT_MAX_ITERATIONS: int := 5
  const DEFAULT_MODEL_NAME: string := "gemini-2.5-flash"

  /** `HealingRequest`. */
  datatype HealingRequest = HealingRequest(repoUrl: string, teamName: string, leaderName: string,
                                           maxIterations: int, modelName: string)

  /** The request the body parses to, with the defaults for omitted fields. */
  function ParseRequest(repoUrl: string, teamName: string, leaderName: string,
                        maxIterations: Option<int>, modelName: Option<string>): (r: HealingRequest)
    ensures r.repoUrl == repoUrl && r.teamName == teamName && r.leaderName == leaderName
    ensures r.maxIterations == (if maxIterations.Some? then maxIterations.value else 5)
    ensures r.modelName == (if modelName.Some? then modelName.value else "gemini-2.5-flash")
  {
    HealingRequest(repoUrl, teamName, leaderName, maxIterations.GetOr(DEFAULT_MAX_ITERATIONS),
                   modelName.GetOr(DEFAULT_MODEL_NAME))
  }

  /** The answer of `/start-healing`; `runId` is what `create_run` returned. */
  datatype StartReply = StartReply(message: string, repoUrl: string, teamName: string, branchName: string,
                                   status: string, runId: Option<string>)

  function StartHealing(request: HealingRequest, runId: Option<string>): (r: StartReply)
    ensures r.status == "running" && r.runId == runId && r.teamName == request.teamName
    ensures r.branchName == BranchName(request.teamName, request.leaderName)
  {
    StartReply("Healing process started in background", request.repoUrl, request.teamName,
               BranchName(request.teamName, request.leaderName), "running", runId)
  }

  /** One entry of the results list. */
  datatype ResultEntry = ResultEntry(
    repoUrl: string,
    teamName: string,
    leaderName: string,
    branchName: string,
    finalStatus: Status,
    totalTime: real,
    finalScore: int,
    baseScore: Json,
    speedBonus: Json,
    efficiencyPenalty: Json,
    fixesApplied: seq<FixDetail>,
    timeline: seq<TimelineEvent>,
    retryCount: nat,
    completedAt: string,
    startedAt: string)

  /** A `run_status` entry. */
  datatype RunStatus = Running(teamName: string) | RunDone(result: ResultEntry) | RunError(error: string)

  /** The answer of `/status/{team_name}`. */
  datatype StatusReply = Live(entry: RunStatus) | DoneFromResults(result: ResultEntry) | NotFound

  /** Python's type name of a value, as an AttributeError names it. */
  function TypeName(j: Json): string {
    match j
    case JNull => "NoneType"
    case JBool(_) => "bool"
    case JInt(_) => "int"
    case JStr(_) => "str"
    case JArray(_) => "list"
    case JObject(_) => "dict"
  }

  function NoGet(j: Json): string {
    "'" + TypeName(j) + "' object has no attribute 'get'"
  }

  /** `breakdown.get(key, 0)`. */
  function BreakdownField(breakdown: map<string, Json>, key: string): Json {
    if key in breakdown then breakdown[key] else JInt(0)
  }

  /** The three breakdown values the result carries, read from
      `current_analysis['scoring_breakdown']`, each 0 when missing; a
      `.get` on a value that is not a dictionary raises. */
  function Breakdown(analysis: Json): (r: Result<(Json, Json, Json), string>)
    ensures !analysis.JObject? ==> r == Failure(NoGet(analysis))
    ensures analysis.JObject? && "scoring_breakdown" !in analysis.fields ==> r == Success((JInt(0), JInt(0), JInt(0)))
  {
    if !analysis.JObject? then Failure(NoGet(analysis))
    else
      var b := Get(analysis, "scoring_breakdown").GetOr(JObject(map[]));
      if !b.JObject? then Failure(NoGet(b))
      else Success((BreakdownField(b.fields, "base_score"), BreakdownField(b.fields, "speed_bonus"),
                    BreakdownField(b.fields, "efficiency_penalty")))
  }

  /** The index of the last result of `team`, searching from the end as
      `reversed(existing)` does. */
  function LastOfTeam(results: seq<ResultEntry>, team: string): (k: Option<nat>)
    ensures k.Some? ==> k.value < |results| && results[k.value].teamName == team
    ensures k.Some? ==> forall j :: k.value < j < |results| ==> results[j].teamName != team
    ensures k.None? <==> forall j :: 0 <= j < |results| ==> results[j].teamName != team
    decreases |results|
  {
    if results == [] then None
    else if results[|results| - 1].teamName == team then Some(|results| - 1)
    else
      var k := LastOfTeam(results[..|results| - 1], team);
      assert forall j :: 0 <= j < |results| - 1 ==> results[..|results| - 1][j] == results[j];
      k
  }

  /** `get_status`: the live entry when there is one, else the last stored
      result of the team, else not found. */
  function StatusOf(runStatus: map<string, RunStatus>, results: seq<ResultEntry>, team: string): (r: StatusReply)
    ensures team in runStatus ==> r == Live(runStatus[team])
    ensures team !in runStatus ==>
      (r == NotFound <==> forall j :: 0 <= j < |results| ==> results[j].teamName != team)
    ensures r.DoneFromResults? ==> team !in runStatus && r.result in results && r.result.teamName == team
  {
    if team in runStatus then Live(runStatus[team])
    else match LastOfTeam(results, team)
      case Some(k) => DoneFromResults(results[k])
      case None => NotFound
  }

  /** A result stored after an earlier one of the same team hides it. */
  lemma LaterResultWins(results: seq<ResultEntry>, e: ResultEntry, runStatus: map<string, RunStatus>)
    requires e.teamName !in runStatus
    ensures StatusOf(runStatus, results + [e], e.teamName) == DoneFromResults(e)
  {
    assert (results + [e])[|results|] == e;
  }

  /** The result entry built from the final state, or the exception raised
      while building it. */
  function ResultOf(v: StateView, completedAt: string, startedAt: string): (r: Result<ResultEntry, string>)
    ensures r.Success? ==>
      r.value.repoUrl == v.repoUrl && r.value.teamName == v.teamName && r.value.leaderName == v.leaderName
      && r.value.branchName == BranchName(v.teamName, v.leaderName)
      && r.value.finalStatus == v.finalStatus && r.value.finalScore == v.finalScore
      && r.value.totalTime == v.totalTime && r.value.fixesApplied == v.fixesApplied
      && r.value.retryCount == v.retryCount
    ensures r.Failure? <==> Breakdown(v.currentAnalysis).Failure?
  {
    match Breakdown(v.currentAnalysis)
    case Failure(e) => Failure(e)
    case Success((base, bonus, penalty)) =>
      Success(ResultEntry(v.repoUrl, v.teamName, v.leaderName, BranchName(v.teamName, v.leaderName),
                          v.finalStatus, v.totalTime, v.finalScore, base, bonus, penalty,
                          v.fixesApplied, v.timeline, v.retryCount, completedAt, startedAt))
  }

  /** The initial state `run_healing_workflow` builds for a request: the
      request's fields, nothing discovered, no retries, no fixes, no events,
      status PENDING. */
  function InitialView(request: HealingRequest, runId: Option<string>, today: string, startTime: real): StateView {
    StateView(today, request.repoUrl, request.teamName, request.leaderName, "",
      request.repoUrl, "", startTime, Start, 0, "", Unknown, [], [], [], Pending, 0.0, 0, false,
      JObject(map[]), request.maxIterations, 0, runId, request.modelName, None, None, None)
  }

  /** The run a `/start-healing` request starts. */
  ghost function HealingEnd(request: HealingRequest, runId: Option<string>, today: string, startTime: real,
                            world: Workflow.World): Workflow.RunEnd
  {
    Workflow.Finish(world, Graph.Discovery, InitialView(request, runId, today, startTime))
  }

  /** The `app.invoke` of `run_healing_workflow`: the graph runs on the
      request's initial state, and the state it ends with keeps the request's
      names, carries the score of its fixes and is PASSED exactly when some
      test run passed. */
  method InvokeGraph(st: AgentState, world: Workflow.World, ghost request: HealingRequest, ghost runId: Option<string>,
                     ghost today: string, ghost startTime: real)
    returns (raised: Option<string>)
    requires st.View() == InitialView(request, runId, today, startTime)
    modifies st
    ensures var run := HealingEnd(request, runId, today, startTime, world);
      run.state == st.View() && run.raised == raised
    ensures var w := st.View();
      && w.teamName == request.teamName && w.leaderName == request.leaderName && w.repoUrl == request.repoUrl
      && (raised.None? ==> w.finalScore == Score.ScoreOf(w.totalTime, |w.fixesApplied|))
      && (raised.None? && world.clone.Cloned? ==> (w.finalStatus == Passed <==> Workflow.PassesFrom(world, 0)))
      && (world.clone.CloneFailed? ==> raised.None? && w.finalStatus == Pending)
  {
    ghost var v0 := st.View();
    var _, failure := Workflow.RunWorkflow(st, world);
    Workflow.RunOutcome(world, v0);
    raised := failure;
  }

  /** The service's state: the in-memory `run_status` dictionary, keyed by
      team name, and the list of completed results. */
  class Service {
    var runStatus: map<string, RunStatus>
    var results: seq<ResultEntry>

    /** A service whose results list holds what was stored before. */
    constructor (stored: seq<ResultEntry>)
      ensures runStatus == map[] && results == stored
    {
      runStatus := map[];
      results := stored;
    }

    /** `get_status`, with its loop over the reversed results. */
    method GetStatus(team: string) returns (reply: StatusReply)
      ensures reply == StatusOf(runStatus, results, team)
    {
      if team in runStatus {
        return Live(runStatus[team]);
      }
      var i := |results|;
      while i > 0
        invariant 0 <= i <= |results|
        invariant forall j :: i <= j < |results| ==> results[j].teamName != team
      {
        i := i - 1;
        if results[i].teamName == team {
          assert LastOfTeam(results, team) == Some(i);
          return DoneFromResults(results[i]);
        }
      }
      reply := NotFound;
    }

    /** The start of `run_healing_workflow`: the team's entry becomes running
        and the initial state is built from the request. */
    method BeginRun(request: HealingRequest, runId: Option<string>, today: string, startTime: real)
      returns (st: AgentState)
      modifies this
      ensures fresh(st)
      ensures runStatus == old(runStatus)[request.teamName := Running(request.teamName)]
      ensures results == old(results)
      ensures st.View() == InitialView(request, runId, today, startTime)
    {
      runStatus := runStatus[request.teamName := Running(request.teamName)];
      st := new AgentState.Initial(request.repoUrl, request.teamName, request.leaderName, today, startTime,
                                   request.maxIterations, runId, request.modelName);
    }

    /** The end of `run_healing_workflow`: an exception inside the `try`
        (`raised`, or the one building the result) makes the entry an error;
        otherwise the result is appended and the entry is done with it. */
    method FinishRun(team: string, final: StateView, raised: Option<string>, completedAt: string, startedAt: string)
      modifies this
      ensures raised.Some? ==> runStatus == old(runStatus)[team := RunError(raised.value)] && results == old(results)
      ensures raised.None? ==>
        match ResultOf(final, completedAt, startedAt)
        case Failure(e) => runStatus == old(runStatus)[team := RunError(e)] && results == old(results)
        case Success(entry) => runStatus == old(runStatus)[team := RunDone(entry)] && results == old(results) + [entry]
    ensures runStatus.Keys == old(runStatus).Keys + {team}
    ensures forall t :: t in old(runStatus) && t != team ==> t in runStatus && runStatus[t] == old(runStatus)[t]
    ensures runStatus[team].RunDone? || runStatus[team].RunError?
    ensures runStatus[team].RunError? ==> results == old(results)
    ensures runStatus[team].RunDone? ==>
      var e := runStatus[team].result;
      && results == old(results) + [e]
      && e.teamName == final.teamName && e.leaderName == final.leaderName && e.repoUrl == final.repoUrl
      && e.branchName == BranchName(final.teamName, final.leaderName)
      && e.finalStatus == final.finalStatus && e.finalScore == final.finalScore
      && e.totalTime == final.totalTime && e.fixesApplied == final.fixesApplied
    {
      if raised.Some? {
        runStatus := runStatus[team := RunError(raised.value)];
        return;
      }
      var r := ResultOf(final, completedAt, startedAt);
      match r
      case Failure(e) =>
        runStatus := runStatus[team := RunError(e)];
      case Success(entry) =>
        results := results + [entry];
        runStatus := runStatus[team := RunDone(entry)];
    }

    /** `run_healing_workflow` for one request, run to completion. The
        team's entry ends done or in error and no other team's entry
        changes; a done entry is the result appended last, and it names the
        branch `/start-healing` reported, carries the score of the fixes it
        lists and reports PASSED exactly when some test run passed. */
    method RunHealingWorkflow(request: HealingRequest, runId: Option<string>, today: string, startTime: real,
                              world: Workflow.World, raised: Option<string>, completedAt: string, startedAt: string)
      modifies this
      ensures forall t :: t in old(runStatus) && t != request.teamName ==> t in runStatus && runStatus[t] == old(runStatus)[t]
      ensures runStatus.Keys == old(runStatus).Keys + {request.teamName}
      ensures runStatus[request.teamName].RunDone? || runStatus[request.teamName].RunError?
      ensures runStatus[request.teamName].RunError? ==> results == old(results)
      ensures runStatus[request.teamName].RunDone? ==>
        var e := runStatus[request.teamName].result;
        && results == old(results) + [e]
        && e.teamName == request.teamName && e.leaderName == request.leaderName && e.repoUrl == request.repoUrl
        && e.branchName == StartHealing(request, runId).branchName
        && e.finalScore == Score.ScoreOf(e.totalTime, |e.fixesApplied|)
        && (world.clone.Cloned? ==> (e.finalStatus == Passed <==> Workflow.PassesFrom(world, 0)))
        && (world.clone.CloneFailed? ==> e.finalStatus == Pending)
      ensures var run := HealingEnd(request, runId, today, startTime, world);
        run.raised.Some? ==> runStatus[request.teamName] == RunError(run.raised.value) && results == old(results)
    {
      var st := BeginRun(request, runId, today, startTime);
      var failure := InvokeGraph(st, world, request, runId, today, startTime);
      FinishRun(request.teamName, st.View(), if failure.Some? then failure else raised, completedAt, startedAt);
    }
  }
}
