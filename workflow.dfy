/** A run of the compiled graph of backend/graph.py: the entry point, the
    edge table and the routing functions of Graph, with the node methods of
    the node modules executed one after the other on the one state object.
    Everything outside the process (the clone, Docker, Gemini, git, GitHub,
    the clock) is an input: the `World` the run meets. */
module Workflow {
  import opened Wrappers
  import Text
  import Json
  import opened State
  import opened Graph
  import FileTree
  import Disc = Discovery
  import Test = Tester
  import Debug = Debugger
  import Fix = Fixer
  import GitNode
  import Score = Scoring

  /** What `debugger_node` meets: whether the cloned path exists, the tree
      it walks, the files' contents and the model's reply. */
  datatype DebugInputs = DebugInputs(repoExists: bool, walk: seq<FileTree.WalkEntry>,
                                     contents: map<string, string>, reply: Debug.GeminiReply)

  /** The outside world of one run. The tester, debugger, fixer and git
      inputs are indexed by the retry count at which the node runs. */
  datatype World = World(
    workDir: string,
    clone: Disc.CloneOutcome,
    sandbox: nat -> Test.SandboxOutcome,
    testedAt: nat -> string,
    apiKeyPresent: bool,
    debug: nat -> DebugInputs,
    fix: nat -> Fix.FixInputs,
    git: nat -> GitNode.GitInputs,
    now: real)

  /** Whether tester run `r` passes. */
  predicate PassesAt(world: World, r: nat) {
    Test.ExitCode(world.sandbox(r)) == 0
  }

  /** The nodes the run executes from the tester at retry count `r`: a pass,
      or a failure that brings the count to MAX_RETRIES, goes to scoring;
      any other failure runs one more debugger, fixer, git cycle. */
  function Cycles(world: World, r: nat): (t: seq<Node>)
    ensures |t| >= 2 && t[0] == Tester && t[|t| - 1] == Scoring
    decreases MAX_RETRIES - r
  {
    if PassesAt(world, r) || r + 1 >= MAX_RETRIES then [Tester, Scoring]
    else [Tester, Debugger, Fixer, Git] + Cycles(world, r + 1)
  }

  /** Whether some tester run from retry count `r` on passes before the bound. */
  predicate PassesFrom(world: World, r: nat)
    decreases MAX_RETRIES - r
  {
    PassesAt(world, r) || (r + 1 < MAX_RETRIES && PassesFrom(world, r + 1))
  }

  /** The whole trace of a run starting at retry count `r0`. */
  function ExpectedTrace(world: World, r0: nat): seq<Node> {
    if world.clone.CloneFailed? then [Discovery, Scoring]
    else [Discovery] + Cycles(world, r0)
  }

  /** The nodes still to run from node `n` at retry count `r`. */
  function Remaining(world: World, n: Node, r: nat, r0: nat): seq<Node> {
    match n
    case Discovery => ExpectedTrace(world, r0)
    case Tester => Cycles(world, r)
    case Debugger => [Debugger, Fixer, Git] + Cycles(world, r)
    case Fixer => [Fixer, Git] + Cycles(world, r)
    case Git => [Git] + Cycles(world, r)
    case Scoring => [Scoring]
    case End => []
  }

  function Count(t: seq<Node>, n: Node): (c: nat)
    ensures c <= |t|
  {
    if t == [] then 0 else Count(t[..|t| - 1], n) + (if t[|t| - 1] == n then 1 else 0)
  }

  /** What running node `n` does to the state, in as much as the run's
      schedule and outcome depend on it: the routing counters move as Graph
      says, the request's names and the start time stay, fixes are only ever
      appended (at most one, by the fixer), discovery fails exactly on a failed
      clone, a test run passes exactly on exit code 0, and scoring writes the
      score of the fixes it finds. */
  predicate NodeEffect(n: Node, world: World, v: StateView, w: StateView) {
    && RoutingEffect(n, v, w)
    && w.teamName == v.teamName && w.leaderName == v.leaderName
    && w.repoUrl == v.repoUrl && w.startTime == v.startTime
    && v.fixesApplied <= w.fixesApplied
    && |w.fixesApplied| <= |v.fixesApplied| + (if n == Fixer then 1 else 0)
    && (n == Discovery ==>
          (w.currentStep == DiscoveryFailed <==> world.clone.CloneFailed?) && w.finalStatus == v.finalStatus)
    && (n == Tester ==> (w.finalStatus == Passed <==> PassesAt(world, v.retryCount)))
    && (n == Scoring ==>
          w.finalStatus == v.finalStatus && w.currentStep == v.currentStep && w.fixesApplied == v.fixesApplied
          && w.finalScore == Score.ScoreOf(w.totalTime, |w.fixesApplied|))
  }

  /** The state node `n` leaves, with the inputs the world holds for the
      current retry count. */
  function NodeStep(n: Node, world: World, v: StateView): StateView
    requires n != End
  {
    var r := v.retryCount;
    match n
    case Discovery => Disc.DiscoveryEffect(v, world.workDir, world.clone)
    case Tester => Test.TesterEffect(v, world.sandbox(r), world.testedAt(r))
    case Debugger => Debug.DebugEffect(v, world.apiKeyPresent, world.debug(r).reply)
    case Fixer => Fix.FixerEffect(v, world.fix(r))
    case Git => GitNode.GitEffect(v, world.git(r)).1
    case Scoring => Score.ScoringEffect(v, world.now)
  }

  /** The exception node `n` lets escape. The only exceptions modelled are
      the fixer's attribute errors outside its `try`; the tester's
      `docker.from_env()` and the model clients' constructions are taken
      not to raise. */
  function NodeError(n: Node, world: World, v: StateView): Option<string> {
    if n == Fixer then Fix.FixerError(v, world.fix(v.retryCount)) else None
  }

  /** Every node's step has the effect the schedule relies on. */
  lemma NodeStepEffect(n: Node, world: World, v: StateView)
    requires n != End
    ensures NodeEffect(n, world, v, NodeStep(n, world, v))
  {
    match n
    case Discovery => DiscoveryStep(world, v);
    case Tester => TesterStep(world, v);
    case Debugger => DebuggerStep(world, v);
    case Fixer => FixerStep(world, v);
    case Git => GitStep(world, v);
    case Scoring => ScoringStep(world, v);
  }

  /** How a run ends: the nodes it executed, the final state, and the
      exception that ended it, if any. */
  datatype RunEnd = RunEnd(trace: seq<Node>, state: StateView, raised: Option<string>)

  /** The run `r` with the nodes `t` executed before it. */
  function After(t: seq<Node>, r: RunEnd): RunEnd {
    r.(trace := t + r.trace)
  }

  lemma AfterNothing(r: RunEnd)
    ensures After([], r) == r
  {
    assert [] + r.trace == r.trace;
  }

  lemma AfterAfter(a: seq<Node>, b: seq<Node>, r: RunEnd)
    ensures After(a, After(b, r)) == After(a + b, r)
  {
    assert a + (b + r.trace) == a + b + r.trace;
  }

  /** The run from node `n` on state `v`: node after node as the routing
      functions choose, until END, or until a node raises, which ends the
      run with the state that node left. */
  function Finish(world: World, n: Node, v: StateView): RunEnd
    requires InCycle(n, v.retryCount)
    decreases NodeBudget(n, v.retryCount)
  {
    if n == End then RunEnd([], v, None)
    else
      var w := NodeStep(n, world, v);
      var e := NodeError(n, world, v);
      if e.Some? then RunEnd([n], w, e)
      else
        NodeStepEffect(n, world, v);
        StepUsesBudget(n, v, w);
        After([n], Finish(world, Next(n, w), w))
  }

  /** One step of `Finish`: a node that does not raise hands the state it
      leaves to the node routing picks; a raising node (the fixer, whose
      attribute errors are the only exceptions modelled) leaves the state as
      it was, and ends the run. */
  lemma StepFinish(world: World, n: Node, v: StateView)
    requires n != End && InCycle(n, v.retryCount)
    ensures var w := NodeStep(n, world, v);
      InCycle(Next(n, w), w.retryCount) && NodeBudget(Next(n, w), w.retryCount) < NodeBudget(n, v.retryCount)
    ensures var w := NodeStep(n, world, v);
      NodeError(n, world, v).None? ==> Finish(world, n, v) == After([n], Finish(world, Next(n, w), w))
    ensures var w := NodeStep(n, world, v); var e := NodeError(n, world, v);
      e.Some? ==>
        Finish(world, n, v) == RunEnd([n], w, e) && n == Fixer && w == v && Next(n, w) == Git
        && e == Fix.FixerError(w, world.fix(w.retryCount))
  {
    NodeStepEffect(n, world, v);
    StepUsesBudget(n, v, NodeStep(n, world, v));
  }

  /** Runs the single node `n` on the state, with the inputs the world holds
      for the current retry count; `raised` is the exception it lets escape. */
  method RunNode(st: AgentState, n: Node, world: World) returns (raised: Option<string>)
    requires n != End
    modifies st
    ensures st.View() == NodeStep(n, world, old(st.View()))
    ensures raised == NodeError(n, world, old(st.View()))
  {
    raised := None;
    match n
    case Discovery =>
      Disc.DiscoveryNode(st, world.workDir, world.clone);
    case Tester =>
      var r := st.retryCount;
      var _ := Test.TesterNode(st, world.sandbox(r), world.testedAt(r));
    case Debugger =>
      var d := world.debug(st.retryCount);
      var _ := Debug.DebuggerNode(st, world.apiKeyPresent, d.repoExists, d.walk, d.contents, d.reply);
    case Fixer =>
      var _, e := Fix.FixerNode(st, world.fix(st.retryCount));
      raised := e;
    case Git =>
      var _ := GitNode.GitNodeRun(st, world.git(st.retryCount));
    case Scoring =>
      Score.ScoringNode(st, world.now);
  }

  lemma DiscoveryStep(world: World, v: StateView)
    ensures NodeEffect(Discovery, world, v, Disc.DiscoveryEffect(v, world.workDir, world.clone))
  {
    Disc.DiscoveryEffectCases(v, world.workDir, world.clone);
    Disc.DiscoveryWritesFourFields(v, world.workDir, world.clone);
  }

  lemma TesterStep(world: World, v: StateView)
    ensures NodeEffect(Tester, world, v, Test.TesterEffect(v, world.sandbox(v.retryCount), world.testedAt(v.retryCount)))
  {
    Test.TesterEffectCases(v, world.sandbox(v.retryCount), world.testedAt(v.retryCount));
  }

  lemma DebuggerStep(world: World, v: StateView)
    ensures var d := world.debug(v.retryCount);
      NodeEffect(Debugger, world, v, Debug.DebugEffect(v, world.apiKeyPresent, d.reply))
  {
  }

  lemma FixerStep(world: World, v: StateView)
    ensures NodeEffect(Fixer, world, v, Fix.FixerEffect(v, world.fix(v.retryCount)))
  {
  }

  lemma GitStep(world: World, v: StateView)
    ensures NodeEffect(Git, world, v, GitNode.GitEffect(v, world.git(v.retryCount)).1)
  {
    GitNode.GitEffectCases(v, world.git(v.retryCount));
  }

  lemma ScoringStep(world: World, v: StateView)
    ensures NodeEffect(Scoring, world, v, Score.ScoringEffect(v, world.now))
  {
  }

  /** The budgets of Graph bound what remains of the run. */
  predicate Budgeted(n: Node, trace: seq<Node>, r: nat, r0: nat) {
    && InCycle(n, r)
    && |trace| + NodeBudget(n, r) <= NodeBudget(Discovery, r0)
    && Count(trace, Tester) + TesterBudget(n, r) <= TesterBudget(Discovery, r0)
  }

  /** The schedule so far: the trace run plus what remains is the expected
      trace. */
  predicate Scheduled(world: World, n: Node, trace: seq<Node>, r: nat, r0: nat) {
    && trace + Remaining(world, n, r, r0) == ExpectedTrace(world, r0)
    && (n == Discovery ==> trace == [] && r == r0)
    && (n != Discovery ==> trace != [] && trace[0] == Discovery)
    && (n == End ==> trace[|trace| - 1] == Scoring)
    && (world.clone.CloneFailed? ==> n == Discovery || n == Scoring || n == End)
  }

  lemma StepBudgeted(n: Node, trace: seq<Node>, v: StateView, w: StateView, r0: nat)
    requires n != End && Budgeted(n, trace, v.retryCount, r0) && RoutingEffect(n, v, w)
    ensures Budgeted(Next(n, w), trace + [n], w.retryCount, r0)
    ensures NodeBudget(Next(n, w), w.retryCount) < NodeBudget(n, v.retryCount)
  {
    StepUsesBudget(n, v, w);
    CountSnoc(trace, n, Tester);
  }

  lemma StepRemaining(world: World, n: Node, trace: seq<Node>, v: StateView, w: StateView, r0: nat)
    requires n != End && RoutingEffect(n, v, w)
    requires trace + Remaining(world, n, v.retryCount, r0) == ExpectedTrace(world, r0)
    requires n == Discovery ==> v.retryCount == r0 && (w.currentStep == DiscoveryFailed <==> world.clone.CloneFailed?)
    requires n == Tester ==> (w.finalStatus == Passed <==> PassesAt(world, v.retryCount))
    ensures trace + [n] + Remaining(world, Next(n, w), w.retryCount, r0) == ExpectedTrace(world, r0)
  {
    var rest := Remaining(world, Next(n, w), w.retryCount, r0);
    StepTrace(world, n, v, w, Next(n, w), r0);
    Associative(trace, [n], rest);
  }

  lemma StepScheduled(world: World, n: Node, trace: seq<Node>, v: StateView, w: StateView, r0: nat)
    requires n != End && Scheduled(world, n, trace, v.retryCount, r0) && RoutingEffect(n, v, w)
    requires n == Discovery ==> (w.currentStep == DiscoveryFailed <==> world.clone.CloneFailed?)
    requires n == Tester ==> (w.finalStatus == Passed <==> PassesAt(world, v.retryCount))
    ensures Scheduled(world, Next(n, w), trace + [n], w.retryCount, r0)
  {
    var m := Next(n, w);
    var rest := Remaining(world, m, w.retryCount, r0);
    StepRemaining(world, n, trace, v, w, r0);
    assert (trace + [n])[0] == Discovery by {
      if trace == [] {
        assert n == Discovery;
      }
    }
  }

  /** The outcome so far, against the state `v0` the run started from. */
  predicate Outcome(world: World, n: Node, trace: seq<Node>, v0: StateView, w: StateView) {
    && (n == Scoring || n == End ==>
          w.currentStep == DiscoveryFailed || w.finalStatus == Passed || w.retryCount >= MAX_RETRIES)
    && ((n == Scoring || n == End) && world.clone.Cloned? ==>
          (w.finalStatus == Passed <==> PassesFrom(world, v0.retryCount)))
    && (n != Discovery && n != Scoring && n != End ==>
          world.clone.Cloned? && (PassesFrom(world, v0.retryCount) <==> PassesFrom(world, w.retryCount)))
    && (n == Discovery ==> w == v0)
    && (world.clone.CloneFailed? && n != Discovery ==> w.finalStatus == v0.finalStatus)
    && w.teamName == v0.teamName && w.leaderName == v0.leaderName && w.repoUrl == v0.repoUrl
    && v0.fixesApplied <= w.fixesApplied && |w.fixesApplied| <= |v0.fixesApplied| + Count(trace, Fixer)
    && (n == End ==> w.finalScore == Score.ScoreOf(w.totalTime, |w.fixesApplied|))
  }

  lemma StepOutcome(world: World, n: Node, trace: seq<Node>, v0: StateView, v: StateView, w: StateView)
    requires n != End && NodeEffect(n, world, v, w) && Outcome(world, n, trace, v0, v)
    requires world.clone.CloneFailed? ==> n == Discovery || n == Scoring
    ensures Outcome(world, Next(n, w), trace + [n], v0, w)
  {
    CountSnoc(trace, n, Fixer);
    var m := Next(n, w);
    if n == Tester && m == Debugger {
      assert !PassesAt(world, v.retryCount) && w.retryCount == v.retryCount + 1 < MAX_RETRIES;
    }
  }

  /** What holds between two steps of a run, against the state `v0` the run
      started from: the budgets, the schedule and the outcome so far, and
      for a run ended by an exception, that it ended right after the fixer. */
  predicate Progress(world: World, n: Node, trace: seq<Node>, v0: StateView, w: StateView,
                     raised: Option<string>) {
    && Budgeted(n, trace, w.retryCount, v0.retryCount)
    && Scheduled(world, n, trace, w.retryCount, v0.retryCount)
    && Outcome(world, n, trace, v0, w)
    && (raised.Some? ==>
          n == Git && trace[|trace| - 1] == Fixer && raised == Fix.FixerError(w, world.fix(w.retryCount)))
  }

  /** What a whole run from `v0` promises. A run that does not raise
      executes exactly the trace the routing functions prescribe for the
      world, within the recursion limit: discovery first, scoring last, at
      most five tester runs. It ends PASSED exactly when some test run passed
      (for a successful clone), and the score is that of the fixes it kept. A
      run that raises stops inside that trace, right after the fixer, whose
      exception it is. Either way the request's names stay and fixes are only
      appended, at most one per fixer run. */
  predicate Completed(world: World, v0: StateView, run: RunEnd) {
    var t := run.trace;
    var w := run.state;
    && t != [] && t[0] == Discovery
    && |t| <= 1 + 4 * MAX_RETRIES - 2 < RECURSION_LIMIT && Count(t, Tester) <= MAX_RETRIES
    && (run.raised.None? ==> t == ExpectedTrace(world, v0.retryCount) && t[|t| - 1] == Scoring)
    && (run.raised.Some? ==>
          t < ExpectedTrace(world, v0.retryCount) && t[|t| - 1] == Fixer
          && run.raised == Fix.FixerError(w, world.fix(w.retryCount)))
    && (run.raised.None? ==> w.currentStep == DiscoveryFailed || w.finalStatus == Passed || w.retryCount >= MAX_RETRIES)
    && (world.clone.CloneFailed? ==> run.raised.None? && w.finalStatus == v0.finalStatus)
    && (run.raised.None? && world.clone.Cloned? ==> (w.finalStatus == Passed <==> PassesFrom(world, v0.retryCount)))
    && w.teamName == v0.teamName && w.leaderName == v0.leaderName && w.repoUrl == v0.repoUrl
    && v0.fixesApplied <= w.fixesApplied && |w.fixesApplied| <= |v0.fixesApplied| + Count(t, Fixer)
    && (run.raised.None? ==> w.finalScore == Score.ScoreOf(w.totalTime, |w.fixesApplied|))
  }

  /** One step of a run keeps its progress. */
  lemma ProgressStep(world: World, n: Node, trace: seq<Node>, v0: StateView, v: StateView)
    requires n != End && Progress(world, n, trace, v0, v, None)
    ensures var w := NodeStep(n, world, v);
      Progress(world, Next(n, w), trace + [n], v0, w, NodeError(n, world, v))
  {
    var w := NodeStep(n, world, v);
    NodeStepEffect(n, world, v);
    StepFinish(world, n, v);
    StepBudgeted(n, trace, v, w, v0.retryCount);
    StepScheduled(world, n, trace, v, w, v0.retryCount);
    StepOutcome(world, n, trace, v0, v, w);
  }

  /** A run that has stopped, at END or after a raising fixer, is complete. */
  lemma ProgressDone(world: World, n: Node, trace: seq<Node>, v0: StateView, w: StateView, raised: Option<string>)
    requires Progress(world, n, trace, v0, w, raised) && (n == End || raised.Some?)
    ensures Completed(world, v0, RunEnd(trace, w, raised))
  {
    RunBoundsBelowLimit(v0.retryCount);
    if raised.Some? {
      var rest := Remaining(world, n, w.retryCount, v0.retryCount);
      assert rest != [] && trace + rest == ExpectedTrace(world, v0.retryCount);
      assert trace == (trace + rest)[..|trace|];
    }
  }

  /** The rest of a run, from a point it has reached, completes it. */
  lemma {:induction false} ProgressFinish(world: World, n: Node, trace: seq<Node>, v0: StateView, v: StateView)
    requires Progress(world, n, trace, v0, v, None)
    ensures Completed(world, v0, After(trace, Finish(world, n, v)))
    decreases NodeBudget(n, v.retryCount)
  {
    if n == End {
      ProgressDone(world, n, trace, v0, v, None);
      assert After(trace, Finish(world, n, v)) == RunEnd(trace, v, None);
    } else {
      var w := NodeStep(n, world, v);
      var e := NodeError(n, world, v);
      ProgressStep(world, n, trace, v0, v);
      StepFinish(world, n, v);
      if e.Some? {
        ProgressDone(world, Next(n, w), trace + [n], v0, w, e);
      } else {
        var rest := Finish(world, Next(n, w), w);
        ProgressFinish(world, Next(n, w), trace + [n], v0, w);
        AfterAfter(trace, [n], rest);
      }
    }
  }

  /** Every run of the graph from its entry point is `Completed`. */
  lemma RunOutcome(world: World, v0: StateView)
    ensures Completed(world, v0, Finish(world, Discovery, v0))
  {
    var run := Finish(world, Discovery, v0);
    ProgressFinish(world, Discovery, [], v0, v0);
    AfterNothing(run);
  }

  /** `app.ainvoke(state)`: the graph from its entry point to END, or up to
      the node that raised. The nodes executed, the final state and the
      exception are those of `Finish`; `RunOutcome` states what they are. */
  method RunWorkflow(st: AgentState, world: World) returns (trace: seq<Node>, raised: Option<string>)
    modifies st
    ensures Finish(world, Discovery, old(st.View())) == RunEnd(trace, st.View(), raised)
  {
    ghost var v0 := st.View();
    var n := Discovery;
    trace := [];
    raised := None;
    while n != End && raised.None?
      invariant InCycle(n, st.retryCount)
      invariant raised.None? ==> After(trace, Finish(world, n, st.View())) == Finish(world, Discovery, v0)
      invariant raised.Some? ==> RunEnd(trace, st.View(), raised) == Finish(world, Discovery, v0)
      decreases NodeBudget(n, st.retryCount)
    {
      ghost var v := st.View();
      StepFinish(world, n, v);
      raised := RunNode(st, n, world);
      var m := Next(n, st.View());
      AfterAfter(trace, [n], Finish(world, m, st.View()));
      trace := trace + [n];
      n := m;
    }
    assert raised.None? ==> After(trace, Finish(world, n, st.View())) == RunEnd(trace, st.View(), None);
  }

  lemma Associative(a: seq<Node>, b: seq<Node>, c: seq<Node>)
    ensures a + b + c == a + (b + c)
  {
  }

  lemma CountSnoc(t: seq<Node>, n: Node, m: Node)
    ensures Count(t + [n], m) == Count(t, m) + (if n == m then 1 else 0)
  {
    assert (t + [n])[..|t|] == t;
  }

  /** One step of the run consumes the head of what remains. */
  lemma StepTrace(world: World, n: Node, v: StateView, w: StateView, m: Node, r0: nat)
    requires n != End && RoutingEffect(n, v, w) && m == Next(n, w)
    requires n == Discovery ==> v.retryCount == r0 && (w.currentStep == DiscoveryFailed <==> world.clone.CloneFailed?)
    requires n == Tester ==> (w.finalStatus == Passed <==> PassesAt(world, v.retryCount))
    ensures Remaining(world, n, v.retryCount, r0) == [n] + Remaining(world, m, w.retryCount, r0)
  {
    if n == Tester {
      if PassesAt(world, v.retryCount) {
        assert m == Scoring;
      } else if v.retryCount + 1 >= MAX_RETRIES {
        assert m == Scoring;
      } else {
        assert m == Debugger;
      }
    } else if n == Discovery {
      if world.clone.Cloned? {
        assert m == Tester;
      }
    }
  }

  /** The run of tests/test_integration.py: the clone succeeds and the first
      test run fails, the second passes. One debugger, fixer, git cycle runs
      between them and the run ends PASSED. */
  lemma IntegrationScenario(world: World)
    requires world.clone.Cloned? && !PassesAt(world, 0) && PassesAt(world, 1)
    ensures ExpectedTrace(world, 0) == [Discovery, Tester, Debugger, Fixer, Git, Tester, Scoring]
    ensures PassesFrom(world, 0)
    ensures Count(ExpectedTrace(world, 0), Fixer) == 1
  {
    var t := ExpectedTrace(world, 0);
    var t6 := [Discovery, Tester, Debugger, Fixer, Git, Tester];
    var t3 := [Discovery, Tester, Debugger];
    assert t[..6] == t6 && t6[..5] + [Tester] == t6;
    assert Count(t, Fixer) == Count(t6[..5], Fixer);
    assert t6[..4] == t3 + [Fixer] && t6[..5] == t6[..4] + [Git];
    assert Count(t6[..5], Fixer) == Count(t3, Fixer) + 1;
    assert t3[..2] == [Discovery, Tester] && t3[..2][..1] == [Discovery] && [Discovery][..0] == [];
  }

  /** The logs of the two container runs of tests/test_integration.py. */
  const FIRST_RUN_LOGS: string := "AssertionError: assert 2 - 3 == 5"
  const SECOND_RUN_LOGS: string := "Tests Passed!"

  /** The debugger's answer in that test, as `json.loads` returns it. */
  const TEST_ANALYSIS: Json.Json := Json.JObject(map[
    "file" := Json.JStr("calc.py"),
    "line" := Json.JInt(2),
    "bug_type" := Json.JStr("LOGIC"),
    "description" := Json.JStr("Subtraction used instead of addition")])

  /** The fixer's answer in that test: plain code, no fence. */
  const TEST_FIX: string := "def add(a, b):\n    return a + b"

  /** The world tests/test_integration.py sets up with its mocks: the clone
      succeeds, the first container run exits 1 and the second 0, the key is
      set, the debugger and the fixer get the answers above, and the file the
      clone created can be read and written. */
  predicate IntegrationWorld(world: World) {
    && world.clone.Cloned?
    && world.sandbox(0) == Test.Finished(Some(1), FIRST_RUN_LOGS)
    && world.sandbox(1) == Test.Finished(Some(0), SECOND_RUN_LOGS)
    && world.apiKeyPresent
    && world.debug(1).reply == Debug.Parsed(TEST_ANALYSIS)
    && world.fix(1).apiKeyPresent && world.fix(1).pathExists && world.fix(1).writeOk
    && world.fix(1).reply == Fix.FixText(TEST_FIX)
  }

  /** The run from `n` on `v` ends as the run from `m` on `w` does. */
  predicate Hands(world: World, n: Node, v: StateView, m: Node, w: StateView)
    requires InCycle(n, v.retryCount)
  {
    && InCycle(m, w.retryCount)
    && Finish(world, n, v).state == Finish(world, m, w).state
    && Finish(world, n, v).raised == Finish(world, m, w).raised
  }

  /** A successful clone goes on to the tester with the fixes untouched. */
  lemma CloneStep(world: World, v: StateView) returns (w: StateView)
    requires world.clone.Cloned?
    ensures Hands(world, Discovery, v, Tester, w) && w.retryCount == v.retryCount && w.fixesApplied == v.fixesApplied
  {
    w := NodeStep(Discovery, world, v);
    StepFinish(world, Discovery, v);
    NodeStepEffect(Discovery, world, v);
    Disc.DiscoveryWritesFourFields(v, world.workDir, world.clone);
  }

  /** A failing test run below the bound stores its logs, uses one retry and
      goes on to the debugger. */
  lemma FailingTestStep(world: World, v: StateView) returns (w: StateView)
    requires Test.ExitCode(world.sandbox(v.retryCount)) != 0 && v.retryCount + 1 < MAX_RETRIES
    ensures && Hands(world, Tester, v, Debugger, w) && w.retryCount == v.retryCount + 1
      && w.errorLogs == Test.RunLogs(world.sandbox(v.retryCount)) && w.fixesApplied == v.fixesApplied
  {
    w := NodeStep(Tester, world, v);
    StepFinish(world, Tester, v);
  }

  /** A passing test run goes on to scoring with the fixes untouched. */
  lemma PassingTestStep(world: World, v: StateView) returns (w: StateView)
    requires Test.ExitCode(world.sandbox(v.retryCount)) == 0
    ensures Hands(world, Tester, v, Scoring, w) && w.finalStatus == Passed && w.fixesApplied == v.fixesApplied
  {
    w := NodeStep(Tester, world, v);
    StepFinish(world, Tester, v);
  }

  /** With logs and a key, a parsed answer that is not a list becomes the
      analysis; the debugger goes on to the fixer. */
  lemma AnalysisStep(world: World, v: StateView, answer: Json.Json) returns (w: StateView)
    requires InCycle(Debugger, v.retryCount) && v.errorLogs != "" && world.apiKeyPresent
    requires world.debug(v.retryCount).reply == Debug.Parsed(answer) && !answer.JArray?
    ensures && Hands(world, Debugger, v, Fixer, w) && w.currentAnalysis == answer
      && w.retryCount == v.retryCount && w.fixesApplied == v.fixesApplied
  {
    w := NodeStep(Debugger, world, v);
    StepFinish(world, Debugger, v);
  }

  /** A fixer run that records a fix goes on to git. */
  lemma FixStep(world: World, v: StateView, file: string, text: string) returns (w: StateView)
    requires InCycle(Fixer, v.retryCount)
    requires var a := v.currentAnalysis; a.JObject? && "file" in a.fields && a.fields["file"] == Json.JStr(file) && file != ""
    requires var x := world.fix(v.retryCount);
      x.apiKeyPresent && x.pathExists && x.reply == Fix.FixText(text) && !Text.StartsWith(text, "```") && x.writeOk
    ensures && Hands(world, Fixer, v, Git, w) && w.retryCount == v.retryCount
      && |w.fixesApplied| == |v.fixesApplied| + 1
      && w.fixesApplied[|v.fixesApplied|].bugType == Fix.Field(v.currentAnalysis, "bug_type")
  {
    w := NodeStep(Fixer, world, v);
    Fix.FixRecorded(v, world.fix(v.retryCount), file, text);
    StepFinish(world, Fixer, v);
  }

  /** The git node goes back to the tester and keeps the fixes. */
  lemma CommitStep(world: World, v: StateView) returns (w: StateView)
    requires InCycle(Git, v.retryCount)
    ensures Hands(world, Git, v, Tester, w) && w.retryCount == v.retryCount && w.fixesApplied == v.fixesApplied
  {
    w := NodeStep(Git, world, v);
    StepFinish(world, Git, v);
    NodeStepEffect(Git, world, v);
  }

  /** Scoring ends the run, keeping the status and the fixes. */
  lemma ScoringLast(world: World, v: StateView)
    ensures var run := Finish(world, Scoring, v);
      && run.raised.None? && run.state.finalStatus == v.finalStatus && run.state.fixesApplied == v.fixesApplied
      && run.state.finalScore == Score.ScoreOf(run.state.totalTime, |v.fixesApplied|)
  {
    StepFinish(world, Scoring, v);
    NodeStepEffect(Scoring, world, v);
  }

  lemma TestAnalysisFields()
    ensures TEST_ANALYSIS.JObject? && "file" in TEST_ANALYSIS.fields && TEST_ANALYSIS.fields["file"] == Json.JStr("calc.py")
    ensures Fix.Field(TEST_ANALYSIS, "bug_type") == Json.JStr("LOGIC")
    ensures !Text.StartsWith(TEST_FIX, "```")
  {
    assert TEST_FIX[0] == 'd';
  }

  /** The first part of that run: discovery, the failing test run, and the
      debugger storing the answer. */
  lemma IntegrationUpToFixer(world: World, v0: StateView) returns (w: StateView)
    requires IntegrationWorld(world) && v0.retryCount == 0 && v0.fixesApplied == []
    ensures Hands(world, Discovery, v0, Fixer, w)
    ensures w.currentAnalysis == TEST_ANALYSIS && w.retryCount == 1 && w.fixesApplied == []
  {
    var w1 := CloneStep(world, v0);
    var w2 := FailingTestStep(world, w1);
    w := AnalysisStep(world, w2, TEST_ANALYSIS);
  }

  /** The rest of that run: the fix, the commit, the passing test run and
      scoring. */
  lemma IntegrationFromFixer(world: World, v: StateView)
    requires IntegrationWorld(world) && v.currentAnalysis == TEST_ANALYSIS && v.retryCount == 1 && v.fixesApplied == []
    ensures var run := Finish(world, Fixer, v);
      && run.raised.None?
      && run.state.finalStatus == Passed
      && |run.state.fixesApplied| == 1 && run.state.fixesApplied[0].bugType == Json.JStr("LOGIC")
      && run.state.finalScore > 0
  {
    TestAnalysisFields();
    var w4 := FixStep(world, v, "calc.py", TEST_FIX);
    var w5 := CommitStep(world, w4);
    var w6 := PassingTestStep(world, w5);
    ScoringLast(world, w6);
  }

  /** The assertions of tests/test_integration.py hold of the run on that
      world: it raises nothing and ends PASSED with exactly one fix, of bug
      type LOGIC, and a positive score. */
  lemma IntegrationRun(world: World, v0: StateView)
    requires IntegrationWorld(world) && v0.retryCount == 0 && v0.fixesApplied == []
    ensures var run := Finish(world, Discovery, v0);
      && run.raised.None?
      && run.state.finalStatus == Passed
      && |run.state.fixesApplied| == 1 && run.state.fixesApplied[0].bugType == Json.JStr("LOGIC")
      && run.state.finalScore > 0
  {
    var w := IntegrationUpToFixer(world, v0);
    IntegrationFromFixer(world, w);
  }

  /** tests/test_integration.py's `test_healing_loop`: the state it builds,
      the graph run on the mocked world, and its four assertions. The keys
      the test's state leaves out get the values no node of this run reads. */
  method HealingLoopTest(world: World, repoUrl: string, startTime: real) returns (final: StateView)
    requires IntegrationWorld(world)
    ensures final.finalStatus == Passed
    ensures |final.fixesApplied| == 1
    ensures final.fixesApplied[0].bugType == Json.JStr("LOGIC")
    ensures final.finalScore > 0
  {
    var st := new AgentState.Initial(repoUrl, "TestTeam", "TestLeader", "", startTime, 0, None, "");
    ghost var v0 := st.View();
    var _, _ := RunWorkflow(st, world);
    IntegrationRun(world, v0);
    final := st.View();
  }

  /** Tests that never pass make five tester runs and four repair cycles. */
  lemma NeverPassingRun(world: World)
    requires world.clone.Cloned? && forall r :: 0 <= r < MAX_RETRIES ==> !PassesAt(world, r)
    ensures |ExpectedTrace(world, 0)| == 1 + 4 * (MAX_RETRIES - 1) + 2
    ensures !PassesFrom(world, 0)
  {
    assert !PassesAt(world, 0) && !PassesAt(world, 1) && !PassesAt(world, 2);
    assert !PassesAt(world, 3) && !PassesAt(world, 4);
  }
}
