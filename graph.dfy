/** The workflow graph of backend/graph.py: its constant retry bound, the two
    routing functions and the edge table, with the bound on how many nodes a
    run can execute. */
module Graph {
  import opened State

  /** The retry bound routing uses; the request's `max_iterations` plays no part. */
  const MAX_RETRIES: nat := 5

  /** The recursion limit the graph is run with. */
  const RECURSION_LIMIT: nat := MAX_RETRIES * 6 + 10

  datatype Node = Discovery | Tester | Debugger | Fixer | Git | Scoring | End

  /** The labels the routing functions return ('ok', 'failed', 'passed', 'max_retries'). */
  datatype Route = RouteOk | RouteFailed | RoutePassed | RouteMaxRetries

  /** `check_discovery_status`: 'failed' exactly for a failed discovery. */
  function CheckDiscoveryStatus(v: StateView): (r: Route)
    ensures r == RouteFailed <==> v.currentStep == DiscoveryFailed
    ensures r == RouteOk <==> v.currentStep != DiscoveryFailed
  {
    if v.currentStep == DiscoveryFailed then RouteFailed else RouteOk
  }

  /** `check_test_status`: a PASSED status wins whatever the retry count; otherwise
      the count decides between another cycle and giving up. */
  function CheckTestStatus(v: StateView): (r: Route)
    ensures r != RouteOk
    ensures v.finalStatus == Passed ==> r == RoutePassed
    ensures v.finalStatus != Passed && v.retryCount >= MAX_RETRIES ==> r == RouteMaxRetries
    ensures v.finalStatus != Passed && v.retryCount < MAX_RETRIES ==> r == RouteFailed
  {
    if v.finalStatus == Passed then RoutePassed
    else if v.retryCount >= MAX_RETRIES then RouteMaxRetries
    else RouteFailed
  }

  /** The nodes the edge table lets follow `n`, over all states. */
  function Successors(n: Node): set<Node> {
    match n
    case Discovery => {Tester, Scoring}
    case Tester => {Scoring, Debugger}
    case Debugger => {Fixer}
    case Fixer => {Git}
    case Git => {Tester}
    case Scoring => {End}
    case End => {}
  }

  /** The node the compiled graph runs after `n`, given the state `n` left
      behind: the conditional edges after discovery and the tester, then
      debugger -> fixer -> git -> tester, and scoring -> END. */
  function Next(n: Node, v: StateView): (m: Node)
    requires n != End
    ensures m in Successors(n)
    ensures m == End <==> n == Scoring
    ensures n == Discovery ==> (m == Scoring <==> v.currentStep == DiscoveryFailed)
    ensures n == Tester ==> (m == Debugger <==> v.finalStatus != Passed && v.retryCount < MAX_RETRIES)
  {
    match n
    case Discovery =>
      (match CheckDiscoveryStatus(v)
       case RouteFailed => Scoring
       case _ => Tester)
    case Tester =>
      (match CheckTestStatus(v)
       case RouteFailed => Debugger
       case _ => Scoring)
    case Debugger => Fixer
    case Fixer => Git
    case Git => Tester
    case Scoring => End
  }

  /** How many more tester runs can happen from node `n` at retry count `r`
      (at debugger, fixer and git the count is below MAX_RETRIES). */
  function TesterBudget(n: Node, r: nat): nat {
    match n
    case Discovery => if r < MAX_RETRIES then MAX_RETRIES - r else 1
    case Tester => if r < MAX_RETRIES then MAX_RETRIES - r else 1
    case Debugger => if r < MAX_RETRIES then MAX_RETRIES - r else 0
    case Fixer => if r < MAX_RETRIES then MAX_RETRIES - r else 0
    case Git => if r < MAX_RETRIES then MAX_RETRIES - r else 0
    case Scoring => 0
    case End => 0
  }

  /** How many more nodes can run from node `n` at retry count `r`: a tester
      run with k failures left is followed by at most k - 1 more cycles of four
      nodes and the scoring node. */
  function NodeBudget(n: Node, r: nat): nat {
    var tester: nat := if r + 1 >= MAX_RETRIES then 2 else 4 * (MAX_RETRIES - r) - 2;
    match n
    case Discovery => 1 + tester
    case Tester => tester
    case Debugger => 3 + tester
    case Fixer => 2 + tester
    case Git => 1 + tester
    case Scoring => 1
    case End => 0
  }

  /** What a node does to the counters routing reads: only the tester changes
      `retry_count`, by one on a failure, and only the tester sets PASSED. */
  predicate RoutingEffect(n: Node, v: StateView, w: StateView) {
    if n == Tester then
      (w.finalStatus == Passed && w.retryCount == v.retryCount)
      || (w.finalStatus == Failed && w.retryCount == v.retryCount + 1)
    else
      w.retryCount == v.retryCount
  }

  /** Debugger, fixer and git are only reached below the retry bound. */
  predicate InCycle(n: Node, r: nat) {
    (n == Debugger || n == Fixer || n == Git) ==> r < MAX_RETRIES
  }

  /** Each step of a run uses up at least one unit of both budgets' worth of
      progress: the node budget strictly drops, and the tester budget drops by
      one exactly when the tester ran. */
  lemma {:induction false} StepUsesBudget(n: Node, v: StateView, w: StateView)
    requires n != End && InCycle(n, v.retryCount) && RoutingEffect(n, v, w)
    ensures InCycle(Next(n, w), w.retryCount)
    ensures NodeBudget(Next(n, w), w.retryCount) < NodeBudget(n, v.retryCount)
    ensures TesterBudget(Next(n, w), w.retryCount) + (if n == Tester then 1 else 0)
              <= TesterBudget(n, v.retryCount)
  {
    var m := Next(n, w);
    if n == Tester {
      if w.finalStatus == Passed {
        assert m == Scoring;
      } else if w.retryCount >= MAX_RETRIES {
        assert m == Scoring;
      } else {
        assert m == Debugger;
        assert v.retryCount + 1 < MAX_RETRIES;
      }
    } else if n == Discovery {
      assert m == Scoring || m == Tester;
    }
  }

  /** A run that starts at discovery executes at most 19 nodes, below the
      recursion limit of 40, and at most MAX_RETRIES tester runs. */
  lemma RunBoundsBelowLimit(r: nat)
    ensures NodeBudget(Discovery, r) <= 1 + 4 * MAX_RETRIES - 2
    ensures 1 + 4 * MAX_RETRIES - 2 == 19 < RECURSION_LIMIT == 40
    ensures TesterBudget(Discovery, r) <= MAX_RETRIES
  {
  }
}
