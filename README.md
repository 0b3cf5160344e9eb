# Arbiter self-healing CI, modelled in Dafny

Arbiter clones a repository and detects its stack. It runs the tests in a
Docker sandbox. When they fail, it lets a language model locate the bug and
rewrite the file, then commits and pushes the fix to a dedicated branch and
opens a pull request. It runs the tests again, up to five times, and finally
scores the run. A FastAPI service starts such runs in the background and
reports their status. A React dashboard shows a mock run with its pipeline
tracker.

This project models that core:

- The workflow graph: its routing functions, its edge table and the retry bound.
- The six nodes (discovery, tester, debugger, fixer, git, scoring). They are
  methods that update one `AgentState` object in place, as the Python nodes
  update their state dictionary.
- The service's bookkeeping:
  - the `run_status` dictionary and the results list, as fields of a
    `Service` class;
  - the branch name it reports;
  - the `/status` lookup.
- The Supabase client's guards and its previous-fix lookup.
- The frontend store's branch-name rule, mock run and streaming actions, and
  the sidebar's stage tracker.

Everything outside the process is an input of the model:

- Docker runs, Gemini answers, git and GitHub outcomes;
- the file tree of a clone (an `os.walk` listing) and the readable file contents;
- environment variables, clocks and random draws.

The model states what each node does with those inputs.
`Workflow.RunWorkflow` runs the real node methods along the edge table, and
`Workflow.Finish` is the same run written as a function. `Workflow.RunOutcome`
proves the following about it:

- the sequence of nodes a run executes;
- a run executes at most 19 nodes, under the recursion limit of 40;
- at most five tester runs happen;
- the only exceptions modelled are the fixer's attribute errors, and a run
  that raises one stops right after the fixer;
- the final status is PASSED exactly when some test run passed;
- the score is the score of the fixes the run recorded.

`Server.Service.RunHealingWorkflow` wraps that run in the service's
`run_status` and results bookkeeping, including the error entry an escaping
exception leaves.

Modules:

| module | file | models |
|---|---|---|
| `State` | state.dfy | backend/state.py |
| `Graph` | graph.dfy | backend/graph.py |
| `Discovery` | discovery.dfy | backend/nodes/discovery.py |
| `Tester` | tester.dfy | backend/nodes/tester.py |
| `Debugger` | debugger.dfy | backend/nodes/debugger.py |
| `Fixer` | fixer.dfy | backend/nodes/fixer.py |
| `GitNode` | git_node.dfy | backend/nodes/git_node.py |
| `Scoring` | scoring.dfy | backend/scoring.py |
| `Workflow` | workflow.dfy | the compiled graph run by backend/main.py |
| `Server` | server.dfy | backend/main.py |
| `Supabase` | supabase.dfy | backend/utils/supabase_manager.py |
| `AgentStore` | agent_store.dfy | frontend/src/store/useAgentStore.js |
| `Sidebar` | sidebar.dfy | frontend/src/components/Sidebar.jsx |

These modules are shared helpers:

- `Wrappers`: Option and Result.
- `Json`: JSON values, Python truthiness and `str()`.
- `Text`: the Python and JavaScript string operations the code uses.
- `FileTree`: walk entries.

Three behaviours of the code are worth stating on their own:

- The branch suffix is `_AI_Fix`, with lower-case `ix` (backend/nodes/git_node.py:12).
- A clone without test files still completes discovery and goes on to the
  tester: only DISCOVERY_FAILED routes to scoring (backend/graph.py:13-16).
- The score starts at 100 for every run, and the speed bonus depends only on
  the duration (backend/scoring.py:20-31).

## Model

| member | source | states |
|---|---|---|
| State.AgentState.Initial | backend/main.py:85-112 | the initial state: request fields, START, retry 0, no fixes or events, PENDING, empty analysis |
| Graph.CheckDiscoveryStatus | backend/graph.py:13-16 | 'failed' exactly when the step is DISCOVERY_FAILED, 'ok' otherwise |
| Graph.CheckTestStatus | backend/graph.py:19-26 | PASSED wins over any retry count; otherwise 'max_retries' at count >= 5 and 'failed' below |
| Graph.Next | backend/graph.py:43-66 | the next node is in the edge table; END only after scoring; discovery goes to scoring iff it failed; the tester goes to the debugger iff not passed and below the bound |
| Graph.StepUsesBudget | backend/graph.py:43-66 | every step strictly lowers the node budget, and a tester step lowers the tester budget by one |
| Graph.RunBoundsBelowLimit | backend/graph.py:68-76 | a run from discovery executes at most 19 nodes, under the recursion limit 40, and at most 5 tester runs |
| Discovery.RepoName | backend/nodes/discovery.py:28-31 | the clone directory name is the team name, '_', then the URL's last segment without ".git" |
| Discovery.TrailingSlashIgnored | backend/nodes/discovery.py:30 | a trailing '/' on the URL does not change the directory |
| Discovery.GitUrlName | backend/nodes/discovery.py:30 | `<prefix>/<name>.git` gives `<team>_<name>` |
| Discovery.DepthIsLevel | backend/nodes/discovery.py:109 | the computed depth is the number of directory levels below the base |
| Discovery.DeepDirIgnored | backend/nodes/discovery.py:109-111 | directories more than 3 levels deep are never searched |
| Discovery.NodeModulesIgnored | backend/nodes/discovery.py:112-113 | a node_modules directory and everything below it is never searched |
| Discovery.RootSearched | backend/nodes/discovery.py:105-116 | the repository root is searched unless its own path contains node_modules or .git |
| Discovery.FindFile | backend/nodes/discovery.py:105-116 | the walk loop with `continue` answers true exactly when some searched directory holds the file |
| Discovery.DetectStack | backend/nodes/discovery.py:54-64 | PYTHON iff a Python marker exists; NODE iff none does and package.json exists; else UNKNOWN |
| Discovery.GlobWitness | backend/nodes/discovery.py:58 | every path a recursive glob returns is a visible file of the tree matching the pattern |
| Discovery.GlobFinds | backend/nodes/discovery.py:58 | every visible file matching the pattern is returned |
| Discovery.Patterns | backend/nodes/discovery.py:68-83 | PYTHON searches test_*.py and *_test.py, NODE the four .test/.spec patterns, UNKNOWN none |
| Discovery.CollectTests | backend/nodes/discovery.py:66-83 | the `extend` loop collects each pattern's matches in turn |
| Discovery.KeepPaths | backend/nodes/discovery.py:86-89 | a path is kept iff it contains neither node_modules nor __pycache__ |
| Discovery.Dedup | backend/nodes/discovery.py:86-89 | the result has no duplicates and holds exactly the input's paths |
| Discovery.TestFiles | backend/nodes/discovery.py:85-89 | the test files are the kept glob matches, each once |
| Discovery.TestFileMatchesStack | backend/nodes/discovery.py:66-89 | every test file is a visible file matching one of the stack's patterns; UNKNOWN has none |
| Discovery.PythonTestFound | backend/nodes/discovery.py:68-74 | every visible, kept Python test file of a Python repository is found |
| Discovery.DiscoveryEffectCases | backend/nodes/discovery.py:19-102 | failed clone: UNKNOWN, no tests, DISCOVERY_FAILED; success: the detected stack, its tests, DISCOVERY_COMPLETE; tests duplicate-free and filtered |
| Discovery.DiscoveryWritesFourFields | backend/nodes/discovery.py:92-95 | discovery writes repo_path, detected_stack, test_files and current_step and nothing else |
| Discovery.DiscoveryRoute | backend/graph.py:43-50 | only a failed clone skips the tester; a successful clone with zero tests goes to the tester |
| Discovery.Inspect | backend/nodes/discovery.py:53-89 | the stack and the test files the node computes for a clone |
| Discovery.Discover | backend/nodes/discovery.py:24-95 | the four written fields are those of the discovery effect |
| Discovery.DiscoveryNode | backend/nodes/discovery.py:19-102 | the state is updated in place as the discovery effect says |
| Tester.SelectSandbox | backend/nodes/tester.py:19-46 | NODE runs npm in node:18; PYTHON and every other stack run pytest in python:3.11-slim |
| Tester.ExitCode | backend/nodes/tester.py:63-79 | the container's StatusCode, 1 when it is missing, and 1 after any exception inside the `try` |
| Tester.TesterEffectCases | backend/nodes/tester.py:82-102 | PASSED iff exit code 0, keeping the retry count; otherwise FAILED and one more retry; one TEST_RUN event appended; logs stored; TESTING_COMPLETE; nothing else changes |
| Tester.Record | backend/nodes/tester.py:82-102 | the fields the tester writes are those of the tester effect |
| Tester.TesterNode | backend/nodes/tester.py:6-107 | runs the selected sandbox and updates the state in place as the tester effect says |
| Debugger.FirstHeader | backend/nodes/debugger.py:15-22 | the first line that starts capture, or the end; no earlier line starts it |
| Debugger.FailureLines | backend/nodes/debugger.py:7-26 | a contiguous suffix of the lines: from the first header when there is one, else the last 80 lines |
| Debugger.CaptureNeverStops | backend/nodes/debugger.py:13-22 | every line after a header is kept |
| Debugger.ExtractFailuresSection | backend/nodes/debugger.py:7-26 | the capture loop returns the failure lines joined with newlines |
| Debugger.CaptureSection | backend/nodes/debugger.py:13-22 | the scan keeps exactly the lines from the first header line on, and nothing when no line is a header |
| Debugger.HeaderTest | backend/nodes/debugger.py:17-20 | the two tests switch capture on exactly for a header line |
| Debugger.FileEntry | backend/nodes/debugger.py:56-76 | a file is shown iff it is a config file or a non-test code file and could be read |
| Debugger.EntryFiles | backend/nodes/debugger.py:56-76 | the files shown from one directory belong to it and are of a shown kind |
| Debugger.SourceFiles | backend/nodes/debugger.py:53-76 | every shown file lies in a visited (unpruned) directory and is of a shown kind |
| Debugger.NoTestFileShown | backend/nodes/debugger.py:69 | no test_* or *_test.py file is ever shown to the model |
| Debugger.CollectDirectory | backend/nodes/debugger.py:56-76 | the inner file loop builds the directory's entries |
| Debugger.CollectSourceFiles | backend/nodes/debugger.py:53-76 | the walk loop builds `source_files` in walk order |
| Debugger.BuildContext | backend/nodes/debugger.py:79-81 | the loop builds the `--- FILE: ... ---` context of the shown files |
| Debugger.NormalizeAnalysis | backend/nodes/debugger.py:129-131 | a list answer becomes its first element, or {} when empty; anything else is kept |
| Debugger.DebugEffect | backend/nodes/debugger.py:35-143 | empty logs, no API key or a failed call leave the state unchanged; else the analysis and DEBUG_COMPLETE, nothing more |
| Debugger.BuildRequest | backend/nodes/debugger.py:51-84 | the prompt carries the failure section and the context of the shown files, or none without a repository |
| Debugger.DebuggerNode | backend/nodes/debugger.py:29-143 | the model is asked iff there are logs and a key; the state changes as the debug effect says |
| Fixer.StripMountPrefix | backend/nodes/fixer.py:30-33 | the first of /app/, /app, app/ that prefixes the path is removed, at most one |
| Fixer.NormalizedPath | backend/nodes/fixer.py:30-36 | the normalised path never starts with '/' and is a suffix of the analysed path |
| Fixer.NormalizePath | backend/nodes/fixer.py:29-36 | the prefix loop with its `break` and the `lstrip` give the normalised path |
| Fixer.NormalizedPathTextualPrefix | backend/nodes/fixer.py:30-33 | the prefix test is textual: "/apple.py" becomes "le.py" |
| Fixer.NormalizedPathDropsMount | backend/nodes/fixer.py:30-36 | a path under the mount loses exactly the mount point |
| Fixer.UsableMatches | backend/nodes/fixer.py:45 | the fallback's matches contain neither __pycache__ nor .git and come from the glob |
| Fixer.ResolveFile | backend/nodes/fixer.py:38-52 | the joined path when it exists, else a usable glob match, else no file (iff there is no usable match) |
| Fixer.FirstUsableMatch | backend/nodes/fixer.py:44-47 | the fallback takes the first usable match |
| Fixer.StripFences | backend/nodes/fixer.py:92-98 | unfenced text is kept; fenced text loses its first line and a closing fence; a lone fence line raises |
| Fixer.StripFencesFenced | backend/nodes/fixer.py:92-98 | a fenced answer yields exactly the code between the fences |
| Fixer.FixEntry | backend/nodes/fixer.py:105-111 | the recorded fix has the path, the analysis's bug type and line, and a prefixed commit message |
| Fixer.FixerCommitMessageKept | backend/nodes/fixer.py:110 | the fixer's message already has the prefix, so the git node commits it unchanged |
| Fixer.FixerEffect | backend/nodes/fixer.py:6-123 | exactly one fix appended and FIX_APPLIED when the fix is written, else the state is unchanged; the exception of the raising cases is `FixerError`'s |
| Fixer.NoAnalysisNoFix | backend/nodes/fixer.py:12-27 | no analysis, or no string file in it, leaves the state as it was; no analysis also raises nothing (the other raising cases are `FixerError`'s) |
| Fixer.FixerError | backend/nodes/fixer.py:12-31 | only a truthy analysis with a key can raise, and a raising fixer plans no write |
| Fixer.WellFormedAnalysisNoRaise | backend/nodes/fixer.py:23-31 | a dictionary analysis whose file, if any, is a string raises nothing |
| Fixer.MalformedAnalysisRaises | backend/nodes/fixer.py:12-23 | a truthy non-dictionary analysis raises AttributeError on `get` exactly when a key is set, and changes nothing |
| Fixer.NonStringFileRaises | backend/nodes/fixer.py:23-31 | a dictionary analysis with a truthy non-string file raises AttributeError on `startswith` exactly when a key is set, and changes nothing |
| Fixer.FixRecorded | backend/nodes/fixer.py:22-111 | a named existing file, a key and an unfenced answer: no exception, the answer written to the normalised path, one fix of that path with the analysis's bug type |
| Fixer.PlanFix | backend/nodes/fixer.py:12-98 | the early returns, the attribute errors outside the `try`, path resolution and fence stripping give the planned write or the exception |
| Fixer.FixerNode | backend/nodes/fixer.py:6-123 | the file is written iff a write is planned and succeeds (a failed write is caught); the state changes as the fixer effect says; an exception leaves the state untouched and writes nothing |
| GitNode.KeepBranchChars | backend/nodes/git_node.py:10 | the result holds only [A-Z0-9_] and is no longer than the input |
| GitNode.Sanitize | backend/nodes/git_node.py:9-10 | a sanitised part holds only [A-Z0-9_] |
| GitNode.SanitizeIsCharMap | backend/nodes/git_node.py:9-10 | sanitising maps ' ' and '-' to '_', upper-cases, then filters, character by character |
| GitNode.SanitizeIdempotent | backend/nodes/git_node.py:9-10 | sanitising twice is sanitising once |
| GitNode.SanitizePlain | backend/nodes/git_node.py:9-10 | letters, digits, spaces and hyphens are all mapped, none dropped |
| GitNode.MakeBranchName | backend/nodes/git_node.py:7-12 | the branch starts with the sanitised team and '_', ends in _AI_Fix, and holds only [A-Z0-9_] before the suffix |
| GitNode.BranchNameExample | backend/nodes/git_node.py:7-12 | "Team One" and "al-ex" give TEAM_ONE_AL_EX_AI_Fix |
| GitNode.EnsurePrefix | backend/nodes/git_node.py:34-36 | the message starts with [AI-AGENT]; a prefixed message is kept, another gets "[AI-AGENT] " in front |
| GitNode.EnsurePrefixIdempotent | backend/nodes/git_node.py:34-36 | the prefix is never added twice |
| GitNode.CommitMessage | backend/nodes/git_node.py:30-36 | the last fix's message, or the default when it has none, prefixed |
| GitNode.CleanRemoteUrl | backend/nodes/git_node.py:94-101 | without a token or "@github.com" the URL is kept; otherwise it is https://github.com and the rest after the credentials |
| GitNode.AuthedOrigin | backend/nodes/git_node.py:97-105 | origin is re-pointed iff a token is set and the clean URL is https, to a URL carrying the token |
| GitNode.ParseOwnerRepo | backend/nodes/git_node.py:135-138 | owner and repository are the last two parts of the stripped URL, and there is a PR target iff it has at least 3 parts |
| GitNode.ParseOwnerRepoRoundTrip | backend/nodes/git_node.py:135-138 | owner and repository are read back from https://github.com/owner/repo.git |
| GitNode.PrRequestOf | backend/nodes/git_node.py:129-171 | a PR is requested iff the push succeeded, no pr_url is set, a token is set and the URL names a repository; head is the branch, base the default branch or main |
| GitNode.GitEffectCases | backend/nodes/git_node.py:15-198 | no fixes or a failure to open, check out or commit leaves the state unchanged; otherwise branch_pushed, pr_url, branch_name and GIT_COMMIT_COMPLETE are recorded |
| GitNode.PrUrlGate | backend/nodes/git_node.py:129-189 | an open PR is never replaced; pr_url changes only after a push with a token on 200/201; 422 leaves it unset |
| GitNode.CommitAlwaysPrefixed | backend/nodes/git_node.py:31-36 | every commit the node makes carries the [AI-AGENT] prefix |
| GitNode.RemoteUrls | backend/nodes/git_node.py:94-105 | the remote handling gives the clean URL and the authenticated origin |
| GitNode.OpenPullRequest | backend/nodes/git_node.py:129-189 | the PR step requests what the gate allows and records the answer's html_url on 200/201 |
| GitNode.PushAndRecord | backend/nodes/git_node.py:124-197 | the push outcome, the PR URL, the branch name and the step are written and nothing else |
| GitNode.GitNodeRun | backend/nodes/git_node.py:15-198 | the report and the new state are those of the git effect |
| Scoring.Duration | backend/scoring.py:24-28 | the time since start_time when it is set, else the stored total_time |
| Scoring.ScoreOf | backend/scoring.py:20-41 | within 0..110; 100 or 110 up to 20 commits; 2 points off per commit above 20 while positive |
| Scoring.CalculateScore | backend/scoring.py:4-41 | the score of the duration and of one commit per fix, with the duration |
| Scoring.ScoreMonotoneInCommits | backend/scoring.py:37-39 | more commits never raise the score |
| Scoring.TwentyFiveFixesCostTen | backend/scoring.py:37-39 | five fixes above twenty cost ten points |
| Scoring.ScoreMonotoneInDuration | backend/scoring.py:30-31 | a faster run never scores lower |
| Scoring.SpeedBonusIff | backend/scoring.py:30-31 | up to 20 commits the score is 110 iff the run took under 300 s, else 100 |
| Scoring.ScoreDependsOnlyOnTimeAndFixes | backend/scoring.py:24-41 | the score reads only the duration inputs and the number of fixes |
| Scoring.ScoringEffect | backend/scoring.py:57-59 | the score and the duration are recorded and nothing else changes |
| Scoring.ScoringNode | backend/scoring.py:43-61 | the state is updated in place as the scoring effect says |
| Workflow.Cycles | backend/graph.py:52-66 | the nodes run from the tester start with the tester and end with scoring |
| Workflow.NodeStepEffect | backend/graph.py:32-37 | each node keeps the counters as routing expects, keeps names and start time, appends at most one fix (fixer only), and scoring writes the score of the fixes |
| Workflow.RunNode | backend/graph.py:32-37 | running a node's method leaves the state of that node's step and lets escape exactly the exception of that step; the only exceptions modelled are the fixer's attribute errors |
| Workflow.StepFinish | backend/graph.py:43-66 | a node that does not raise hands its state to the node routing picks and the run continues from there; a raising node, which with the fixer's attribute errors as the only modelled exceptions is the fixer, leaves the state unchanged and ends the run |
| Workflow.StepTrace | backend/graph.py:43-66 | each step consumes the head of the nodes still to run |
| Workflow.RunWorkflow | backend/graph.py:28-76 | the loop over the compiled graph executes the nodes, leaves the final state and lets escape the exception of the whole run from the entry point |
| Workflow.RunOutcome | backend/graph.py:28-76 | a run executes exactly the expected trace (at most 19 nodes, at most 5 tester runs, discovery first, scoring last) or stops inside it right after a fixer that raises one of its attribute errors; PASSED iff a test run passed; score of the recorded fixes |
| Workflow.IntegrationRun | tests/test_integration.py:53-129 | with the test's Docker, Gemini and git answers the run raises nothing, ends PASSED, records one fix of bug type LOGIC and scores above 0 |
| Workflow.HealingLoopTest | tests/test_integration.py:94-129 | the test's initial state run through the graph satisfies the test's four assertions |
| Workflow.IntegrationScenario | tests/test_integration.py:53-56 | first run fails, second passes: one repair cycle, a PASSED run, exactly one fixer run |
| Workflow.NeverPassingRun | backend/graph.py:68-70 | tests that never pass give 19 nodes and no pass |
| Server.MainSanitize | backend/main.py:55-57 | a sanitised part holds only [A-Z0-9_] |
| Server.MainSanitizeIdempotent | backend/main.py:55-57 | sanitising twice is sanitising once |
| Server.MainSanitizeIsCharMap | backend/main.py:55-57 | the service's sanitiser maps ' ' to '_', upper-cases, then filters, character by character |
| Server.SanitizersAgreeWithoutHyphen | backend/main.py:55-57 | without '-' the service's and the git node's sanitisers agree |
| Server.HyphenDropped | backend/main.py:55-57 | the service's sanitiser drops a '-' |
| Server.HyphenKept | backend/nodes/git_node.py:9-10 | the git node's sanitiser turns a '-' into '_' |
| Server.BranchName | backend/main.py:60-61 | the reported branch ends in _AI_Fix |
| Server.BranchNamesAgreeWithoutHyphen | backend/main.py:60-61 | without '-' in either name the reported branch is the pushed branch |
| Server.MainSanitizeAlEx | backend/main.py:55-57 | "al-ex" sanitises to ALEX in the service |
| Server.HyphenedLeaderDiffers | backend/main.py:132 | for leader "al-ex" the stored branch is not the branch the git node pushes |
| Server.ParseRequest | backend/main.py:47-52 | omitted fields default to 5 iterations and gemini-2.5-flash |
| Server.StartHealing | backend/main.py:188-211 | the reply is "running", carries the run id and the team, and names the branch of `_branch_name` |
| Server.Breakdown | backend/main.py:122-125 | a non-dictionary analysis raises AttributeError; a missing breakdown gives three zeros |
| Server.LastOfTeam | backend/main.py:223-225 | the last result of the team, with no later one; none iff the team has no result |
| Server.StatusOf | backend/main.py:214-227 | a live entry wins; else the team's last stored result; not found iff it has none |
| Server.LaterResultWins | backend/main.py:223-225 | a result stored later hides an earlier one of the same team |
| Server.ResultOf | backend/main.py:127-144 | the entry copies the final state's fields with the service's branch name; it fails iff reading the breakdown raises |
| Server.Service.constructor | backend/main.py:44 | no live runs; the stored results |
| Server.Service.GetStatus | backend/main.py:214-227 | the loop over the reversed results answers the status lookup |
| Server.Service.BeginRun | backend/main.py:70-112 | the team's entry becomes running, the results are kept, and a fresh initial state is built |
| Server.Service.FinishRun | backend/main.py:156-168 | an exception makes the entry an error and keeps the results; else the result is appended and the entry is done |
| Server.InvokeGraph | backend/main.py:115 | the graph runs on the request's initial state; the final state keeps the request's names, carries the score of its fixes and is PASSED iff a test run passed |
| Server.Service.RunHealingWorkflow | backend/main.py:64-168 | the team's entry ends done or error, no other entry changes; a done result is appended last, names the reported branch, scores its fixes and is PASSED iff a test run passed; an exception escaping the graph makes the entry that error and keeps the results |
| Supabase.SimilarIff | backend/utils/supabase_manager.py:111 | the ratio test over 0.5 is the integer test 2·common > max(words, 1) |
| Supabase.Row | backend/utils/supabase_manager.py:99-113 | a matching row has the bug type and a description similar to the query; another bug type never matches |
| Supabase.HitIsFirstMatch | backend/utils/supabase_manager.py:99-113 | a hit is the first non-skipped row, and it matched |
| Supabase.FirstMatchIsHit | backend/utils/supabase_manager.py:99-113 | a matching row after skipped rows is what the lookup returns |
| Supabase.PreviousFix | backend/utils/supabase_manager.py:78-119 | disabled, or a failed query, gives no fix |
| Supabase.BlankDescriptionNeverMatches | backend/utils/supabase_manager.py:104-111 | a blank description never matches any row |
| Supabase.SameDescriptionMatches | backend/utils/supabase_manager.py:99-113 | a row with the query's own description and bug type matches |
| Supabase.SupabaseManager.constructor | backend/utils/supabase_manager.py:16-25 | enabled iff both settings are present and non-empty |
| Supabase.SupabaseManager.GetPreviousFix | backend/utils/supabase_manager.py:78-119 | the loop with `break` returns the previous-fix lookup |
| Supabase.SupabaseManager.UpdateNodeStatus | backend/utils/supabase_manager.py:46-61 | no row when disabled or without a run id; otherwise the node's row |
| Supabase.SupabaseManager.FinalizeRun | backend/utils/supabase_manager.py:63-76 | no update when disabled or without a run id; otherwise the run's score, duration and status |
| AgentStore.JsKeep | frontend/src/store/useAgentStore.js:8 | only [A-Z0-9 ] remains |
| AgentStore.Collapse | frontend/src/store/useAgentStore.js:10 | each run of spaces becomes one '_': no two '_' in a row, ends kept as '_' iff they were spaces |
| AgentStore.CollapseWord | frontend/src/store/useAgentStore.js:10 | a word, a run of spaces and the rest collapse to the word, one '_' and the collapsed rest |
| AgentStore.JsSanitize | frontend/src/store/useAgentStore.js:5-10 | only [A-Z0-9_], never starting or ending with '_', never two '_' in a row |
| AgentStore.HyphenDeleted | frontend/src/store/useAgentStore.js:8 | a '-' is deleted, not turned into '_' |
| AgentStore.JsSanitizeAlnum | frontend/src/store/useAgentStore.js:5-10 | on letters and digits the sanitiser only upper-cases |
| AgentStore.SanitizersAgreeOnAlnum | frontend/src/store/useAgentStore.js:5-10 | on letters and digits the frontend and git node sanitisers agree |
| AgentStore.GenerateBranchName | frontend/src/store/useAgentStore.js:4-12 | the branch starts with both sanitised names each followed by '_', ends in _AI_Fix and holds only [A-Z0-9_] before the suffix |
| AgentStore.BranchNamesAgreeOnAlnum | frontend/src/store/useAgentStore.js:4-12 | on letters and digits the shown branch is the pushed branch |
| AgentStore.HyphenSeparatesSanitizers | frontend/src/store/useAgentStore.js:5-10 | "al-ex" is ALEX in the frontend and AL_EX in the git node |
| AgentStore.JsSanitizeNotIdempotent | frontend/src/store/useAgentStore.js:5-10 | "A B" sanitises to A_B and then to AB: not idempotent |
| AgentStore.MockScore | frontend/src/store/useAgentStore.js:68-71 | base 100, +10 under five minutes, -2 per commit above 20, never below 0 |
| AgentStore.MockScoreIsBackendScore | frontend/src/store/useAgentStore.js:68-71 | the mock formula is the backend's score, with milliseconds and commits |
| AgentStore.MockFixes | frontend/src/store/useAgentStore.js:47-54 | ids 1..n, the first totalFixes Fixed and the rest Failed |
| AgentStore.MockFixesCount | frontend/src/store/useAgentStore.js:47-54 | exactly totalFixes mock fixes are Fixed |
| AgentStore.GenerateMockRun | frontend/src/store/useAgentStore.js:29-89 | passed iff there are no failures; at least one commit per fix and failure |
| AgentStore.MockScoreRange | frontend/src/store/useAgentStore.js:42-71 | with draws in range at most 22 commits and a final score in 96..110 |
| AgentStore.ResetKeepsStats | frontend/src/store/useAgentStore.js:178-188 | reset keeps stats and performance and leaves no run |
| AgentStore.CompletionCountsOneRun | frontend/src/store/useAgentStore.js:137-158 | completion counts one more run, stores the mock run, keeps the logs |
| AgentStore.StreamStaysInOrder | frontend/src/store/useAgentStore.js:130-171 | runAgent starts the log stream in sequence order and each step keeps it so |
| AgentStore.Store.constructor | frontend/src/store/useAgentStore.js:92-122 | the store's initial values |
| AgentStore.Store.SetRepoUrl | frontend/src/store/useAgentStore.js:125 | only the repository URL changes |
| AgentStore.Store.SetTeamName | frontend/src/store/useAgentStore.js:126 | only the team name changes |
| AgentStore.Store.SetLeaderName | frontend/src/store/useAgentStore.js:127 | only the leader name changes |
| AgentStore.Store.RunAgent | frontend/src/store/useAgentStore.js:130-134 | running and streaming with no logs, no run data and a new stream |
| AgentStore.Store.StreamNext | frontend/src/store/useAgentStore.js:136-171 | the next log line while the sequence lasts, then the completed mock run |
| AgentStore.Store.Reset | frontend/src/store/useAgentStore.js:178-188 | config and run fields cleared, the rest kept |
| Sidebar.FindIndex | frontend/src/components/Sidebar.jsx:20-21 | the first index of the key, -1 iff absent |
| Sidebar.ActiveAgent | frontend/src/components/Sidebar.jsx:16-19 | a stage key, and none iff no log belongs to a stage |
| Sidebar.ActiveAgentIsLast | frontend/src/components/Sidebar.jsx:16-19 | the active agent is that of the last stage log |
| Sidebar.IdleAtStart | frontend/src/components/Sidebar.jsx:13 | with no logs and no completed run every stage is idle |
| Sidebar.PassedRunAllDone | frontend/src/components/Sidebar.jsx:25 | a completed, passed run marks every stage done |
| Sidebar.StageByPosition | frontend/src/components/Sidebar.jsx:23-36 | stages before the active one are done, the active one error or running, later ones idle |
| Sidebar.AtMostOneActive | frontend/src/components/Sidebar.jsx:12-39 | at most one stage is running or in error |
| Sidebar.ActiveStageIsActiveIndex | frontend/src/components/Sidebar.jsx:12-39 | a stage running or in error is the stage of the latest stage log |
| Sidebar.MockStreamLeavesStagesIdle | frontend/src/components/Sidebar.jsx:16-18 | the store's mock agents match no stage, so during the stream every stage stays idle |

## Left out

- Docker, Gemini, GitPython, GitHub's HTTP API and Supabase calls are not executed. Their outcomes are inputs: `SandboxOutcome`, `GeminiReply`, `FixReply`, `GitInputs`, `Query`, `CloneOutcome`.
- The prompts' text is not modelled. Only the failure section and the source-file context the debugger sends are.
- Clocks, timestamps, `Math.random` and timers are inputs. The store's `setTimeout` chain is modelled as successive `StreamNext` calls. A `reset` in the middle of a stream is not modelled.
- The random file, bug type, line and message of each mock fix, and the mock iterations, are not modelled.
- The mock performance figures are not modelled: they are an input of `StreamNext`.
- Text.Upper: ASCII only. Python's and JavaScript's full Unicode case mapping (for example 'ß' becoming "SS") is not part of this model.
- Text.Lower: ASCII only, like `Text.Upper`. The bug descriptions compared by the Supabase memory lookup are folded with it, so Python's full Unicode `lower()` is not part of this model.
- UTF-8 decoding with replacement and universal newlines are not modelled. Files are strings.
- Creating and removing directories (`rmtree`, `makedirs`), writing .gitignore and cleaning __pycache__ are not modelled.
- Json.Render: renders integers, strings, booleans and None as Python's `str()` does. Lists and dictionaries render as the empty string. JSON floating-point numbers are not part of `Json`.
- Durations are exact reals. Floating-point rounding is not modelled.
- Fixer.FixerNode: the `open` of the target file for reading (backend/nodes/fixer.py:54) and the Gemini client construction (backend/nodes/fixer.py:57) sit outside the `try`, so a read failure or a failing client construction would end the node with an exception. Here the file is always readable and the client is always built. A failed write (`writeOk` false) is caught by the `except`: no fix is recorded and `written` is None, but a file that `open(..., "w")` already truncated is not modelled.
- Fixer.RelativeTo: handles only paths below the repository, which is all `glob` returns there.
- Tester.TesterNode: `docker.from_env()` (backend/nodes/tester.py:11) sits outside the `try`. With no reachable Docker daemon it would raise out of the node, the graph would stop at the tester and the service would record an error entry. The model assumes it does not raise: every Docker failure it has is one inside the `try`, which gives exit code 1.
- Workflow.RunNode: the exception a node lets escape is modelled only for the fixer's attribute errors; the tester's `docker.from_env()` and the client constructions of the debugger and the fixer are assumed not to raise (see the `TesterNode`, `DebuggerNode` and `FixerNode` lines).
- Workflow.StepFinish: "a raising node is the fixer" holds because the fixer's attribute errors are the only exceptions modelled; a tester whose `docker.from_env()` raises would end the run too, and is not modelled.
- Workflow.RunOutcome: a run that raises stops right after the fixer because only the fixer's attribute errors are modelled; the stop right after a tester whose `docker.from_env()` raises (backend/nodes/tester.py:11) is not modelled.
- Debugger.DebuggerNode: a missing API key is the `apiKeyPresent` input. The client construction outside the `try` is assumed not to raise.
- Discovery.Dedup: Python's `list(set(...))` has no defined order. The model keeps the first occurrences in order, so only the set of test files and the absence of duplicates are faithful.
- Discovery.DepthIsLevel: assumes the base path does not reappear below itself. `root.replace(base_dir, '')` would remove such a repetition too.
- Discovery.DeepDirIgnored: carries the same assumption as `DepthIsLevel`, that the base path does not reappear below itself, since it counts depth the same way.
- Discovery.GitUrlName: covers only repository names without '.'. Every ".git" inside a name is removed as well.
- GitNode.ParseOwnerRepoRoundTrip: covers only owner and repository names without '.'. The code removes every ".git", also inside names.
- GitNode.GitNodeRun: a failed pull/rebase does not stop the node, and the model folds it into the push outcome. The author and committer identity is not modelled.
- Workflow.RunWorkflow: the inputs of each node run are indexed by the retry count of that run. This exactly separates the runs of one workflow, but it is not the order in which a real environment answers.
- Server.Service.FinishRun: backend/main.py:147-154 calls `finalize_run` with `pr_url` and `branch_name`, keywords that backend/utils/supabase_manager.py:63 does not declare. That call would raise inside the `try`. The model does not follow that call: any exception raised inside the `try` is the `raised` input.
- The call to `finalize_run` from the service, `create_run` and the Supabase singleton (`__new__`) are not modelled. `SupabaseManager`'s methods are modelled on their own.
- Reading and writing results.json is not modelled. The results list is a field of the service; a JSON decode error, which yields an empty list, is not modelled.
- The HTTP layer (FastAPI routing, CORS, the `/results` endpoint and the background-task scheduler) is not modelled.
- Concurrency between runs is not modelled either: a run is executed to completion by `Server.Service.RunHealingWorkflow`.
- Sidebar rendering (CSS classes, tooltips) is not modelled; only `getStageStatus` is.
- Sidebar.StageStatusOf: no lemma states `getStageStatus` on its own. Its cases are covered by `IdleAtStart`, `PassedRunAllDone`, `StageByPosition` and `AtMostOneActive`.
