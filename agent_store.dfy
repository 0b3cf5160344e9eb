/** The dashboard store of frontend/src/store/useAgentStore.js: the frontend's
    branch-name rule, the mock run it shows (its random draws are inputs), and
    the store actions `runAgent` (with its streaming steps) and `reset`. */
module AgentStore {
  import opened Wrappers
  import opened Text
  import GitNode
  import Scoring

  /** The characters `/[^A-Z0-9 ]/g` keeps. */
  predicate JsKeepChar(c: char) {
    ('A' <= c <= 'Z') || ('0' <= c <= '9') || c == ' '
  }

  predicate Filtered(s: string) {
    forall i :: 0 <= i < |s| ==> JsKeepChar(s[i])
  }

  /** `s.replace(/[^A-Z0-9 ]/g, '')`. */
  function JsKeep(s: string): (r: string)
    ensures Filtered(r)
    decreases |s|
  {
    if s == [] then []
    else (if JsKeepChar(s[0]) then [s[0]] else []) + JsKeep(s[1..])
  }

  lemma {:induction false} JsKeepConcat(a: string, b: string)
    ensures JsKeep(a + b) == JsKeep(a) + JsKeep(b)
    decreases |a|
  {
    if a == [] {
      assert a + b == b;
    } else {
      var head: string := if JsKeepChar(a[0]) then [a[0]] else [];
      assert (a + b)[0] == a[0];
      assert (a + b)[1..] == a[1..] + b;
      calc {
        JsKeep(a + b);
        head + JsKeep(a[1..] + b);
        { JsKeepConcat(a[1..], b); }
        head + (JsKeep(a[1..]) + JsKeep(b));
        (head + JsKeep(a[1..])) + JsKeep(b);
      }
    }
  }

  lemma {:induction false} JsKeepIdentity(s: string)
    requires Filtered(s)
    ensures JsKeep(s) == s
    decreases |s|
  {
    if s != [] {
      JsKeepIdentity(s[1..]);
      assert s == [s[0]] + s[1..];
    }
  }

  /** `s.replace(/\s+/g, '_')` on a filtered string, where ' ' is the only
      white space left: each run of spaces becomes one '_'. */
  function Collapse(s: string): (r: string)
    requires Filtered(s)
    ensures forall i :: 0 <= i < |r| ==> GitNode.BranchChar(r[i])
    ensures r == [] <==> s == []
    ensures s != [] ==> (r[0] == '_' <==> s[0] == ' ')
    ensures s != [] ==> (r[|r| - 1] == '_' <==> s[|s| - 1] == ' ')
    ensures forall i :: 0 <= i < |r| - 1 ==> !(r[i] == '_' && r[i + 1] == '_')
    decreases |s|
  {
    if s == [] then []
    else if s[0] == ' ' then
      var t := LStrip(s[1..], ' ');
      SpaceRunStripped(s);
      var c := Collapse(t);
      ConsNoDoubleUnderscore('_', c);
      ['_'] + c
    else
      assert Filtered(s[1..]);
      var c := Collapse(s[1..]);
      ConsNoDoubleUnderscore(s[0], c);
      [s[0]] + c
  }

  /** Putting `c` in front keeps "no two '_' in a row" unless both are '_'. */
  lemma ConsNoDoubleUnderscore(c: char, r: string)
    requires forall i :: 0 <= i < |r| - 1 ==> !(r[i] == '_' && r[i + 1] == '_')
    requires r != [] && r[0] == '_' ==> c != '_'
    ensures var q := [c] + r; forall i :: 0 <= i < |q| - 1 ==> !(q[i] == '_' && q[i + 1] == '_')
  {
    var q := [c] + r;
    forall i | 0 <= i < |q| - 1 ensures !(q[i] == '_' && q[i + 1] == '_') {
      if i > 0 {
        assert q[i] == r[i - 1] && q[i + 1] == r[i];
      }
    }
  }

  /** What is left of a filtered string after its leading run of spaces. */
  lemma SpaceRunStripped(s: string)
    requires Filtered(s) && s != [] && s[0] == ' '
    ensures var t := LStrip(s[1..], ' ');
      |t| < |s| && Filtered(t) && (t == [] || t[0] != ' ')
      && (t == [] ==> s[|s| - 1] == ' ')
      && (t != [] ==> t[|t| - 1] == s[|s| - 1])
  {
    LStripDropsOnly(s[1..], ' ');
    var t := LStrip(s[1..], ' ');
    assert forall i :: 0 <= i < |t| ==> t[i] == s[|s| - |t| + i];
  }

  /** On a string without spaces the collapse changes nothing. */
  lemma {:induction false} CollapseNoSpace(s: string)
    requires Filtered(s) && ' ' !in s
    ensures Collapse(s) == s
    decreases |s|
  {
    if s != [] {
      assert s[0] != ' ' by {
        assert s[0] in s;
      }
      var rest := s[1..];
      assert ' ' !in rest by {
        assert forall i :: 0 <= i < |rest| ==> rest[i] == s[i + 1];
      }
      assert Filtered(rest);
      calc {
        Collapse(s);
        [s[0]] + Collapse(rest);
        { CollapseNoSpace(rest); }
        [s[0]] + rest;
      }
      assert [s[0]] + rest == s;
    }
  }

  /** `n` spaces. */
  function Spaces(n: nat): (s: string)
    ensures |s| == n && forall i :: 0 <= i < n ==> s[i] == ' '
  {
    seq(n, _ => ' ')
  }

  /** Stripping leading spaces off a run of spaces and a word that does not
      start with one leaves the word. */
  lemma {:induction false} LStripSpaces(n: nat, b: string)
    requires b == [] || b[0] != ' '
    ensures LStrip(Spaces(n) + b, ' ') == b
    decreases n
  {
    if n == 0 {
      assert Spaces(0) + b == b;
    } else {
      assert (Spaces(n) + b)[1..] == Spaces(n - 1) + b;
      LStripSpaces(n - 1, b);
    }
  }

  /** The collapse goes word by word: a word without spaces followed by a run
      of spaces becomes the word and one '_', and the rest is collapsed on its
      own. With `CollapseNoSpace` for the last word this fixes the value of
      `Collapse` on every filtered string. */
  lemma {:induction false} CollapseWord(a: string, n: nat, b: string)
    requires Filtered(a) && ' ' !in a && n > 0
    requires Filtered(b) && (b == [] || b[0] != ' ')
    ensures Filtered(a + Spaces(n) + b)
    ensures Collapse(a + Spaces(n) + b) == a + "_" + Collapse(b)
    decreases |a|
  {
    FilteredWords(a, n, b);
    if a == [] {
      CollapseSpaceRun(a, n, b);
    } else {
      WordTail(a);
      CollapseWord(a[1..], n, b);
      CollapseWordStep(a, n, b);
    }
  }

  /** The inductive step of `CollapseWord`: the word's first letter is kept. */
  lemma CollapseWordStep(a: string, n: nat, b: string)
    requires a != [] && a[0] != ' ' && Filtered(b)
    requires Filtered(a + Spaces(n) + b) && Filtered(a[1..] + Spaces(n) + b)
    requires Collapse(a[1..] + Spaces(n) + b) == a[1..] + "_" + Collapse(b)
    ensures Collapse(a + Spaces(n) + b) == a + "_" + Collapse(b)
  {
    var u := Spaces(n) + b;
    var t := a[1..] + u;
    Assoc(a[1..], Spaces(n), b);
    Assoc(a, Spaces(n), b);
    FrontSplit(a, u);
    CollapseLetter(a[0], t);
    FrontSplit(a, "_" + Collapse(b));
    Assoc(a, "_", Collapse(b));
    Assoc(a[1..], "_", Collapse(b));
  }

  /** The tail of a word is a word. */
  lemma WordTail(a: string)
    requires Filtered(a) && ' ' !in a && a != []
    ensures a[0] != ' ' && Filtered(a[1..]) && ' ' !in a[1..]
  {
    assert a[0] in a;
    assert forall i :: 0 <= i < |a| - 1 ==> a[1..][i] == a[i + 1];
  }

  lemma Assoc(a: string, m: string, b: string)
    ensures a + m + b == a + (m + b)
  {
  }

  lemma FrontSplit(a: string, u: string)
    requires a != []
    ensures a + u == [a[0]] + (a[1..] + u)
  {
  }

  /** A kept character other than a space passes through `Collapse` unchanged. */
  lemma CollapseLetter(c: char, t: string)
    requires c != ' ' && Filtered([c] + t) && Filtered(t)
    ensures Collapse([c] + t) == [c] + Collapse(t)
  {
    assert ([c] + t)[1..] == t;
  }

  /** A run of spaces in front of a word becomes one '_'. */
  lemma CollapseSpaceRun(a: string, n: nat, b: string)
    requires a == [] && n > 0 && Filtered(b) && (b == [] || b[0] != ' ')
    requires Filtered(a + Spaces(n) + b)
    ensures Collapse(a + Spaces(n) + b) == a + "_" + Collapse(b)
  {
    var s := Spaces(n) + b;
    assert a + Spaces(n) + b == s;
    assert s[0] == ' ';
    assert s[1..] == Spaces(n - 1) + b;
    LStripSpaces(n - 1, b);
  }

  lemma FilteredWords(a: string, n: nat, b: string)
    requires Filtered(a) && Filtered(b)
    ensures Filtered(a + Spaces(n) + b)
  {
    var s := a + Spaces(n) + b;
    forall i | 0 <= i < |s| ensures JsKeepChar(s[i]) {
      if i < |a| {
        assert s[i] == a[i];
      } else if i < |a| + n {
        assert s[i] == Spaces(n)[i - |a|];
      } else {
        assert s[i] == b[i - |a| - n];
      }
    }
  }

  /** The `sanitize` of `generateBranchName`: upper-case, drop everything
      outside `[A-Z0-9 ]`, trim, and turn each run of spaces into one '_'.
      The result holds only `[A-Z0-9_]`, never starts or ends with '_' and
      never has two '_' in a row. */
  function JsSanitize(s: string): (r: string)
    ensures forall i :: 0 <= i < |r| ==> GitNode.BranchChar(r[i])
    ensures r != [] ==> r[0] != '_' && r[|r| - 1] != '_'
    ensures forall i :: 0 <= i < |r| - 1 ==> !(r[i] == '_' && r[i + 1] == '_')
  {
    var x := JsKeep(Upper(s));
    var u := RStrip(LStrip(x, ' '), ' ');
    TrimmedFiltered(x);
    Collapse(u)
  }

  /** Trimming spaces off a filtered string leaves it filtered, with no
      space at either end. */
  lemma TrimmedFiltered(x: string)
    requires Filtered(x)
    ensures var u := RStrip(LStrip(x, ' '), ' ');
      Filtered(u) && (u != [] ==> u[0] != ' ' && u[|u| - 1] != ' ')
  {
    LStripDropsOnly(x, ' ');
    var l := LStrip(x, ' ');
    var k := |x| - |l|;
    assert l == x[k..];
    assert Filtered(l) by {
      forall i | 0 <= i < |l| ensures JsKeepChar(l[i]) {
        assert l[i] == x[k + i];
      }
    }
    var u := RStrip(l, ' ');
    assert u <= l;
    assert Filtered(u) by {
      forall i | 0 <= i < |u| ensures JsKeepChar(u[i]) {
        assert u[i] == l[i];
      }
    }
    if u != [] {
      assert u[0] == l[0];
    }
  }

  /** `generateBranchName`: the two sanitised parts joined by '_', then the
      suffix `_AI_Fix`. */
  function GenerateBranchName(team: string, leader: string): (b: string)
    ensures StartsWith(b, JsSanitize(team) + "_" + JsSanitize(leader) + "_")
    ensures EndsWith(b, GitNode.BRANCH_SUFFIX)
    ensures forall i :: 0 <= i < |b| - |GitNode.BRANCH_SUFFIX| ==> GitNode.BranchChar(b[i])
  {
    JsSanitize(team) + "_" + JsSanitize(leader) + GitNode.BRANCH_SUFFIX
  }

  /** Hyphens are deleted, not turned into '_'. */
  lemma HyphenDeleted(a: string, b: string)
    ensures JsSanitize(a + "-" + b) == JsSanitize(a + b)
  {
    assert Upper(a + "-" + b) == Upper(a) + "-" + Upper(b);
    assert Upper(a + b) == Upper(a) + Upper(b);
    JsKeepConcat(Upper(a) + "-", Upper(b));
    JsKeepConcat(Upper(a), "-");
    JsKeepConcat(Upper(a), Upper(b));
    assert JsKeep("-") == [];
    assert JsKeep(Upper(a + "-" + b)) == JsKeep(Upper(a + b));
  }

  /** ASCII letters and digits. */
  predicate Alnum(c: char) {
    ('a' <= c <= 'z') || ('A' <= c <= 'Z') || ('0' <= c <= '9')
  }

  /** On letters and digits the frontend sanitiser only upper-cases. */
  lemma JsSanitizeAlnum(s: string)
    requires forall i :: 0 <= i < |s| ==> Alnum(s[i])
    ensures JsSanitize(s) == Upper(s)
  {
    var x := Upper(s);
    assert Filtered(x);
    JsKeepIdentity(x);
    assert x == [] || (x[0] != ' ' && x[|x| - 1] != ' ');
    assert LStrip(x, ' ') == x;
    assert RStrip(x, ' ') == x;
    assert ' ' !in x;
    CollapseNoSpace(x);
  }

  /** The frontend and git_node sanitisers agree on letters and digits ... */
  lemma SanitizersAgreeOnAlnum(s: string)
    requires forall i :: 0 <= i < |s| ==> Alnum(s[i])
    ensures JsSanitize(s) == GitNode.Sanitize(s) == Upper(s)
  {
    JsSanitizeAlnum(s);
    assert forall i :: 0 <= i < |s| ==> GitNode.PlainChar(s[i]);
    GitNode.SanitizePlain(s);
    assert seq(|s|, i requires 0 <= i < |s| => GitNode.GitChar(s[i])) == Upper(s);
  }

  /** ... so the two branch names agree there too. */
  lemma BranchNamesAgreeOnAlnum(team: string, leader: string)
    requires forall i :: 0 <= i < |team| ==> Alnum(team[i])
    requires forall i :: 0 <= i < |leader| ==> Alnum(leader[i])
    ensures GenerateBranchName(team, leader) == GitNode.MakeBranchName(team, leader)
  {
    SanitizersAgreeOnAlnum(team);
    SanitizersAgreeOnAlnum(leader);
  }

  /** ... and differ on a hyphen: "al-ex" is "ALEX" here and "AL_EX" in git_node. */
  lemma HyphenSeparatesSanitizers(leader: string)
    requires leader == "al-ex"
    ensures JsSanitize(leader) == "ALEX"
    ensures GitNode.Sanitize(leader) == "AL_EX"
  {
    JsSanitizeAlEx(leader);
    GitNode.SanitizeAlEx(leader);
  }

  lemma JsSanitizeAlEx(leader: string)
    requires leader == "al-ex"
    ensures JsSanitize(leader) == "ALEX"
  {
    assert leader == "al" + "-" + "ex";
    HyphenDeleted("al", "ex");
    JsSanitizeAlex("al" + "ex");
  }

  lemma JsSanitizeAlex(s: string)
    requires s == "alex"
    ensures JsSanitize(s) == "ALEX"
  {
    assert forall i :: 0 <= i < |s| ==> Alnum(s[i]);
    JsSanitizeAlnum(s);
    var u := Upper(s);
    assert u[0] == 'A' && u[1] == 'L' && u[2] == 'E' && u[3] == 'X';
  }

  /** Sanitising twice is not sanitising once: the '_' of the first pass is
      dropped by the second, so "A B" gives "A_B" and then "AB". */
  lemma JsSanitizeNotIdempotent(s: string)
    requires s == "A B"
    ensures JsSanitize(s) == "A_B"
    ensures JsSanitize(JsSanitize(s)) == "AB"
  {
    SanitizeSpaced(s);
    SanitizeUnderscored("A_B");
  }

  lemma SanitizeSpaced(s: string)
    requires s == "A B"
    ensures JsSanitize(s) == "A_B"
  {
    assert Upper(s) == s;
    assert Filtered(s);
    JsKeepIdentity(s);
    assert LStrip(s, ' ') == s;
    assert RStrip(s, ' ') == s;
    var tail := s[1..];
    assert tail[0] == ' ';
    assert LStrip(tail[1..], ' ') == "B";
    CollapseNoSpace("B");
    assert Collapse(tail) == "_B";
    assert Collapse(s) == "A_B";
  }

  lemma SanitizeUnderscored(t: string)
    requires t == "A_B"
    ensures JsSanitize(t) == "AB"
  {
    assert Upper(t) == t;
    assert JsKeep(t) == "AB" by {
      assert t == "A" + "_" + "B";
      JsKeepConcat("A" + "_", "B");
      JsKeepConcat("A", "_");
    }
    JsSanitizeAlnum("AB");
    assert Upper("AB") == "AB";
  }

  /** The random draws of `generateMockRun`. */
  datatype MockDraws = MockDraws(totalFixes: nat, totalFailures: nat, extraCommits: nat, totalTimeMs: real)

  /** The ranges `Math.random` gives the draws. */
  predicate DrawsInRange(d: MockDraws) {
    4 <= d.totalFixes <= 11 && d.totalFailures <= 2 && d.extraCommits <= 9
    && 60000.0 <= d.totalTimeMs < 540000.0
  }

  datatype FixStatus = Fixed | Failed

  /** A mock fix; its file, bug type, line and message are random picks and
      are not part of this model. */
  datatype MockFix = MockFix(id: nat, status: FixStatus)

  datatype ScoreBreakdown = ScoreBreakdown(base: int, speedBonus: int, efficiencyPenalty: int, final: int)

  datatype MockRun = MockRun(
    repoUrl: string,
    teamName: string,
    leaderName: string,
    branchName: string,
    totalFixes: nat,
    totalFailures: nat,
    totalCommits: nat,
    totalTimeMs: real,
    fixes: seq<MockFix>,
    score: ScoreBreakdown,
    passed: bool)

  /** The mock score: base 100, +10 under five minutes, -2 per commit above
      20, never below 0. */
  function MockScore(totalTimeMs: real, totalCommits: nat): (s: ScoreBreakdown)
    ensures s.base == 100 && s.speedBonus == (if totalTimeMs < 300000.0 then 10 else 0)
    ensures s.efficiencyPenalty == (if totalCommits > 20 then 2 * (totalCommits - 20) else 0)
    ensures var raw := s.base + s.speedBonus - s.efficiencyPenalty;
      s.final == (if raw < 0 then 0 else raw)
  {
    var speedBonus := if totalTimeMs < 5.0 * 60.0 * 1000.0 then 10 else 0;
    var efficiencyPenalty := if totalCommits > 20 then (totalCommits - 20) * 2 else 0;
    var final := 100 + speedBonus - efficiencyPenalty;
    ScoreBreakdown(100, speedBonus, efficiencyPenalty, if final < 0 then 0 else final)
  }

  /** The frontend's mock formula is the backend's scoring rule, with the
      duration in milliseconds and the commits in place of the fixes. */
  lemma MockScoreIsBackendScore(totalTimeMs: real, totalCommits: nat)
    ensures MockScore(totalTimeMs, totalCommits).final == Scoring.ScoreOf(totalTimeMs / 1000.0, totalCommits)
  {
    assert totalTimeMs < 300000.0 <==> totalTimeMs / 1000.0 < Scoring.SPEED_LIMIT;
  }

  /** `Array.from({length: totalFixes + totalFailures}, ...)`: ids 1..n, the
      first totalFixes Fixed and the rest Failed. */
  function MockFixes(totalFixes: nat, totalFailures: nat): (fs: seq<MockFix>)
    ensures |fs| == totalFixes + totalFailures
    ensures forall i :: 0 <= i < |fs| ==> fs[i].id == i + 1 && (fs[i].status == Fixed <==> i < totalFixes)
  {
    seq(totalFixes + totalFailures, i requires 0 <= i < totalFixes + totalFailures =>
      MockFix(i + 1, if i < totalFixes then Fixed else Failed))
  }

  function CountFixed(fs: seq<MockFix>): nat
    decreases |fs|
  {
    if fs == [] then 0 else CountFixed(fs[..|fs| - 1]) + (if fs[|fs| - 1].status == Fixed then 1 else 0)
  }

  lemma {:induction false} CountFixedPrefix(fs: seq<MockFix>, k: nat)
    requires k <= |fs|
    requires forall i :: 0 <= i < |fs| ==> (fs[i].status == Fixed <==> i < k)
    ensures CountFixed(fs) == k
    decreases |fs|
  {
    if fs != [] {
      var n := |fs| - 1;
      if k == |fs| {
        CountFixedPrefix(fs[..n], n);
      } else {
        CountFixedPrefix(fs[..n], k);
      }
    }
  }

  /** Exactly totalFixes of the mock fixes are Fixed. */
  lemma MockFixesCount(totalFixes: nat, totalFailures: nat)
    ensures CountFixed(MockFixes(totalFixes, totalFailures)) == totalFixes
  {
    CountFixedPrefix(MockFixes(totalFixes, totalFailures), totalFixes);
  }

  /** `generateMockRun` for one set of draws. */
  function GenerateMockRun(repoUrl: string, team: string, leader: string, d: MockDraws): (run: MockRun)
    ensures run.passed <==> d.totalFailures == 0
    ensures run.totalCommits >= run.totalFixes + run.totalFailures
  {
    var commits := d.totalFixes + d.totalFailures + d.extraCommits;
    MockRun(repoUrl, team, leader, GenerateBranchName(team, leader), d.totalFixes, d.totalFailures,
      commits, d.totalTimeMs, MockFixes(d.totalFixes, d.totalFailures),
      MockScore(d.totalTimeMs, commits), d.totalFailures == 0)
  }

  /** With draws in their ranges there are at most 22 commits, so the mock
      score is between 96 and 110. */
  lemma MockScoreRange(repoUrl: string, team: string, leader: string, d: MockDraws)
    requires DrawsInRange(d)
    ensures var run := GenerateMockRun(repoUrl, team, leader, d);
      run.totalCommits <= 22 && 96 <= run.score.final <= 110
  {
  }

  /** One entry of `AGENT_LOG_SEQUENCE`. */
  datatype LogTemplate = LogTemplate(agent: string, message: string, kind: string)

  /** A terminal line: a template entry with its time. */
  datatype LogEntry = LogEntry(agent: string, message: string, kind: string, time: string)

  const ARROW: string := [0x2192 as char]
  const CHECK: string := [0x2713 as char]

  const AGENT_LOG_SEQUENCE: seq<LogTemplate> := [
    LogTemplate("COORDINATOR", "Initializing multi-agent reasoning pipeline...", "info"),
    LogTemplate("ANALYZER", "Scanning test failure in payment-service/checkout.test.ts", "warning"),
    LogTemplate("ANALYZER", "Root cause identified: Async timeout in Stripe webhook validation", "warning"),
    LogTemplate("PLANNER", "Generating fix strategy: Increase timeout + add retry logic", "success"),
    LogTemplate("EXECUTOR", "Applying patch to src/webhooks/stripe.ts", "info"),
    LogTemplate("EXECUTOR", "Modifying timeout from 3000ms " + ARROW + " 8000ms", "info"),
    LogTemplate("EXECUTOR", "Adding exponential backoff retry (max 3 attempts)", "info"),
    LogTemplate("VALIDATOR", "Running validation suite...", "pending"),
    LogTemplate("VALIDATOR", CHECK + " All tests passing (15/15)", "success"),
    LogTemplate("COORDINATOR", "Healing cycle complete. CI/CD unblocked.", "success")
  ]

  datatype Stats = Stats(totalRuns: int, successRate: real, avgHealTime: string, activeAgents: string)

  datatype Performance = Performance(speed: int, efficiency: int, accuracy: int, coverage: int, reliability: int)

  /** The value of the store; `streamIndex` is the `idx` counter of the
      stream `runAgent` started. */
  datatype StoreView = StoreView(
    repoUrl: string,
    teamName: string,
    leaderName: string,
    stats: Stats,
    performance: Performance,
    terminalLogs: seq<LogEntry>,
    isStreaming: bool,
    isRunning: bool,
    runComplete: bool,
    runData: Option<MockRun>,
    streamIndex: nat)

  /** The `set` at the start of `runAgent`. */
  function RunAgentEffect(v: StoreView): StoreView {
    v.(isRunning := true, isStreaming := true, runComplete := false, runData := None,
       terminalLogs := [], streamIndex := 0)
  }

  /** One call of `streamNext`: the next log line while the sequence lasts,
      then the completion, which stores the mock run, new performance figures
      and one more run in the stats. */
  function StreamNextEffect(v: StoreView, time: string, d: MockDraws, perf: Performance): StoreView {
    if v.streamIndex >= |AGENT_LOG_SEQUENCE| then
      v.(isRunning := false, isStreaming := false, runComplete := true,
         runData := Some(GenerateMockRun(v.repoUrl, v.teamName, v.leaderName, d)),
         performance := perf, stats := v.stats.(totalRuns := v.stats.totalRuns + 1))
    else
      var e := AGENT_LOG_SEQUENCE[v.streamIndex];
      v.(terminalLogs := v.terminalLogs + [LogEntry(e.agent, e.message, e.kind, time)],
         streamIndex := v.streamIndex + 1)
  }

  /** `reset`: config and run fields cleared. */
  function ResetEffect(v: StoreView): StoreView {
    v.(repoUrl := "", teamName := "", leaderName := "", isRunning := false, isStreaming := false,
       runComplete := false, runData := None, terminalLogs := [])
  }

  /** Reset keeps the stats and the performance figures, and leaves no run. */
  lemma ResetKeepsStats(v: StoreView)
    ensures ResetEffect(v).stats == v.stats && ResetEffect(v).performance == v.performance
    ensures !ResetEffect(v).isRunning && !ResetEffect(v).runComplete && ResetEffect(v).terminalLogs == []
  {
  }

  /** Completing a run counts exactly one more run and marks it complete;
      the other stats are kept. */
  lemma CompletionCountsOneRun(v: StoreView, time: string, d: MockDraws, perf: Performance)
    requires v.streamIndex >= |AGENT_LOG_SEQUENCE|
    ensures var w := StreamNextEffect(v, time, d, perf);
      w.stats == v.stats.(totalRuns := v.stats.totalRuns + 1) && w.runComplete && !w.isRunning
      && w.runData == Some(GenerateMockRun(v.repoUrl, v.teamName, v.leaderName, d))
      && w.terminalLogs == v.terminalLogs
  {
  }

  /** The lines of a stream so far are the first entries of the sequence. */
  predicate LogsFollowSequence(v: StoreView) {
    |v.terminalLogs| == v.streamIndex <= |AGENT_LOG_SEQUENCE|
    && forall k :: 0 <= k < |v.terminalLogs| ==> v.terminalLogs[k].agent == AGENT_LOG_SEQUENCE[k].agent
  }

  /** `runAgent` starts a stream in order, and every `streamNext` keeps it in order. */
  lemma StreamStaysInOrder(v: StoreView, time: string, d: MockDraws, perf: Performance)
    ensures LogsFollowSequence(RunAgentEffect(v))
    ensures LogsFollowSequence(v) ==> LogsFollowSequence(StreamNextEffect(v, time, d, perf))
  {
    if LogsFollowSequence(v) && v.streamIndex < |AGENT_LOG_SEQUENCE| {
      var w := StreamNextEffect(v, time, d, perf);
      var e := AGENT_LOG_SEQUENCE[v.streamIndex];
      assert w.terminalLogs == v.terminalLogs + [LogEntry(e.agent, e.message, e.kind, time)];
      forall k | 0 <= k < |w.terminalLogs| ensures w.terminalLogs[k].agent == AGENT_LOG_SEQUENCE[k].agent {
        if k < |v.terminalLogs| {
          assert w.terminalLogs[k] == v.terminalLogs[k];
        }
      }
    }
  }

  class Store {
    var repoUrl: string
    var teamName: string
    var leaderName: string
    var stats: Stats
    var performance: Performance
    var terminalLogs: seq<LogEntry>
    var isStreaming: bool
    var isRunning: bool
    var runComplete: bool
    var runData: Option<MockRun>
    var streamIndex: nat

    function View(): StoreView
      reads this
    {
      StoreView(repoUrl, teamName, leaderName, stats, performance, terminalLogs, isStreaming,
        isRunning, runComplete, runData, streamIndex)
    }

    /** The store as `create` builds it. */
    constructor ()
      ensures View() == StoreView("", "", "", Stats(4721, 94.2, "2m 34s", "8/12"),
        Performance(85, 92, 78, 70, 88), [], false, false, false, None, 0)
    {
      repoUrl := "";
      teamName := "";
      leaderName := "";
      stats := Stats(4721, 94.2, "2m 34s", "8/12");
      performance := Performance(85, 92, 78, 70, 88);
      terminalLogs := [];
      isStreaming := false;
      isRunning := false;
      runComplete := false;
      runData := None;
      streamIndex := 0;
    }

    method SetRepoUrl(url: string)
      modifies this
      ensures View() == old(View()).(repoUrl := url)
    {
      repoUrl := url;
    }

    method SetTeamName(name: string)
      modifies this
      ensures View() == old(View()).(teamName := name)
    {
      teamName := name;
    }

    method SetLeaderName(name: string)
      modifies this
      ensures View() == old(View()).(leaderName := name)
    {
      leaderName := name;
    }

    /** `runAgent`'s first `set`; the stream then proceeds by `StreamNext`. */
    method RunAgent()
      modifies this
      ensures View() == RunAgentEffect(old(View()))
    {
      isRunning := true;
      isStreaming := true;
      runComplete := false;
      runData := None;
      terminalLogs := [];
      streamIndex := 0;
    }

    /** One `streamNext`; the time label, the mock draws and the new
        performance figures are its random and clock inputs. */
    method StreamNext(time: string, d: MockDraws, perf: Performance)
      modifies this
      ensures View() == StreamNextEffect(old(View()), time, d, perf)
    {
      if streamIndex >= |AGENT_LOG_SEQUENCE| {
        var data := GenerateMockRun(repoUrl, teamName, leaderName, d);
        Complete(data, perf);
        return;
      }
      var entry := AGENT_LOG_SEQUENCE[streamIndex];
      Append(LogEntry(entry.agent, entry.message, entry.kind, time));
    }

    /** The completion `set` of `streamNext`. */
    method Complete(data: MockRun, perf: Performance)
      modifies this
      ensures View() == old(View()).(isRunning := false, isStreaming := false, runComplete := true,
        runData := Some(data), performance := perf, stats := old(stats).(totalRuns := old(stats).totalRuns + 1))
    {
      isRunning := false;
      isStreaming := false;
      runComplete := true;
      runData := Some(data);
      performance := perf;
      stats := stats.(totalRuns := stats.totalRuns + 1);
    }

    /** The `set` of `streamNext` that appends a line and advances `idx`. */
    method Append(e: LogEntry)
      modifies this
      ensures View() == old(View()).(terminalLogs := old(terminalLogs) + [e], streamIndex := old(streamIndex) + 1)
    {
      terminalLogs := terminalLogs + [e];
      streamIndex := streamIndex + 1;
    }

    method Reset()
      modifies this
      ensures View() == ResetEffect(old(View()))
    {
      repoUrl := "";
      teamName := "";
      leaderName := "";
      isRunning := false;
      isStreaming := false;
      runComplete := false;
      runData := None;
      terminalLogs := [];
    }
  }
}
