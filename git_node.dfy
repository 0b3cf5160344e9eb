/** The git node of backend/nodes/git_node.py: branch naming, the commit
    message, the remote-URL handling and the rules that decide what the node
    records in the state. Opening the repository, checkout, staging, commit,
    push and the GitHub HTTP calls are inputs (`GitInputs`). */
module GitNode {
  import opened Wrappers
  import opened Text
  import opened State

  /** The characters a sanitised branch part may hold: `[A-Z0-9_]`. */
  predicate BranchChar(c: char) {
    ('A' <= c <= 'Z') || ('0' <= c <= '9') || c == '_'
  }

  /** `re.sub(r"[^A-Z0-9_]", "", s)`. */
  function KeepBranchChars(s: string): (r: string)
    ensures |r| <= |s|
    ensures forall i :: 0 <= i < |r| ==> BranchChar(r[i])
    decreases |s|
  {
    if s == [] then []
    else (if BranchChar(s[0]) then [s[0]] else []) + KeepBranchChars(s[1..])
  }

  lemma {:induction false} KeepBranchCharsIdentity(s: string)
    requires forall i :: 0 <= i < |s| ==> BranchChar(s[i])
    ensures KeepBranchChars(s) == s
    decreases |s|
  {
    if s != [] {
      KeepBranchCharsIdentity(s[1..]);
      assert s == [s[0]] + s[1..];
    }
  }

  lemma {:induction false} KeepBranchCharsConcat(a: string, b: string)
    ensures KeepBranchChars(a + b) == KeepBranchChars(a) + KeepBranchChars(b)
    decreases |a|
  {
    if a == [] {
      assert a + b == b;
    } else {
      assert (a + b)[0] == a[0];
      assert (a + b)[1..] == a[1..] + b;
      KeepBranchCharsConcat(a[1..], b);
    }
  }

  /** The `sanitize` of `_make_branch_name`: upper-case, ' ' and '-' become
      '_', and everything outside `[A-Z0-9_]` is dropped. */
  function Sanitize(s: string): (r: string)
    ensures forall i :: 0 <= i < |r| ==> BranchChar(r[i])
  {
    KeepBranchChars(ReplaceAll(ReplaceAll(Upper(s), " ", "_"), "-", "_"))
  }

  /** The character `sanitize` turns `c` into before filtering. */
  function GitChar(c: char): char {
    if c == ' ' || c == '-' then '_' else UpperChar(c)
  }

  /** `Sanitize` works character by character. */
  lemma SanitizeIsCharMap(s: string)
    ensures Sanitize(s) == KeepBranchChars(seq(|s|, i requires 0 <= i < |s| => GitChar(s[i])))
  {
    ReplaceCharIsMap(Upper(s), ' ', '_');
    ReplaceCharIsMap(MapChar(Upper(s), ' ', '_'), '-', '_');
    assert MapChar(MapChar(Upper(s), ' ', '_'), '-', '_')
        == seq(|s|, i requires 0 <= i < |s| => GitChar(s[i]));
  }

  /** Sanitising twice is sanitising once. */
  lemma SanitizeIdempotent(s: string)
    ensures Sanitize(Sanitize(s)) == Sanitize(s)
  {
    var r := Sanitize(s);
    assert Upper(r) == r;
    ReplaceAbsent(r, ' ', "_");
    ReplaceAbsent(r, '-', "_");
    KeepBranchCharsIdentity(r);
  }

  const BRANCH_SUFFIX: string := "_AI_Fix"

  /** `_make_branch_name`: everything before the suffix `_AI_Fix` is made of
      `[A-Z0-9_]`. */
  function MakeBranchName(team: string, leader: string): (b: string)
    ensures EndsWith(b, BRANCH_SUFFIX)
    ensures StartsWith(b, Sanitize(team) + "_")
    ensures forall i :: 0 <= i < |b| - |BRANCH_SUFFIX| ==> BranchChar(b[i])
  {
    Sanitize(team) + "_" + Sanitize(leader) + BRANCH_SUFFIX
  }

  /** Letters, digits, spaces and hyphens: what `sanitize` maps without dropping. */
  predicate PlainChar(c: char) {
    ('a' <= c <= 'z') || ('A' <= c <= 'Z') || ('0' <= c <= '9') || c == ' ' || c == '-'
  }

  /** On plain input nothing is dropped: every character is mapped. */
  lemma SanitizePlain(s: string)
    requires forall i :: 0 <= i < |s| ==> PlainChar(s[i])
    ensures Sanitize(s) == seq(|s|, i requires 0 <= i < |s| => GitChar(s[i]))
  {
    SanitizeIsCharMap(s);
    KeepBranchCharsIdentity(seq(|s|, i requires 0 <= i < |s| => GitChar(s[i])));
  }

  lemma SanitizeTeamOne(team: string)
    requires team == "Team One"
    ensures Sanitize(team) == "TEAM_ONE"
  {
    assert forall i :: 0 <= i < |team| ==> PlainChar(team[i]);
    SanitizePlain(team);
    var t := seq(|team|, i requires 0 <= i < |team| => GitChar(team[i]));
    assert t[0] == 'T' && t[1] == 'E' && t[2] == 'A' && t[3] == 'M' && t[4] == '_';
    assert t[5] == 'O' && t[6] == 'N' && t[7] == 'E';
    assert t == "TEAM_ONE";
  }

  lemma SanitizeAlEx(leader: string)
    requires leader == "al-ex"
    ensures Sanitize(leader) == "AL_EX"
  {
    assert forall i :: 0 <= i < |leader| ==> PlainChar(leader[i]);
    SanitizePlain(leader);
    var l := seq(|leader|, i requires 0 <= i < |leader| => GitChar(leader[i]));
    assert l[0] == 'A' && l[1] == 'L' && l[2] == '_' && l[3] == 'E' && l[4] == 'X';
    assert l == "AL_EX";
  }

  /** The example of the branch-naming rule: spaces and hyphens both become '_'. */
  lemma BranchNameExample(team: string, leader: string)
    requires team == "Team One" && leader == "al-ex"
    ensures MakeBranchName(team, leader) == "TEAM_ONE_AL_EX_AI_Fix"
  {
    SanitizeTeamOne(team);
    SanitizeAlEx(leader);
  }

  const COMMIT_PREFIX: string := "[AI-AGENT]"
  const DEFAULT_COMMIT_MESSAGE: string := "[AI-AGENT] Fix applied"

  /** Puts "[AI-AGENT] " in front of a message that does not start with the prefix. */
  function EnsurePrefix(m: string): (r: string)
    ensures StartsWith(r, COMMIT_PREFIX)
    ensures StartsWith(m, COMMIT_PREFIX) ==> r == m
    ensures !StartsWith(m, COMMIT_PREFIX) ==> r == COMMIT_PREFIX + " " + m
  {
    if StartsWith(m, COMMIT_PREFIX) then m else COMMIT_PREFIX + " " + m
  }

  /** The prefix is never added twice. */
  lemma EnsurePrefixIdempotent(m: string)
    ensures EnsurePrefix(EnsurePrefix(m)) == EnsurePrefix(m)
  {
  }

  /** The commit message: the last fix's, or the default when it has none,
      with the prefix ensured. */
  function CommitMessage(fixes: seq<FixDetail>): (m: string)
    requires fixes != []
    ensures StartsWith(m, COMMIT_PREFIX)
    ensures fixes[|fixes| - 1].commitMessage.None? ==> m == DEFAULT_COMMIT_MESSAGE
    ensures fixes[|fixes| - 1].commitMessage.Some? ==> m == EnsurePrefix(fixes[|fixes| - 1].commitMessage.value)
  {
    EnsurePrefix(fixes[|fixes| - 1].commitMessage.GetOr(DEFAULT_COMMIT_MESSAGE))
  }

  /** The remote URL with any credentials before "@github.com" replaced by
      "https://github.com"; only done when a token is set. */
  function CleanRemoteUrl(url: string, token: string): (r: string)
    ensures token == "" || !Contains(url, "@github.com") ==> r == url
    ensures token != "" && Contains(url, "@github.com") ==>
      StartsWith(r, "https://github.com") && EndsWith(url, r[|"https://github.com"|..])
  {
    if token != "" then
      match AfterFirst(url, "@github.com")
      case Some(rest) => "https://github.com" + rest
      case None => url
    else url
  }

  /** The URL origin is switched to: the token after the scheme, wherever
      "https://" occurs; only for a token and an https URL. */
  function AuthedOrigin(url: string, token: string): (r: Option<string>)
    ensures r.Some? <==> token != "" && StartsWith(CleanRemoteUrl(url, token), "https://")
    ensures r.Some? ==> StartsWith(r.value, "https://" + token + "@")
  {
    var raw := CleanRemoteUrl(url, token);
    if token != "" && StartsWith(raw, "https://") then
      assert raw == "https://" + raw[8..];
      Some(ReplaceAll(raw, "https://", "https://" + token + "@"))
    else None
  }

  /** The owner and repository the PR goes to, from the clean URL: "https://"
      and every ".git" removed, '/' stripped at both ends, split on '/';
      fewer than three parts means no PR. */
  function ParseOwnerRepo(cleanUrl: string): (r: Option<(string, string)>)
    ensures var parts := SplitOn(Strip(ReplaceAll(ReplaceAll(cleanUrl, "https://", ""), ".git", ""), '/'), '/');
      (r.Some? <==> |parts| >= 3)
      && (r.Some? ==> r.value == (parts[|parts| - 2], parts[|parts| - 1]))
  {
    var bare := ReplaceAll(ReplaceAll(cleanUrl, "https://", ""), ".git", "");
    var parts := SplitOn(Strip(bare, '/'), '/');
    if |parts| >= 3 then Some((parts[|parts| - 2], parts[|parts| - 1])) else None
  }

  /** The https URL of a GitHub repository. */
  function GitHubUrl(owner: string, repo: string): string {
    "https://github.com/" + owner + "/" + repo + ".git"
  }

  /** A name part of a URL that the parse gives back unchanged. */
  predicate PlainName(s: string) {
    s != [] && '/' !in s && '.' !in s && ':' !in s
  }

  lemma {:induction false} DropScheme(t: string)
    requires ':' !in t
    ensures ReplaceAll("https://" + t, "https://", "") == t
  {
    var u := "https://" + t;
    assert "https://" <= u && u[8..] == t;
    ReplaceMissingChar(t, "https://", "", 5);
  }

  lemma {:induction false} DropGitSuffix(path: string)
    requires '.' !in path
    ensures ReplaceAll("github.com/" + path + ".git", ".git", "") == "github.com/" + path
  {
    var rest := "com/" + path;
    var tail := "." + rest + ".git";
    assert "github.com/" + path + ".git" == "github" + tail;
    ReplaceSkipsPart("github", tail, ".git", "");
    assert tail[1] == 'c' && tail[1..] == rest + ".git";
    assert !(".git" <= tail);
    assert '.' !in rest;
    ReplaceSkipsPart(rest, ".git", ".git", "");
    assert ReplaceAll(".git", ".git", "") == "";
    assert "github" + ("." + rest) == "github.com/" + path;
  }

  lemma StripGitHubPath(path: string, repo: string)
    requires repo != [] && EndsWith(path, repo) && repo[|repo| - 1] != '/'
    ensures Strip("github.com/" + path, '/') == "github.com/" + path
  {
    var bare := "github.com/" + path;
    assert bare[0] == 'g' && bare[|bare| - 1] == repo[|repo| - 1];
  }

  lemma {:induction false} SplitGitHubPath(owner: string, repo: string)
    requires '/' !in owner && '/' !in repo
    ensures SplitOn("github.com/" + owner + "/" + repo, '/') == ["github.com", owner, repo]
  {
    assert "github.com/" + owner + "/" + repo == "github.com" + ['/'] + (owner + ['/'] + repo);
    assert '/' !in "github.com";
    SplitThree("github.com", owner, repo, '/');
  }

  lemma SplitThree(a: string, b: string, c: string, sep: char)
    requires sep !in a && sep !in b && sep !in c
    ensures SplitOn(a + [sep] + (b + [sep] + c), sep) == [a, b, c]
  {
    SplitOnConcat(a, b + [sep] + c, sep);
    SplitOnConcat(b, c, sep);
    SplitOnSingle(a, sep);
    SplitOnSingle(b, sep);
    SplitOnSingle(c, sep);
  }

  /** The owner and repository are read back from their URL. */
  lemma ParseOwnerRepoRoundTrip(owner: string, repo: string)
    requires PlainName(owner) && PlainName(repo)
    ensures ParseOwnerRepo(GitHubUrl(owner, repo)) == Some((owner, repo))
  {
    BareGitHubPath(owner, repo);
    GitHubPathParts(owner, repo);
  }

  /** Dropping the scheme and ".git" leaves "github.com/owner/repo". */
  lemma BareGitHubPath(owner: string, repo: string)
    requires PlainName(owner) && PlainName(repo)
    ensures ReplaceAll(ReplaceAll(GitHubUrl(owner, repo), "https://", ""), ".git", "")
      == "github.com/" + owner + "/" + repo
  {
    var path := owner + "/" + repo;
    var t := "github.com/" + path + ".git";
    assert GitHubUrl(owner, repo) == "https://" + t;
    assert ':' !in t by {
      assert t == "github.com/" + owner + "/" + repo + ".git";
    }
    DropScheme(t);
    DropGitSuffix(path);
    assert "github.com/" + path == "github.com/" + owner + "/" + repo;
  }

  /** "github.com/owner/repo" strips to itself and splits into its three parts. */
  lemma GitHubPathParts(owner: string, repo: string)
    requires PlainName(owner) && PlainName(repo)
    ensures SplitOn(Strip("github.com/" + owner + "/" + repo, '/'), '/') == ["github.com", owner, repo]
  {
    var path := owner + "/" + repo;
    StripGitHubPath(path, repo);
    assert "github.com/" + path == "github.com/" + owner + "/" + repo;
    SplitGitHubPath(owner, repo);
  }

  /** What GitHub answered to the PR POST, or an exception on the way. */
  datatype PrResponse = PrStatus(code: int, htmlUrl: Option<string>) | PrRaised

  /** The outcomes of everything git_node asks of GitPython, the environment
      and GitHub, in the order it asks. */
  datatype GitInputs = GitInputs(
    openOk: bool,            // Repo(repo_path) succeeds
    heads: seq<string>,      // the names of the local branches
    checkoutOk: bool,        // creating / checking out the branch succeeds
    stagingOk: bool,         // cleanup, `git rm --cached`, .gitignore, `git add` succeed
    dirty: bool,             // is_dirty(untracked) or index differs from HEAD
    commitOk: bool,          // the commit succeeds
    token: string,           // GITHUB_TOKEN, "" when unset
    remoteUrl: string,       // origin's URL
    pushOk: bool,            // everything up to and including the push succeeds
    defaultBranch: Option<string>,  // the repository's default branch, when the lookup answers it
    prResponse: PrResponse)

  /** The pull request the node asks GitHub to open. */
  datatype PrRequest = PrRequest(owner: string, repo: string, title: string, head: string, base: string, fixCount: nat)

  /** What the node did besides updating the state. */
  datatype GitReport =
    | NoFixes
    | RepoOpenFailed
    | CheckoutFailed(branch: string)
    | CommitFailed(branch: string)
    | Completed(branch: string, createdBranch: bool, commitMessage: string, committed: bool,
                newOrigin: Option<string>, pr: Option<PrRequest>)

  /** `state.get('pr_url')` is truthy. */
  predicate HasPrUrl(v: StateView) {
    v.prUrl.Some? && v.prUrl.value != ""
  }

  function PrTitle(branch: string): string {
    "[AI-AGENT] Autonomous CI/CD Fix " + [0x2014 as char] + " " + branch
  }

  /** The PR the node requests: only after a successful push, for a state
      without a PR and a set token, and a URL that names an owner and a repository. */
  function PrRequestOf(v: StateView, g: GitInputs, branch: string): (r: Option<PrRequest>)
    ensures r.Some? <==>
      g.pushOk && !HasPrUrl(v) && g.token != ""
      && ParseOwnerRepo(CleanRemoteUrl(g.remoteUrl, g.token)).Some?
    ensures r.Some? ==> r.value.head == branch && r.value.base == g.defaultBranch.GetOr("main")
                        && r.value.fixCount == |v.fixesApplied|
  {
    if g.pushOk && !HasPrUrl(v) && g.token != "" then
      match ParseOwnerRepo(CleanRemoteUrl(g.remoteUrl, g.token))
      case Some((owner, repo)) =>
        Some(PrRequest(owner, repo, PrTitle(branch), branch, g.defaultBranch.GetOr("main"), |v.fixesApplied|))
      case None => None
    else None
  }

  /** The `pr_url` after the node: the answer's `html_url` (or "") on 200/201
      to a request that was made, else what it was. */
  function NewPrUrl(v: StateView, g: GitInputs, pr: Option<PrRequest>): Option<string> {
    if pr.Some? && g.prResponse.PrStatus? && g.prResponse.code in {200, 201} then
      Some(g.prResponse.htmlUrl.GetOr(""))
    else v.prUrl
  }

  /** The report and the state the node leaves, as one function of the state
      it gets and the outcomes: no fixes, or a failure to open, check out or
      commit, returns the state untouched; otherwise `branch_pushed`, possibly
      `pr_url`, `branch_name` and GIT_COMMIT_COMPLETE are recorded. */
  function GitEffect(v: StateView, g: GitInputs): (GitReport, StateView)
  {
    if v.fixesApplied == [] then (NoFixes, v)
    else if !g.openOk then (RepoOpenFailed, v)
    else
      var branch := MakeBranchName(v.teamName, v.leaderName);
      if !g.checkoutOk then (CheckoutFailed(branch), v)
      else if !g.stagingOk || (g.dirty && !g.commitOk) then (CommitFailed(branch), v)
      else
        var pr := PrRequestOf(v, g, branch);
        (Completed(branch, branch !in g.heads, CommitMessage(v.fixesApplied), g.dirty,
                   AuthedOrigin(g.remoteUrl, g.token), pr),
         v.(branchPushed := Some(g.pushOk), prUrl := NewPrUrl(v, g, pr),
            branchName := Some(branch), currentStep := GitCommitComplete))
  }

  /** What git_node does, case by case. */
  lemma GitEffectCases(v: StateView, g: GitInputs)
    ensures v.fixesApplied == [] ==> GitEffect(v, g) == (NoFixes, v)
    ensures !GitEffect(v, g).0.Completed? ==> GitEffect(v, g).1 == v
    ensures GitEffect(v, g).0.Completed? <==>
      v.fixesApplied != [] && g.openOk && g.checkoutOk && g.stagingOk && (g.dirty ==> g.commitOk)
    ensures GitEffect(v, g).0.Completed? ==>
      var branch := MakeBranchName(v.teamName, v.leaderName);
      GitEffect(v, g).0.branch == branch
      && GitEffect(v, g).0.createdBranch == (branch !in g.heads)
      && GitEffect(v, g).0.commitMessage == CommitMessage(v.fixesApplied)
      && GitEffect(v, g).0.committed == g.dirty
      && GitEffect(v, g).0.newOrigin == AuthedOrigin(g.remoteUrl, g.token)
      && GitEffect(v, g).0.pr == PrRequestOf(v, g, branch)
      && GitEffect(v, g).1 == v.(branchPushed := Some(g.pushOk), prUrl := NewPrUrl(v, g, GitEffect(v, g).0.pr),
                   branchName := Some(branch), currentStep := GitCommitComplete)
  {
  }

  /** An open PR is never replaced, and `pr_url` only changes after a pushed
      branch, with a token, on a 200 or 201 answer. */
  lemma PrUrlGate(v: StateView, g: GitInputs)
    ensures HasPrUrl(v) ==> GitEffect(v, g).1.prUrl == v.prUrl
    ensures GitEffect(v, g).1.prUrl != v.prUrl ==>
      g.pushOk && g.token != "" && g.prResponse.PrStatus? && g.prResponse.code in {200, 201}
    ensures g.prResponse.PrStatus? && g.prResponse.code == 422 ==> GitEffect(v, g).1.prUrl == v.prUrl
  {
  }

  /** Every commit the node makes carries the prefix. */
  lemma CommitAlwaysPrefixed(v: StateView, g: GitInputs)
    ensures GitEffect(v, g).0.Completed? ==> StartsWith(GitEffect(v, g).0.commitMessage, COMMIT_PREFIX)
  {
  }

  /** The remote handling before the push: the clean URL the PR is parsed
      from, and the authenticated URL origin is switched to, if any. */
  method RemoteUrls(url: string, token: string) returns (cleanUrl: string, newOrigin: Option<string>)
    ensures cleanUrl == CleanRemoteUrl(url, token)
    ensures newOrigin == AuthedOrigin(url, token)
  {
    cleanUrl := url;
    newOrigin := None;
    if token != "" {
      var raw := cleanUrl;
      match AfterFirst(raw, "@github.com") {
        case Some(rest) =>
          raw := "https://github.com" + rest;
          cleanUrl := raw;
        case None =>
      }
      if StartsWith(raw, "https://") {
        newOrigin := Some(ReplaceAll(raw, "https://", "https://" + token + "@"));
      }
    }
  }

  /** The pull-request step after the push, on the state as it was: the
      request made, if any, and the `pr_url` to record. */
  method OpenPullRequest(v: StateView, g: GitInputs, branch: string, cleanUrl: string)
    returns (pr: Option<PrRequest>, prUrl: Option<string>)
    requires cleanUrl == CleanRemoteUrl(g.remoteUrl, g.token)
    ensures pr == PrRequestOf(v, g, branch)
    ensures prUrl == NewPrUrl(v, g, pr)
  {
    pr := None;
    prUrl := v.prUrl;
    if g.pushOk && !HasPrUrl(v) && g.token != "" {
      var owners := ParseOwnerRepo(cleanUrl);
      if owners.Some? {
        var (owner, repo) := owners.value;
        pr := Some(PrRequest(owner, repo, PrTitle(branch), branch, g.defaultBranch.GetOr("main"), |v.fixesApplied|));
        match g.prResponse {
          case PrStatus(code, htmlUrl) =>
            if code == 200 || code == 201 {
              prUrl := Some(htmlUrl.GetOr(""));
            }
          case PrRaised =>
        }
      }
    }
  }

  /** The part of `git_node` after a successful commit: the push outcome,
      the pull request on the first push, the branch name and the step. */
  method PushAndRecord(st: AgentState, g: GitInputs, branch: string, cleanUrl: string)
    returns (pr: Option<PrRequest>)
    requires cleanUrl == CleanRemoteUrl(g.remoteUrl, g.token)
    modifies st
    ensures pr == PrRequestOf(old(st.View()), g, branch)
    ensures st.View() == old(st.View()).(branchPushed := Some(g.pushOk),
      prUrl := NewPrUrl(old(st.View()), g, pr), branchName := Some(branch), currentStep := GitCommitComplete)
  {
    var prUrl;
    pr, prUrl := OpenPullRequest(st.View(), g, branch, cleanUrl);
    st.branchPushed := Some(g.pushOk);
    st.prUrl := prUrl;
    st.branchName := Some(branch);
    st.currentStep := GitCommitComplete;
  }

  /** `git_node`: early returns on no fixes and on failures before the push;
      the push outcome is recorded either way. */
  method GitNodeRun(st: AgentState, g: GitInputs) returns (rep: GitReport)
    modifies st
    ensures (rep, st.View()) == GitEffect(old(st.View()), g)
  {
    var fixes := st.fixesApplied;
    if fixes == [] {
      return NoFixes;
    }
    var commitMsg := fixes[|fixes| - 1].commitMessage.GetOr(DEFAULT_COMMIT_MESSAGE);
    if !StartsWith(commitMsg, COMMIT_PREFIX) {
      commitMsg := COMMIT_PREFIX + " " + commitMsg;
    }
    if !g.openOk {
      return RepoOpenFailed;
    }
    var branch := MakeBranchName(st.teamName, st.leaderName);
    var created := branch !in g.heads;
    if !g.checkoutOk {
      return CheckoutFailed(branch);
    }
    if !g.stagingOk || (g.dirty && !g.commitOk) {
      return CommitFailed(branch);
    }
    var committed := g.dirty;
    var cleanUrl, newOrigin := RemoteUrls(g.remoteUrl, g.token);
    var pr := PushAndRecord(st, g, branch, cleanUrl);
    rep := Completed(branch, created, commitMsg, committed, newOrigin, pr);
  }
}
