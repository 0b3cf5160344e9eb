/** The discovery node of backend/nodes/discovery.py: it names the clone
    directory, clones (the outcome is an input here), detects the stack from
    marker files and collects the stack's test files. */
module Discovery {
  import opened Text
  import opened State
  import opened FileTree
  import Graph

  /** The directory name of a clone: the team name, '_', and the last path
      segment of the URL (trailing '/' ignored) with every ".git" removed. */
  function RepoName(team: string, url: string): (r: string)
    ensures |r| > |team| && r[|team|] == '_'
  {
    team + "_" + ReplaceAll(Basename(RStrip(url, '/')), ".git", "")
  }

  /** `repo_dir`: the clone directory below the work directory. */
  function RepoDir(workDir: string, team: string, url: string): (d: string)
    ensures d != []
  {
    JoinPath(workDir, RepoName(team, url))
  }

  /** A trailing '/' on the URL does not change the directory name. */
  lemma TrailingSlashIgnored(team: string, url: string)
    ensures RepoName(team, url + "/") == RepoName(team, url)
  {
    RStripTrailing(url, '/');
    assert url + "/" == url + ['/'];
  }

  /** For `<prefix>/<name>.git` the directory is `<team>_<name>` when the
      name has no '/' and no '.'. */
  lemma GitUrlName(team: string, prefix: string, name: string)
    requires '/' !in name && '.' !in name
    ensures RepoName(team, prefix + "/" + name + ".git") == team + "_" + name
  {
    var url := prefix + "/" + name + ".git";
    var last := name + ".git";
    assert Basename(RStrip(url, '/')) == last by {
      assert url == prefix + "/" + last;
      assert url[|url| - 1] == 't';
      assert forall k :: 0 <= k < |last| ==> last[k] != '/';
      BasenameAfterSlash(prefix, last);
    }
    assert ReplaceAll(last, ".git", "") == name by {
      ReplaceSkipsPart(name, ".git", ".git", "");
      ReplaceWhole(".git");
    }
  }

  /** The `root` path relative to the base of the walk: "/d1/d2/...". */
  function RootSuffix(dir: seq<string>): string
    decreases |dir|
  {
    if dir == [] then "" else "/" + dir[0] + RootSuffix(dir[1..])
  }

  lemma {:induction false} RootIsBasePlusSuffix(base: string, dir: seq<string>)
    ensures Root(base, dir) == base + RootSuffix(dir)
    decreases |dir|
  {
    if dir != [] {
      RootIsBasePlusSuffix(base + "/" + dir[0], dir[1..]);
    }
  }

  /** `root.replace(base_dir, '').count(os.sep)`. */
  function Depth(base: string, root: string): nat
    requires base != []
  {
    CountChar(ReplaceAll(root, base, ""), '/')
  }

  /** Whether `_find_file` looks into a directory: at most 3 levels deep and
      no "node_modules" or ".git" in its path. */
  predicate Searched(base: string, dir: seq<string>)
    requires base != []
  {
    var root := Root(base, dir);
    Depth(base, root) <= 3 && !Contains(root, "node_modules") && !Contains(root, ".git")
  }

  /** Directory names as `os.walk` gives them: no '/' in any of them. */
  predicate PlainDirs(dir: seq<string>) {
    forall k :: 0 <= k < |dir| ==> '/' !in dir[k]
  }

  lemma {:induction false} SuffixSlashes(dir: seq<string>)
    requires PlainDirs(dir)
    ensures CountChar(RootSuffix(dir), '/') == |dir|
    decreases |dir|
  {
    if dir != [] {
      assert PlainDirs(dir[1..]) by {
        forall k | 0 <= k < |dir[1..]| ensures '/' !in dir[1..][k] {
          assert dir[1..][k] == dir[k + 1];
        }
      }
      SuffixSlashes(dir[1..]);
      assert '/' !in dir[0];
      CountCharAbsent(dir[0], '/');
      CountCharConcat("/" + dir[0], RootSuffix(dir[1..]), '/');
      CountCharConcat("/", dir[0], '/');
    }
  }

  /** The depth `_find_file` computes is the number of directory levels below
      the base, when the base path does not reappear below itself. */
  lemma DepthIsLevel(base: string, dir: seq<string>)
    requires base != [] && PlainDirs(dir) && !Contains(RootSuffix(dir), base)
    ensures Depth(base, Root(base, dir)) == |dir|
  {
    var suffix := RootSuffix(dir);
    RootIsBasePlusSuffix(base, dir);
    var s := base + suffix;
    assert base <= s;
    assert s[|base|..] == suffix;
    assert ReplaceAll(s, base, "") == ReplaceAll(suffix, base, "");
    ReplaceNoOccurrence(suffix, base, "");
    SuffixSlashes(dir);
  }

  /** Directories more than 3 levels deep are never searched. */
  lemma DeepDirIgnored(base: string, dir: seq<string>)
    requires base != [] && PlainDirs(dir) && !Contains(RootSuffix(dir), base)
    requires |dir| > 3
    ensures !Searched(base, dir)
  {
    DepthIsLevel(base, dir);
  }

  /** A directory named node_modules is never searched, nor is anything below it. */
  lemma NodeModulesIgnored(base: string, dir: seq<string>, k: nat)
    requires base != [] && k < |dir| && dir[k] == "node_modules"
    ensures !Searched(base, dir)
  {
    RootIsBasePlusSuffix(base, dir);
    NameInSuffix(dir, k);
    ContainsInConcat(base, Root(base, dir)[|base|..], "", "node_modules");
    assert Root(base, dir) == base + Root(base, dir)[|base|..] + "";
  }

  /** A directory name appears in the root path below the base. */
  lemma {:induction false} NameInSuffix(dir: seq<string>, k: nat)
    requires k < |dir|
    ensures Contains(RootSuffix(dir), dir[k])
    decreases k
  {
    var rest := RootSuffix(dir[1..]);
    assert RootSuffix(dir) == "/" + dir[0] + rest;
    if k == 0 {
      ContainsAt(RootSuffix(dir), dir[0], 1);
    } else {
      NameInSuffix(dir[1..], k - 1);
      ContainsInConcat("/" + dir[0], rest, "", dir[k]);
      assert RootSuffix(dir) == "/" + dir[0] + rest + "";
    }
  }

  /** The repository root itself is always searched, unless its own path
      contains "node_modules" or ".git". */
  lemma RootSearched(base: string)
    requires base != [] && !Contains(base, "node_modules") && !Contains(base, ".git")
    ensures Searched(base, [])
  {
    ReplaceWhole(base);
  }

  /** `_find_file(base, filename)`: some searched directory holds the file. */
  predicate FindsFile(base: string, walk: seq<WalkEntry>, filename: string)
    requires base != []
  {
    exists i :: 0 <= i < |walk| && Searched(base, walk[i].dir) && filename in walk[i].files
  }

  /** `_find_file` as the walk loop with `continue` it is. */
  method FindFile(base: string, walk: seq<WalkEntry>, filename: string) returns (found: bool)
    requires base != []
    ensures found == FindsFile(base, walk, filename)
  {
    var i := 0;
    while i < |walk|
      invariant 0 <= i <= |walk|
      invariant forall j :: 0 <= j < i ==> !(Searched(base, walk[j].dir) && filename in walk[j].files)
    {
      var root := Root(base, walk[i].dir);
      var depth := CountChar(ReplaceAll(root, base, ""), '/');
      if depth > 3 {
        i := i + 1;
        continue;
      }
      if Contains(root, "node_modules") || Contains(root, ".git") {
        i := i + 1;
        continue;
      }
      if filename in walk[i].files {
        return true;
      }
      i := i + 1;
    }
    return false;
  }

  /** The stack cascade: a Python marker wins, then package.json, else UNKNOWN. */
  function DetectStack(hasRequirements: bool, hasPyproject: bool, hasSetupPy: bool,
                       hasPyFiles: bool, hasPackageJson: bool): (s: Stack)
    ensures s == Python <==> hasRequirements || hasPyproject || hasSetupPy || hasPyFiles
    ensures s == Node <==> !(hasRequirements || hasPyproject || hasSetupPy || hasPyFiles) && hasPackageJson
    ensures s == Unknown <==> !(hasRequirements || hasPyproject || hasSetupPy || hasPyFiles || hasPackageJson)
  {
    if hasRequirements || hasPyproject || hasSetupPy || hasPyFiles then Python
    else if hasPackageJson then Node
    else Unknown
  }

  /** The glob patterns of the node, below the repository directory, at any depth. */
  datatype Pattern = AnyPy | TestPrefixPy | TestSuffixPy | TestJs | SpecJs | TestTs | SpecTs

  /** Whether a file name matches a pattern; `*` does not match a leading '.'. */
  predicate Matches(p: Pattern, name: string) {
    match p
    case AnyPy => !Hidden(name) && EndsWith(name, ".py")
    case TestPrefixPy => StartsWith(name, "test_") && EndsWith(name, ".py") && |name| >= 8
    case TestSuffixPy => !Hidden(name) && EndsWith(name, "_test.py")
    case TestJs => !Hidden(name) && EndsWith(name, ".test.js")
    case SpecJs => !Hidden(name) && EndsWith(name, ".spec.js")
    case TestTs => !Hidden(name) && EndsWith(name, ".test.ts")
    case SpecTs => !Hidden(name) && EndsWith(name, ".spec.ts")
  }

  /** `**` matches only directories that are not hidden. */
  predicate Visible(dir: seq<string>) {
    forall k :: 0 <= k < |dir| ==> !Hidden(dir[k])
  }

  /** The path glob returns for a file. */
  function FullPath(repoDir: string, dir: seq<string>, name: string): string {
    JoinPath(repoDir, RelPath(dir, name))
  }

  /** The matches of one entry's files. */
  function EntryGlob(repoDir: string, dir: seq<string>, files: seq<string>, p: Pattern): seq<string>
    decreases |files|
  {
    if files == [] then []
    else
      (if Visible(dir) && Matches(p, files[0]) then [FullPath(repoDir, dir, files[0])] else [])
      + EntryGlob(repoDir, dir, files[1..], p)
  }

  /** The recursive `glob.glob` of one pattern below the repository directory, in walk order. */
  function Glob(repoDir: string, walk: seq<WalkEntry>, p: Pattern): seq<string>
    decreases |walk|
  {
    if walk == [] then []
    else EntryGlob(repoDir, walk[0].dir, walk[0].files, p) + Glob(repoDir, walk[1..], p)
  }

  lemma {:induction false} EntryGlobWitness(repoDir: string, dir: seq<string>, files: seq<string>,
                                            p: Pattern, f: string) returns (k: nat)
    requires f in EntryGlob(repoDir, dir, files, p)
    ensures k < |files| && Visible(dir) && Matches(p, files[k]) && f == FullPath(repoDir, dir, files[k])
    decreases |files|
  {
    if files != [] {
      if Visible(dir) && Matches(p, files[0]) && f == FullPath(repoDir, dir, files[0]) {
        k := 0;
      } else {
        var k' := EntryGlobWitness(repoDir, dir, files[1..], p, f);
        k := k' + 1;
      }
    }
  }

  /** Every path glob returns is a visible file of the walk matching the pattern. */
  lemma {:induction false} GlobWitness(repoDir: string, walk: seq<WalkEntry>, p: Pattern, f: string)
    returns (i: nat, k: nat)
    requires f in Glob(repoDir, walk, p)
    ensures i < |walk| && k < |walk[i].files|
    ensures Visible(walk[i].dir) && Matches(p, walk[i].files[k])
    ensures f == FullPath(repoDir, walk[i].dir, walk[i].files[k])
    decreases |walk|
  {
    if walk != [] {
      if f in EntryGlob(repoDir, walk[0].dir, walk[0].files, p) {
        i := 0;
        k := EntryGlobWitness(repoDir, walk[0].dir, walk[0].files, p, f);
      } else {
        var i', k' := GlobWitness(repoDir, walk[1..], p, f);
        i, k := i' + 1, k';
      }
    }
  }

  lemma {:induction false} EntryGlobFinds(repoDir: string, dir: seq<string>, files: seq<string>,
                                          p: Pattern, k: nat)
    requires k < |files| && Visible(dir) && Matches(p, files[k])
    ensures FullPath(repoDir, dir, files[k]) in EntryGlob(repoDir, dir, files, p)
    decreases k
  {
    if k > 0 {
      EntryGlobFinds(repoDir, dir, files[1..], p, k - 1);
    }
  }

  /** Every visible file of the walk that matches the pattern is returned. */
  lemma {:induction false} GlobFinds(repoDir: string, walk: seq<WalkEntry>, p: Pattern, i: nat, k: nat)
    requires i < |walk| && k < |walk[i].files|
    requires Visible(walk[i].dir) && Matches(p, walk[i].files[k])
    ensures FullPath(repoDir, walk[i].dir, walk[i].files[k]) in Glob(repoDir, walk, p)
    decreases i
  {
    if i == 0 {
      EntryGlobFinds(repoDir, walk[0].dir, walk[0].files, p, k);
    } else {
      GlobFinds(repoDir, walk[1..], p, i - 1, k);
    }
  }

  /** The patterns each stack searches; UNKNOWN searches none. */
  function Patterns(stack: Stack): (ps: seq<Pattern>)
    ensures stack == Unknown <==> ps == []
    ensures stack == Python ==> forall p :: p in ps <==> p == TestPrefixPy || p == TestSuffixPy
    ensures stack == Node ==> forall p :: p in ps <==> p in {TestJs, SpecJs, TestTs, SpecTs}
  {
    match stack
    case Python => [TestPrefixPy, TestSuffixPy]
    case Node => [TestJs, SpecJs, TestTs, SpecTs]
    case Unknown => []
  }

  /** The list the `extend` loop builds: each pattern's matches in turn. */
  function GlobAll(repoDir: string, walk: seq<WalkEntry>, ps: seq<Pattern>): seq<string>
    decreases |ps|
  {
    if ps == [] then [] else GlobAll(repoDir, walk, ps[..|ps| - 1]) + Glob(repoDir, walk, ps[|ps| - 1])
  }

  /** A path of the extended list comes from one of the patterns. */
  lemma {:induction false} GlobAllWitness(repoDir: string, walk: seq<WalkEntry>, ps: seq<Pattern>, f: string)
    returns (j: nat)
    requires f in GlobAll(repoDir, walk, ps)
    ensures j < |ps| && f in Glob(repoDir, walk, ps[j])
    decreases |ps|
  {
    var n := |ps| - 1;
    if f in Glob(repoDir, walk, ps[n]) {
      j := n;
    } else {
      j := GlobAllWitness(repoDir, walk, ps[..n], f);
      assert ps[..n][j] == ps[j];
    }
  }

  /** Each pattern's matches are all in the extended list. */
  lemma {:induction false} GlobAllHas(repoDir: string, walk: seq<WalkEntry>, ps: seq<Pattern>, j: nat, f: string)
    requires j < |ps| && f in Glob(repoDir, walk, ps[j])
    ensures f in GlobAll(repoDir, walk, ps)
    decreases |ps|
  {
    var n := |ps| - 1;
    if j < n {
      assert ps[..n][j] == ps[j];
      GlobAllHas(repoDir, walk, ps[..n], j, f);
    }
  }

  /** The `for pattern in patterns: test_files.extend(glob(...))` loop. */
  method CollectTests(repoDir: string, walk: seq<WalkEntry>, stack: Stack) returns (found: seq<string>)
    ensures found == GlobAll(repoDir, walk, Patterns(stack))
  {
    var patterns := Patterns(stack);
    found := [];
    for j := 0 to |patterns|
      invariant found == GlobAll(repoDir, walk, patterns[..j])
    {
      assert patterns[..j + 1][..j] == patterns[..j];
      found := found + Glob(repoDir, walk, patterns[j]);
    }
    assert patterns[..|patterns|] == patterns;
  }

  /** The comprehension's filter. */
  predicate Kept(f: string) {
    !Contains(f, "node_modules") && !Contains(f, "__pycache__")
  }

  function KeepPaths(fs: seq<string>): (r: seq<string>)
    ensures forall f :: f in r <==> f in fs && Kept(f)
    decreases |fs|
  {
    if fs == [] then []
    else
      var rest := KeepPaths(fs[..|fs| - 1]);
      var last := fs[|fs| - 1];
      assert fs == fs[..|fs| - 1] + [last];
      if Kept(last) then rest + [last] else rest
  }

  predicate NoDuplicates(fs: seq<string>) {
    forall i, j :: 0 <= i < j < |fs| ==> fs[i] != fs[j]
  }

  /** `list(set(fs))`: each path once. Python's set gives no order; this keeps
      the first occurrences in order. */
  function Dedup(fs: seq<string>): (r: seq<string>)
    ensures NoDuplicates(r)
    ensures forall f :: f in r <==> f in fs
    decreases |fs|
  {
    if fs == [] then []
    else
      var rest := Dedup(fs[..|fs| - 1]);
      var last := fs[|fs| - 1];
      assert fs == fs[..|fs| - 1] + [last];
      if last in rest then rest else rest + [last]
  }

  /** The final `test_files` of a cloned repository. */
  function TestFiles(repoDir: string, walk: seq<WalkEntry>, stack: Stack): (r: seq<string>)
    ensures NoDuplicates(r)
    ensures forall f :: f in r ==> Kept(f)
    ensures forall f :: f in r <==> f in GlobAll(repoDir, walk, Patterns(stack)) && Kept(f)
  {
    Dedup(KeepPaths(GlobAll(repoDir, walk, Patterns(stack))))
  }

  /** Every test file is a visible file of the clone matching one of the
      stack's patterns; an UNKNOWN stack has none. */
  lemma TestFileMatchesStack(repoDir: string, walk: seq<WalkEntry>, stack: Stack, f: string)
    returns (p: Pattern, i: nat, k: nat)
    requires f in TestFiles(repoDir, walk, stack)
    ensures stack != Unknown && p in Patterns(stack)
    ensures i < |walk| && k < |walk[i].files| && Visible(walk[i].dir) && Matches(p, walk[i].files[k])
    ensures f == FullPath(repoDir, walk[i].dir, walk[i].files[k])
  {
    var ps := Patterns(stack);
    var j := GlobAllWitness(repoDir, walk, ps, f);
    p := ps[j];
    i, k := GlobWitness(repoDir, walk, p, f);
  }

  /** Conversely a visible, kept Python test file of a Python repository is found. */
  lemma PythonTestFound(repoDir: string, walk: seq<WalkEntry>, i: nat, k: nat)
    requires i < |walk| && k < |walk[i].files| && Visible(walk[i].dir)
    requires Matches(TestPrefixPy, walk[i].files[k]) || Matches(TestSuffixPy, walk[i].files[k])
    requires Kept(FullPath(repoDir, walk[i].dir, walk[i].files[k]))
    ensures FullPath(repoDir, walk[i].dir, walk[i].files[k]) in TestFiles(repoDir, walk, Python)
  {
    var ps := Patterns(Python);
    var f := FullPath(repoDir, walk[i].dir, walk[i].files[k]);
    var j := if Matches(TestPrefixPy, walk[i].files[k]) then 0 else 1;
    GlobFinds(repoDir, walk, ps[j], i, k);
    GlobAllHas(repoDir, walk, ps, j, f);
  }

  /** What a clone produced: failure, or the tree of the cloned repository. */
  datatype CloneOutcome = CloneFailed | Cloned(walk: seq<WalkEntry>)

  /** The stack of a cloned tree, from the four `_find_file` calls and the
      recursive `*.py` glob. */
  function StackOf(repoDir: string, walk: seq<WalkEntry>): Stack
    requires repoDir != []
  {
    DetectStack(FindsFile(repoDir, walk, "requirements.txt"), FindsFile(repoDir, walk, "pyproject.toml"),
      FindsFile(repoDir, walk, "setup.py"), Glob(repoDir, walk, AnyPy) != [],
      FindsFile(repoDir, walk, "package.json"))
  }

  /** The state `discovery_node` leaves behind. */
  function DiscoveryEffect(v: StateView, workDir: string, clone: CloneOutcome): (w: StateView)
  {
    var repoDir := RepoDir(workDir, v.teamName, v.repoUrl);
    match clone
    case CloneFailed =>
      v.(repoPath := repoDir, detectedStack := Unknown, testFiles := [], currentStep := DiscoveryFailed)
    case Cloned(walk) =>
      var stack := StackOf(repoDir, walk);
      v.(repoPath := repoDir, detectedStack := stack, testFiles := TestFiles(repoDir, walk, stack),
         currentStep := DiscoveryComplete)
  }

  /** The outcome of discovery on either clone result. A failed clone
      records the directory, UNKNOWN, no tests and DISCOVERY_FAILED; a
      successful one records the detected stack and its test files and always
      ends with DISCOVERY_COMPLETE, with zero tests too. Either way the test
      files hold no duplicate and no node_modules or __pycache__ path. */
  lemma DiscoveryEffectCases(v: StateView, workDir: string, clone: CloneOutcome)
    ensures var w := DiscoveryEffect(v, workDir, clone);
      && w.repoPath == RepoDir(workDir, v.teamName, v.repoUrl)
      && (w.currentStep == DiscoveryFailed <==> clone.CloneFailed?)
      && (clone.CloneFailed? ==> w.detectedStack == Unknown && w.testFiles == [])
      && (clone.Cloned? ==>
            w.currentStep == DiscoveryComplete
            && w.detectedStack == StackOf(w.repoPath, clone.walk)
            && w.testFiles == TestFiles(w.repoPath, clone.walk, w.detectedStack))
      && NoDuplicates(w.testFiles)
      && (forall f :: f in w.testFiles ==> Kept(f))
  {
  }

  /** Discovery writes `repo_path`, `detected_stack`, `test_files` and
      `current_step`, and nothing else. */
  lemma DiscoveryWritesFourFields(v: StateView, workDir: string, clone: CloneOutcome)
    ensures var w := DiscoveryEffect(v, workDir, clone);
      w == v.(repoPath := w.repoPath, detectedStack := w.detectedStack,
              testFiles := w.testFiles, currentStep := w.currentStep)
  {
  }

  /** Only a failed clone routes past the tester; a successful clone goes on
      to the tester whatever it found, zero tests included. */
  lemma DiscoveryRoute(v: StateView, workDir: string, clone: CloneOutcome)
    ensures Graph.Next(Graph.Discovery, DiscoveryEffect(v, workDir, clone))
              == (if clone.CloneFailed? then Graph.Scoring else Graph.Tester)
  {
  }

  /** Stack detection and test collection on a cloned tree. */
  method Inspect(repoDir: string, walk: seq<WalkEntry>) returns (stack: Stack, tests: seq<string>)
    requires repoDir != []
    ensures stack == StackOf(repoDir, walk)
    ensures tests == TestFiles(repoDir, walk, stack)
  {
    var hasRequirements := FindFile(repoDir, walk, "requirements.txt");
    var hasPyproject := FindFile(repoDir, walk, "pyproject.toml");
    var hasSetupPy := FindFile(repoDir, walk, "setup.py");
    var hasPyFiles := Glob(repoDir, walk, AnyPy) != [];
    var hasPackageJson := FindFile(repoDir, walk, "package.json");
    stack := DetectStack(hasRequirements, hasPyproject, hasSetupPy, hasPyFiles, hasPackageJson);
    var found := CollectTests(repoDir, walk, stack);
    tests := Dedup(KeepPaths(found));
  }

  /** The four fields `discovery_node` writes, computed step by step. */
  method Discover(v: StateView, workDir: string, clone: CloneOutcome)
    returns (repoDir: string, stack: Stack, tests: seq<string>, step: Step)
    ensures DiscoveryEffect(v, workDir, clone)
              == v.(repoPath := repoDir, detectedStack := stack, testFiles := tests, currentStep := step)
  {
    repoDir := RepoDir(workDir, v.teamName, v.repoUrl);
    if clone.CloneFailed? {
      return repoDir, Unknown, [], DiscoveryFailed;
    }
    stack, tests := Inspect(repoDir, clone.walk);
    step := DiscoveryComplete;
  }

  /** The four writes of `discovery_node` to the state. */
  method Write(st: AgentState, repoDir: string, stack: Stack, tests: seq<string>, step: Step)
    modifies st
    ensures st.View() == old(st.View()).(repoPath := repoDir, detectedStack := stack, testFiles := tests,
                                          currentStep := step)
  {
    st.repoPath := repoDir;
    st.detectedStack := stack;
    st.testFiles := tests;
    st.currentStep := step;
  }

  /** `discovery_node`: updates the state in place as `DiscoveryEffect` says. */
  method DiscoveryNode(st: AgentState, workDir: string, clone: CloneOutcome)
    modifies st
    ensures st.View() == DiscoveryEffect(old(st.View()), workDir, clone)
  {
    var repoDir, stack, tests, step := Discover(st.View(), workDir, clone);
    Write(st, repoDir, stack, tests, step);
  }
}
