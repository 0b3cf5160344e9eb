/** The debugger node of backend/nodes/debugger.py: it cuts the failure
    section out of the test log, collects the numbered source files the model
    may look at, and stores the analysis the model answers (an input here). */
module Debugger {
  import opened Wrappers
  import opened Text
  import opened Json
  import opened State
  import opened FileTree

  /** The lines at which capture starts: a pytest FAILURES header or the
      short test summary. */
  predicate IsHeader(line: string) {
    StartsWith(line, "FAILURES") || StartsWith(line, "====== FAILURES") || Contains(line, "_ FAILURES _")
    || StartsWith(line, "===== short test summary") || Contains(line, "short test summary info")
  }

  /** Index of the first header line, or `|lines|`. */
  function FirstHeader(lines: seq<string>): (i: nat)
    ensures i <= |lines| && (i < |lines| ==> IsHeader(lines[i]))
    ensures forall j :: 0 <= j < i ==> !IsHeader(lines[j])
    decreases |lines|
  {
    if lines == [] then 0
    else if IsHeader(lines[0]) then 0
    else 1 + FirstHeader(lines[1..])
  }

  /** Scanning on from a line no later than the first header, that line is
      the first header exactly when it is a header. */
  lemma FirstHeaderAt(lines: seq<string>, i: nat)
    requires i < |lines| && i <= FirstHeader(lines)
    ensures FirstHeader(lines) == i <==> IsHeader(lines[i])
  {
  }

  /** What the scan captured: the lines from the first header, or nothing. */
  lemma CapturedSection(lines: seq<string>, result: seq<string>)
    requires result == if FirstHeader(lines) < |lines| then lines[FirstHeader(lines)..] else []
    ensures result != [] ==> result == FailureLines(lines)
    ensures result == [] ==> FirstHeader(lines) == |lines|
  {
  }

  /** How many trailing lines are kept when there is no header. */
  const FALLBACK_LINES: nat := 80

  /** The lines `_extract_failures_section` keeps: from the first header to the
      end, or the last 80 lines when there is no header. Either way a
      contiguous suffix of the log's lines. */
  function FailureLines(lines: seq<string>): (r: seq<string>)
    ensures |r| <= |lines| && r == lines[|lines| - |r|..]
    ensures FirstHeader(lines) < |lines| ==> r == lines[FirstHeader(lines)..] && IsHeader(r[0])
    ensures FirstHeader(lines) == |lines| ==>
      |r| == (if |lines| < FALLBACK_LINES then |lines| else FALLBACK_LINES)
  {
    var h := FirstHeader(lines);
    if h < |lines| then lines[h..]
    else if |lines| > FALLBACK_LINES then lines[|lines| - FALLBACK_LINES..]
    else lines
  }

  /** Capture never stops once started: every line after a header is kept. */
  lemma CaptureNeverStops(lines: seq<string>, i: nat, j: nat)
    requires i <= j < |lines| && IsHeader(lines[i])
    ensures lines[j] in FailureLines(lines)
  {
    var h := FirstHeader(lines);
    assert h <= i;
    var f := FailureLines(lines);
    assert f == lines[h..];
    assert f[j - h] == lines[j];
  }

  /** The two tests of the scan that switch capture on. */
  method HeaderTest(line: string) returns (on: bool)
    ensures on == IsHeader(line)
  {
    on := false;
    if StartsWith(line, "FAILURES") || StartsWith(line, "====== FAILURES") || Contains(line, "_ FAILURES _") {
      on := true;
    }
    if StartsWith(line, "===== short test summary") || Contains(line, "short test summary info") {
      on := true;
    }
  }

  /** `_extract_failures_section`: a line scan that switches capture on at the
      first header, falling back to the last 80 lines. */
  method ExtractFailuresSection(logs: string) returns (r: string)
    ensures r == Join(FailureLines(SplitLines(logs)), "\n")
  {
    var lines := SplitLines(logs);
    var result := CaptureSection(lines);
    CapturedSection(lines, result);
    if result != [] {
      r := Join(result, "\n");
      return;
    }
    var start := if |lines| > FALLBACK_LINES then |lines| - FALLBACK_LINES else 0;
    FallbackSection(lines, start);
    r := Join(lines[start..], "\n");
  }

  /** Without a header the last 80 lines, or all of them, are kept. */
  lemma FallbackSection(lines: seq<string>, start: nat)
    requires FirstHeader(lines) == |lines|
    requires start == if |lines| > FALLBACK_LINES then |lines| - FALLBACK_LINES else 0
    ensures FailureLines(lines) == lines[start..]
  {
  }

  /** The scan of `_extract_failures_section`: capture switches on at a header
      line and stays on, so it keeps the lines from the first header on. */
  method CaptureSection(lines: seq<string>) returns (result: seq<string>)
    ensures result == if FirstHeader(lines) < |lines| then lines[FirstHeader(lines)..] else []
  {
    ghost var h := FirstHeader(lines);
    var inSection := false;
    result := [];
    for i := 0 to |lines|
      invariant inSection <==> h < i
      invariant result == if inSection then lines[h..i] else []
    {
      var line := lines[i];
      ghost var before := inSection;
      var header := HeaderTest(line);
      if header {
        inSection := true;
      }
      if !before {
        FirstHeaderAt(lines, i);
      }
      if inSection {
        if before {
          assert lines[h..i + 1] == lines[h..i] + [line];
        } else {
          assert h == i && lines[h..i + 1] == [line];
        }
        result := result + [line];
      }
    }
  }

  /** The directories the walk does not descend into. */
  const SKIPPED_DIRS: seq<string> := ["__pycache__", ".git", "node_modules", "venv", ".pytest_cache"]

  /** A directory the pruned walk visits: none of its components is skipped. */
  predicate Visited(dir: seq<string>) {
    forall k :: 0 <= k < |dir| ==> dir[k] !in SKIPPED_DIRS
  }

  /** The configuration files shown to the model. */
  predicate ConfigFile(name: string) {
    name == "requirements.txt" || name == "package.json"
  }

  /** The source files shown to the model: Python, JavaScript or TypeScript,
      and not a test file. */
  predicate CodeFile(name: string) {
    (EndsWith(name, ".py") || EndsWith(name, ".js") || EndsWith(name, ".ts"))
    && !StartsWith(name, "test_") && !EndsWith(name, "_test.py")
  }

  /** A line with its 1-based number in front. */
  function NumberedLine(i: nat, line: string): string {
    NatToString(i + 1) + ": " + line
  }

  /** A configuration file: `splitlines`, numbered, joined with "\n". */
  function NumberConfig(text: string): string {
    var ls := SplitLines(text);
    Join(seq(|ls|, i requires 0 <= i < |ls| => NumberedLine(i, ls[i])), "\n")
  }

  /** A source file: `readlines` (each keeps its "\n"), numbered, concatenated. */
  function NumberCode(text: string): string {
    var ls := ReadLines(text);
    Concat(seq(|ls|, i requires 0 <= i < |ls| => NumberedLine(i, ls[i])))
  }

  /** One entry of the `source_files` dictionary, with where it came from. */
  datatype SourceFile = SourceFile(dir: seq<string>, name: string, numbered: string)

  /** The dictionary key: the relative path with '\' turned into '/'. */
  function Key(f: SourceFile): string {
    MapChar(RelPath(f.dir, f.name), '\\', '/')
  }

  /** The entry a file of a visited directory contributes: none when it is not
      shown or cannot be read (`contents` holds the readable files, by
      relative path). */
  function FileEntry(dir: seq<string>, name: string, contents: map<string, string>): (r: seq<SourceFile>)
    ensures |r| <= 1
    ensures r != [] ==> r[0].dir == dir && r[0].name == name
    ensures r != [] <==> (ConfigFile(name) || CodeFile(name)) && RelPath(dir, name) in contents
  {
    var path := RelPath(dir, name);
    if path !in contents then []
    else if ConfigFile(name) then [SourceFile(dir, name, NumberConfig(contents[path]))]
    else if CodeFile(name) then [SourceFile(dir, name, NumberCode(contents[path]))]
    else []
  }

  /** The entries of the first `n` files of a directory, in order. */
  function EntryFiles(dir: seq<string>, files: seq<string>, contents: map<string, string>): (r: seq<SourceFile>)
    ensures forall k :: 0 <= k < |r| ==> r[k].dir == dir && r[k].name in files
                                          && (ConfigFile(r[k].name) || CodeFile(r[k].name))
    decreases |files|
  {
    if files == [] then []
    else EntryFiles(dir, files[..|files| - 1], contents) + FileEntry(dir, files[|files| - 1], contents)
  }

  /** The `source_files` dictionary, in insertion order: the shown, readable
      files of the visited directories, in walk order. */
  function SourceFiles(walk: seq<WalkEntry>, contents: map<string, string>): (r: seq<SourceFile>)
    ensures forall k :: 0 <= k < |r| ==> Visited(r[k].dir) && (ConfigFile(r[k].name) || CodeFile(r[k].name))
    decreases |walk|
  {
    if walk == [] then []
    else
      var e := walk[|walk| - 1];
      SourceFiles(walk[..|walk| - 1], contents) + (if Visited(e.dir) then EntryFiles(e.dir, e.files, contents) else [])
  }

  /** No test file is ever shown to the model. */
  lemma NoTestFileShown(walk: seq<WalkEntry>, contents: map<string, string>, k: nat)
    requires k < |SourceFiles(walk, contents)|
    ensures !StartsWith(SourceFiles(walk, contents)[k].name, "test_")
    ensures !EndsWith(SourceFiles(walk, contents)[k].name, "_test.py")
  {
    var f := SourceFiles(walk, contents)[k];
    if f.name == "requirements.txt" {
      assert f.name[0] == 'r' && f.name[|f.name| - 1] == 't';
    } else if f.name == "package.json" {
      assert f.name[0] == 'p' && f.name[|f.name| - 1] == 'n';
    }
  }

  /** `source_files_context`: each file under a `--- FILE: ... ---` banner. */
  function SourceContext(files: seq<SourceFile>): string
    decreases |files|
  {
    if files == [] then ""
    else
      var f := files[|files| - 1];
      SourceContext(files[..|files| - 1]) + "\n--- FILE: " + Key(f) + " ---\n" + f.numbered + "\n"
  }

  /** The inner loop over the files of one visited directory. */
  method CollectDirectory(dir: seq<string>, files: seq<string>, contents: map<string, string>)
    returns (r: seq<SourceFile>)
    ensures r == EntryFiles(dir, files, contents)
  {
    r := [];
    for j := 0 to |files|
      invariant r == EntryFiles(dir, files[..j], contents)
    {
      assert files[..j + 1][..j] == files[..j];
      var f := files[j];
      var path := RelPath(dir, f);
      if path in contents {
        if ConfigFile(f) {
          r := r + [SourceFile(dir, f, NumberConfig(contents[path]))];
        } else if CodeFile(f) {
          r := r + [SourceFile(dir, f, NumberCode(contents[path]))];
        }
      }
    }
    assert files[..|files|] == files;
  }

  /** The walk loop of `debugger_node` that fills `source_files`. */
  method CollectSourceFiles(walk: seq<WalkEntry>, contents: map<string, string>) returns (r: seq<SourceFile>)
    ensures r == SourceFiles(walk, contents)
  {
    r := [];
    for i := 0 to |walk|
      invariant r == SourceFiles(walk[..i], contents)
    {
      var e := walk[i];
      assert walk[..i + 1][..i] == walk[..i];
      if Visited(e.dir) {
        var more := CollectDirectory(e.dir, e.files, contents);
        r := r + more;
      }
    }
    assert walk[..|walk|] == walk;
  }

  /** The loop that builds `source_files_context`. */
  method BuildContext(files: seq<SourceFile>) returns (ctx: string)
    ensures ctx == SourceContext(files)
  {
    ctx := "";
    for i := 0 to |files|
      invariant ctx == SourceContext(files[..i])
    {
      assert files[..i + 1][..i] == files[..i];
      ctx := ctx + "\n--- FILE: " + Key(files[i]) + " ---\n" + files[i].numbered + "\n";
    }
    assert files[..|files|] == files;
  }

  /** A list answer is reduced to its first element, or `{}` when empty;
      anything else is taken as it is. */
  function NormalizeAnalysis(j: Json): (a: Json)
    ensures !j.JArray? ==> a == j
    ensures j.JArray? && j.items != [] ==> a == j.items[0]
    ensures j.JArray? && j.items == [] ==> a == JObject(map[])
  {
    match j
    case JArray(items) => if items == [] then JObject(map[]) else items[0]
    case _ => j
  }

  /** The model's answer: it raised (API or JSON error), or parsed to a value. */
  datatype GeminiReply = Raised | Parsed(value: Json)

  /** What the node sends the model: the failure section and the source context. */
  datatype DebugRequest = DebugRequest(failures: string, sourceContext: string)

  /** The state `debugger_node` leaves: untouched for empty logs, a missing
      API key or a failed call; otherwise the analysis and DEBUG_COMPLETE. */
  function DebugEffect(v: StateView, apiKeyPresent: bool, reply: GeminiReply): (w: StateView)
    ensures v.errorLogs == "" || !apiKeyPresent || reply.Raised? ==> w == v
    ensures w.(currentAnalysis := v.currentAnalysis, currentStep := v.currentStep) == v
    ensures v.errorLogs != "" && apiKeyPresent && reply.Parsed? ==>
      w.currentAnalysis == NormalizeAnalysis(reply.value) && w.currentStep == DebugComplete
  {
    if v.errorLogs == "" || !apiKeyPresent then v
    else match reply
      case Raised => v
      case Parsed(j) => v.(currentAnalysis := NormalizeAnalysis(j), currentStep := DebugComplete)
  }

  /** The request `debugger_node` builds from the logs and the repository. */
  method BuildRequest(errorLogs: string, repoPath: string, repoExists: bool, walk: seq<WalkEntry>,
                      contents: map<string, string>) returns (req: DebugRequest)
    ensures req.failures == Join(FailureLines(SplitLines(errorLogs)), "\n")
    ensures req.sourceContext ==
      (if repoPath != "" && repoExists then SourceContext(SourceFiles(walk, contents)) else "")
  {
    var files: seq<SourceFile> := [];
    if repoPath != "" && repoExists {
      files := CollectSourceFiles(walk, contents);
    }
    var context := BuildContext(files);
    var failures := ExtractFailuresSection(errorLogs);
    req := DebugRequest(failures, context);
  }

  /** `debugger_node`. `repoExists` is `os.path.exists(repo_path)`. */
  method DebuggerNode(st: AgentState, apiKeyPresent: bool, repoExists: bool, walk: seq<WalkEntry>,
                      contents: map<string, string>, reply: GeminiReply) returns (req: Option<DebugRequest>)
    modifies st
    ensures st.View() == DebugEffect(old(st.View()), apiKeyPresent, reply)
    ensures req.Some? <==> old(st.errorLogs) != "" && apiKeyPresent
    ensures req.Some? ==>
      req.value.failures == Join(FailureLines(SplitLines(old(st.errorLogs))), "\n")
      && req.value.sourceContext ==
           (if old(st.repoPath) != "" && repoExists then SourceContext(SourceFiles(walk, contents)) else "")
  {
    var errorLogs := st.errorLogs;
    if errorLogs == "" {
      return None;
    }
    if !apiKeyPresent {
      return None;
    }
    var built := BuildRequest(errorLogs, st.repoPath, repoExists, walk, contents);
    req := Some(built);
    match reply {
      case Parsed(j) =>
        Write(st, NormalizeAnalysis(j));
      case Raised =>
    }
  }

  /** The two writes of `debugger_node` after a parsed reply. */
  method Write(st: AgentState, analysis: Json)
    modifies st
    ensures st.View() == old(st.View()).(currentAnalysis := analysis, currentStep := DebugComplete)
  {
    st.currentAnalysis := analysis;
    st.currentStep := DebugComplete;
  }
}
