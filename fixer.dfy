/** The fixer node of backend/nodes/fixer.py: it turns the analysed file name
    into a repository path, asks the model for the fixed file (an input here),
    strips a markdown fence from the answer, writes it and records the fix. */
module Fixer {
  import opened Wrappers
  import opened Text
  import opened Json
  import opened State
  import GitNode

  /** The container mount prefixes, in the order they are tried. */
  const MOUNT_PREFIXES: seq<string> := ["/app/", "/app", "app/"]

  /** The path with the first matching mount prefix removed (at most one). */
  function StripMountPrefix(p: string): (r: string)
    ensures StartsWith(p, "/app/") ==> r == p[5..]
    ensures !StartsWith(p, "/app/") && StartsWith(p, "/app") ==> r == p[4..]
    ensures !StartsWith(p, "/app") && StartsWith(p, "app/") ==> r == p[4..]
    ensures !StartsWith(p, "/app") && !StartsWith(p, "app/") ==> r == p
  {
    if StartsWith(p, "/app/") then p[5..]
    else if StartsWith(p, "/app") then p[4..]
    else if StartsWith(p, "app/") then p[4..]
    else p
  }

  /** The relative path the fixer works on: one mount prefix removed, then
      every leading '/'. */
  function NormalizedPath(p: string): (r: string)
    ensures r == [] || r[0] != '/'
    ensures EndsWith(p, r)
  {
    LStrip(StripMountPrefix(p), '/')
  }

  /** The prefix loop of `fixer_node`, with its `break`, and the `lstrip`. */
  method NormalizePath(p: string) returns (r: string)
    ensures r == NormalizedPath(p)
  {
    assert MOUNT_PREFIXES[0] == "/app/" && MOUNT_PREFIXES[1] == "/app" && MOUNT_PREFIXES[2] == "app/";
    r := p;
    var i := 0;
    while i < |MOUNT_PREFIXES|
      invariant 0 <= i <= |MOUNT_PREFIXES|
      invariant r == p
      invariant forall k :: 0 <= k < i ==> !StartsWith(p, MOUNT_PREFIXES[k])
      decreases |MOUNT_PREFIXES| - i
    {
      var prefix := MOUNT_PREFIXES[i];
      if StartsWith(r, prefix) {
        r := r[|prefix|..];
        break;
      }
      i := i + 1;
    }
    assert i < |MOUNT_PREFIXES| ==> r == p[|MOUNT_PREFIXES[i]|..] && StartsWith(p, MOUNT_PREFIXES[i]);
    r := LStrip(r, '/');
  }

  /** The prefix test is textual: "/apple.py" loses its "/app". */
  lemma NormalizedPathTextualPrefix(p: string)
    requires p == "/apple.py"
    ensures NormalizedPath(p) == "le.py"
  {
    assert p[..4] == "/app" && p[4] == 'l';
    assert StartsWith(p, "/app") && !StartsWith(p, "/app/");
    assert p[4..] == "le.py";
  }

  /** A path inside the container's mount loses the mount point. */
  lemma NormalizedPathDropsMount(rel: string)
    requires rel == [] || rel[0] != '/'
    ensures NormalizedPath("/app/" + rel) == rel
  {
    assert ("/app/" + rel)[5..] == rel;
  }

  /** `os.path.relpath(m, repo)` for a path below `repo`, with '\' made '/'. */
  function RelativeTo(m: string, repo: string): string {
    var base := if repo != [] && repo[|repo| - 1] == '/' then repo else repo + "/";
    MapChar(if StartsWith(m, base) then m[|base|..] else m, '\\', '/')
  }

  /** The glob matches the basename fallback may use: none whose full path
      contains "__pycache__" or ".git". */
  function UsableMatches(matches: seq<string>): (r: seq<string>)
    ensures forall k :: 0 <= k < |r| ==> !Contains(r[k], "__pycache__") && !Contains(r[k], ".git")
    ensures forall m :: m in r ==> m in matches
    decreases |matches|
  {
    if matches == [] then []
    else
      var rest := UsableMatches(matches[1..]);
      if !Contains(matches[0], "__pycache__") && !Contains(matches[0], ".git") then [matches[0]] + rest else rest
  }

  /** The file the fix goes to, as (full path, relative path): the joined path
      when it exists, else the first usable glob match for its basename, else
      none. `globMatches` is what `glob` returns for that basename. */
  function ResolveFile(repo: string, rel: string, pathExists: bool, globMatches: seq<string>):
    (r: Option<(string, string)>)
    ensures pathExists ==> r == Some((JoinPath(repo, rel), rel))
    ensures !pathExists && r.Some? ==>
      r.value.0 in globMatches && !Contains(r.value.0, "__pycache__") && !Contains(r.value.0, ".git")
    ensures !pathExists ==> (r.None? <==> UsableMatches(globMatches) == [])
  {
    if pathExists then Some((JoinPath(repo, rel), rel))
    else
      var usable := UsableMatches(globMatches);
      if usable != [] then Some((usable[0], RelativeTo(usable[0], repo))) else None
  }

  /** The fallback takes the first usable match, skipping unusable ones before it. */
  lemma {:induction false} FirstUsableMatch(matches: seq<string>, i: nat)
    requires i < |matches| && !Contains(matches[i], "__pycache__") && !Contains(matches[i], ".git")
    requires forall k :: 0 <= k < i ==> Contains(matches[k], "__pycache__") || Contains(matches[k], ".git")
    ensures UsableMatches(matches) != [] && UsableMatches(matches)[0] == matches[i]
    decreases i
  {
    if i > 0 {
      FirstUsableMatch(matches[1..], i - 1);
    }
  }

  /** The fence stripping of the model's answer. Text not starting with
      three backticks is kept verbatim; otherwise the first line goes, and the
      last goes when it starts with three backticks. A lone fence line leaves
      no lines, and `lines[-1]` raises: None. */
  function StripFences(text: string): (r: Option<string>)
    ensures !StartsWith(text, "```") ==> r == Some(text)
    ensures StartsWith(text, "```") ==>
      var lines := SplitLines(text);
      (r.None? <==> |lines| == 1)
      && (r.Some? ==>
            var body := lines[1..];
            r.value == Join(if StartsWith(body[|body| - 1], "```") then body[..|body| - 1] else body, "\n"))
  {
    if !StartsWith(text, "```") then Some(text)
    else
      var lines := SplitLines(text);
      FirstLineKeepsPrefix(text, "```");
      var rest := if StartsWith(lines[0], "```") then lines[1..] else lines;
      if rest == [] then None
      else
        var kept := if StartsWith(rest[|rest| - 1], "```") then rest[..|rest| - 1] else rest;
        Some(Join(kept, "\n"))
  }

  /** A fenced answer loses its opening and closing fence and keeps the code. */
  lemma StripFencesFenced(text: string, code: seq<string>)
    requires StartsWith(text, "```") && SplitLines(text) == ["```python"] + code + ["```"]
    ensures StripFences(text) == Some(Join(code, "\n"))
  {
    var lines := SplitLines(text);
    var body := lines[1..];
    assert |lines| == |code| + 2;
    assert body == code + ["```"];
    assert body[|body| - 1] == "```";
    assert StartsWith(body[|body| - 1], "```");
    assert body[..|body| - 1] == code;
  }

  /** What the model answered to the fix prompt. */
  datatype FixReply = FixRaised | FixText(text: string)

  /** The `file` of the analysis; "" when missing or not a string. */
  function AnalysisFile(analysis: Json): string {
    match Get(analysis, "file")
    case Some(JStr(s)) => s
    case _ => ""
  }

  /** `analysis.get(key)`: None (JNull) when missing. */
  function Field(analysis: Json, key: string): Json {
    Get(analysis, key).GetOr(JNull)
  }

  /** The `FixDetail` recorded for a fix of `path`. */
  function FixEntry(analysis: Json, path: string): (f: FixDetail)
    ensures f.path == path && f.bugType == Field(analysis, "bug_type") && f.line == Field(analysis, "line")
    ensures f.commitMessage == Some("[AI-AGENT] Fixed " + Render(Field(analysis, "bug_type")) + " in " + path)
  {
    var bt := Field(analysis, "bug_type");
    var line := Field(analysis, "line");
    FixDetail(path, bt, line,
      "Fixed " + Render(bt) + " error at line " + Render(line),
      Some("[AI-AGENT] Fixed " + Render(bt) + " in " + path))
  }

  /** The fixer's commit message already carries the prefix git_node checks,
      so git_node commits it unchanged. */
  lemma FixerCommitMessageKept(fixes: seq<FixDetail>, analysis: Json, path: string)
    ensures GitNode.CommitMessage(fixes + [FixEntry(analysis, path)]) == FixEntry(analysis, path).commitMessage.value
  {
    var f := FixEntry(analysis, path);
    var all := fixes + [f];
    assert all[|all| - 1] == f;
    FixMessagePrefixed(Render(Field(analysis, "bug_type")), path);
  }

  lemma FixMessagePrefixed(bugType: string, path: string)
    ensures StartsWith("[AI-AGENT] Fixed " + bugType + " in " + path, GitNode.COMMIT_PREFIX)
  {
    var rest := " in " + path;
    assert "[AI-AGENT] Fixed " + bugType + " in " + path == "[AI-AGENT] Fixed " + (bugType + rest);
    assert "[AI-AGENT] Fixed "[..|GitNode.COMMIT_PREFIX|] == GitNode.COMMIT_PREFIX;
    assert ("[AI-AGENT] Fixed " + (bugType + rest))[..|GitNode.COMMIT_PREFIX|] == GitNode.COMMIT_PREFIX;
  }

  /** The outcomes the fixer depends on: whether the key is set, whether the
      joined path exists, the glob matches of the fallback, the model's answer
      and whether writing succeeds. */
  datatype FixInputs = FixInputs(apiKeyPresent: bool, pathExists: bool, globMatches: seq<string>,
                                 reply: FixReply, writeOk: bool)

  /** The file the fixer writes and what it writes there. */
  datatype Written = Written(fullPath: string, content: string)

  /** The file and content the fixer writes, if it gets that far. */
  function FixWrite(v: StateView, x: FixInputs): Option<(string, string, string)> {
    var analysis := v.currentAnalysis;
    if !Truthy(analysis) || !x.apiKeyPresent || AnalysisFile(analysis) == "" then None
    else
      match ResolveFile(v.repoPath, NormalizedPath(AnalysisFile(analysis)), x.pathExists, x.globMatches)
      case None => None
      case Some((full, rel)) =>
        match x.reply
        case FixRaised => None
        case FixText(text) =>
          match StripFences(text)
          case None => None
          case Some(code) => Some((full, rel, code))
  }

  /** The state `fixer_node` leaves: exactly one entry appended to
      `fixes_applied` and FIX_APPLIED when the fix is written, else untouched. */
  function FixerEffect(v: StateView, x: FixInputs): (w: StateView)
    ensures w.(fixesApplied := v.fixesApplied, currentStep := v.currentStep) == v
    ensures |w.fixesApplied| == |v.fixesApplied| + (if FixWrite(v, x).Some? && x.writeOk then 1 else 0)
    ensures w.fixesApplied[..|v.fixesApplied|] == v.fixesApplied
    ensures |w.fixesApplied| > |v.fixesApplied| ==>
      w.currentStep == FixApplied && w.fixesApplied[|v.fixesApplied|] == FixEntry(v.currentAnalysis, FixWrite(v, x).value.1)
    ensures |w.fixesApplied| == |v.fixesApplied| ==> w == v
  {
    match FixWrite(v, x)
    case Some((full, rel, code)) =>
      if x.writeOk then
        v.(fixesApplied := v.fixesApplied + [FixEntry(v.currentAnalysis, rel)], currentStep := FixApplied)
      else v
    case None => v
  }

  /** Python's name for the type of a parsed JSON value. */
  function PyTypeName(j: Json): string {
    match j
    case JNull => "NoneType"
    case JBool(_) => "bool"
    case JInt(_) => "int"
    case JStr(_) => "str"
    case JArray(_) => "list"
    case JObject(_) => "dict"
  }

  /** The text of the `AttributeError` raised by calling `name` on `j`. */
  function NoAttribute(j: Json, name: string): string {
    "'" + PyTypeName(j) + "' object has no attribute '" + name + "'"
  }

  /** `analysis.get('file', '')` of a dictionary analysis. */
  function FileField(analysis: Json): Json {
    Get(analysis, "file").GetOr(JStr(""))
  }

  /** The exception `fixer_node` raises outside its `try`, if any: after the
      two early returns, `analysis.get` on an analysis that is not a
      dictionary, or `startswith` on a `file` that is truthy but not a
      string. Such an exception leaves the node before anything is written. */
  function FixerError(v: StateView, x: FixInputs): (e: Option<string>)
    ensures e.Some? ==> Truthy(v.currentAnalysis) && x.apiKeyPresent && FixWrite(v, x).None?
  {
    var analysis := v.currentAnalysis;
    if !Truthy(analysis) || !x.apiKeyPresent then None
    else if !analysis.JObject? then Some(NoAttribute(analysis, "get"))
    else if Truthy(FileField(analysis)) && !FileField(analysis).JStr? then Some(NoAttribute(FileField(analysis), "startswith"))
    else None
  }

  /** A dictionary analysis whose `file` is missing or a string never raises. */
  lemma WellFormedAnalysisNoRaise(v: StateView, x: FixInputs)
    requires v.currentAnalysis.JObject?
    requires "file" in v.currentAnalysis.fields ==> v.currentAnalysis.fields["file"].JStr?
    ensures FixerError(v, x).None?
  {
  }

  /** Without a key, or with a truthy analysis that is not a dictionary, there
      is nothing to write; the latter raises, the former does not. */
  lemma MalformedAnalysisRaises(v: StateView, x: FixInputs)
    requires Truthy(v.currentAnalysis) && !v.currentAnalysis.JObject?
    ensures FixerError(v, x).Some? <==> x.apiKeyPresent
    ensures FixerError(v, x).Some? ==> FixerError(v, x).value == NoAttribute(v.currentAnalysis, "get")
    ensures FixerEffect(v, x) == v
  {
  }

  /** A dictionary analysis whose truthy `file` is not a string raises on
      `startswith`, when a key is set, and changes nothing. */
  lemma NonStringFileRaises(v: StateView, x: FixInputs)
    requires v.currentAnalysis.JObject? && "file" in v.currentAnalysis.fields
    requires Truthy(v.currentAnalysis.fields["file"]) && !v.currentAnalysis.fields["file"].JStr?
    ensures FixerError(v, x).Some? <==> x.apiKeyPresent
    ensures FixerError(v, x).Some? ==> FixerError(v, x).value == NoAttribute(v.currentAnalysis.fields["file"], "startswith")
    ensures FixerEffect(v, x) == v
  {
    assert v.currentAnalysis.fields != map[] by {
      assert "file" in v.currentAnalysis.fields.Keys;
    }
  }

  /** With a key, an existing target file and an answer without a fence, the
      fixer writes the answer to the file the analysis names and records one
      fix of it with the analysis's bug type. */
  lemma FixRecorded(v: StateView, x: FixInputs, file: string, text: string)
    requires v.currentAnalysis.JObject? && "file" in v.currentAnalysis.fields
    requires v.currentAnalysis.fields["file"] == JStr(file) && file != ""
    requires x.apiKeyPresent && x.pathExists && x.reply == FixText(text) && !StartsWith(text, "```") && x.writeOk
    ensures FixerError(v, x).None?
    ensures var rel := NormalizedPath(file);
      FixWrite(v, x) == Some((JoinPath(v.repoPath, rel), rel, text))
    ensures var w := FixerEffect(v, x);
      |w.fixesApplied| == |v.fixesApplied| + 1
      && w.fixesApplied[|v.fixesApplied|].path == NormalizedPath(file)
      && w.fixesApplied[|v.fixesApplied|].bugType == Field(v.currentAnalysis, "bug_type")
  {
    FixPlanned(v, x, file, text);
  }

  /** The write `FixRecorded` describes, before it is recorded. */
  lemma FixPlanned(v: StateView, x: FixInputs, file: string, text: string)
    requires v.currentAnalysis.JObject? && "file" in v.currentAnalysis.fields
    requires v.currentAnalysis.fields["file"] == JStr(file) && file != ""
    requires x.apiKeyPresent && x.pathExists && x.reply == FixText(text) && !StartsWith(text, "```")
    ensures FixerError(v, x).None?
    ensures var rel := NormalizedPath(file);
      FixWrite(v, x) == Some((JoinPath(v.repoPath, rel), rel, text))
  {
    assert v.currentAnalysis.fields != map[] by {
      assert "file" in v.currentAnalysis.fields.Keys;
    }
    assert AnalysisFile(v.currentAnalysis) == file;
  }

  /** A missing or empty analysis, or one without a file, changes nothing; an
      empty analysis raises nothing either. */
  lemma NoAnalysisNoFix(v: StateView, x: FixInputs)
    requires !Truthy(v.currentAnalysis) || AnalysisFile(v.currentAnalysis) == ""
    ensures FixerEffect(v, x) == v
    ensures !Truthy(v.currentAnalysis) ==> FixerError(v, x).None?
  {
  }

  /** The steps of `fixer_node` up to the write: the early returns, the
      attribute errors outside the `try`, the path normalisation and fallback,
      and the fence stripping. */
  method PlanFix(v: StateView, x: FixInputs) returns (plan: Option<(string, string, string)>, error: Option<string>)
    ensures plan == FixWrite(v, x)
    ensures error == FixerError(v, x)
  {
    error := None;
    var analysis := v.currentAnalysis;
    if !Truthy(analysis) {
      return None, None;
    }
    if !x.apiKeyPresent {
      return None, None;
    }
    if !analysis.JObject? {
      return None, Some(NoAttribute(analysis, "get"));
    }
    var file := FileField(analysis);
    if !Truthy(file) {
      return None, None;
    }
    if !file.JStr? {
      return None, Some(NoAttribute(file, "startswith"));
    }
    var fileRelativePath := file.s;
    assert fileRelativePath == AnalysisFile(analysis) != "";
    fileRelativePath := NormalizePath(fileRelativePath);
    var resolved := ResolveFile(v.repoPath, fileRelativePath, x.pathExists, x.globMatches);
    if resolved.None? {
      return None, None;
    }
    var (full, rel) := resolved.value;
    match x.reply {
      case FixRaised =>
        return None, None;
      case FixText(text) =>
        var code := StripFences(text);
        if code.None? {
          return None, None;
        }
        plan := Some((full, rel, code.value));
    }
  }

  /** `fixer_node`: writes the planned file and appends its `FixDetail`, or
      raises (`error`) without touching the state. A failed write
      (`writeOk` false) is caught by the `except`: nothing is written or
      recorded. */
  method FixerNode(st: AgentState, x: FixInputs) returns (written: Option<Written>, error: Option<string>)
    modifies st
    ensures st.View() == FixerEffect(old(st.View()), x)
    ensures error == FixerError(old(st.View()), x)
    ensures error.Some? ==> st.View() == old(st.View()) && written.None?
    ensures written.Some? <==> FixWrite(old(st.View()), x).Some? && x.writeOk
    ensures written.Some? ==>
      written.value == Written(FixWrite(old(st.View()), x).value.0, FixWrite(old(st.View()), x).value.2)
  {
    var plan;
    plan, error := PlanFix(st.View(), x);
    if plan.None? {
      return None, error;
    }
    var (full, rel, code) := plan.value;
    written := None;
    if x.writeOk {
      written := Some(Written(full, code));
      st.fixesApplied := st.fixesApplied + [FixEntry(st.currentAnalysis, rel)];
      st.currentStep := FixApplied;
    }
  }
}
