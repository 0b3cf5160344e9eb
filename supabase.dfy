/** The run-logging client of backend/utils/supabase_manager.py: its
    enabled/run-id guards, and the word-overlap lookup of a previous fix.
    Database calls are inputs: the rows a query returned, or that it raised. */
module Supabase {
  import opened Wrappers
  import opened Text
  import opened Json

  /** The set of lowercased, whitespace-separated words of a description. */
  function Words(s: string): set<string> {
    set w | w in SplitWhitespace(Lower(s))
  }

  function MaxOne(n: nat): (m: nat)
    ensures m >= 1 && m >= n && (m == n || m == 1)
  {
    if n >= 1 then n else 1
  }

  /** The source's test `len(common) / max(len(curr_words), 1) > 0.5`. */
  predicate Similar(past: set<string>, curr: set<string>) {
    (|past * curr| as real) / (MaxOne(|curr|) as real) > 0.5
  }

  lemma ScaleStrict(a: real, b: real, m: real)
    requires m > 0.0
    ensures a > b <==> a * m > b * m
  {
    assert a * m - b * m == (a - b) * m;
  }

  lemma RatioIff(c: nat, m: nat)
    requires m >= 1
    ensures (c as real) / (m as real) > 0.5 <==> 2 * c > m
  {
    var q := (c as real) / (m as real);
    assert q * (m as real) == c as real;
    ScaleStrict(q, 0.5, m as real);
  }

  /** The ratio test is an integer comparison. */
  lemma SimilarIff(past: set<string>, curr: set<string>)
    ensures Similar(past, curr) <==> 2 * |past * curr| > MaxOne(|curr|)
  {
    RatioIff(|past * curr|, MaxOne(|curr|));
  }

  /** What one row does in the scan: it raises (`row.get`, `content.get` or
      `.lower()` on a value that has no such method), is skipped, or matches
      with its `content`. */
  datatype RowOutcome = RowRaised | Skip | Match(content: Json)

  /** `row.get('content', {})`. */
  function Content(row: Json): Json
    requires row.JObject?
  {
    Get(row, "content").GetOr(JObject(map[]))
  }

  /** One iteration of the loop over the rows. */
  function Row(row: Json, bugType: string, currWords: set<string>): (o: RowOutcome)
    ensures o.Match? ==>
              row.JObject? && o.content == Content(row) && Get(o.content, "bug_type") == Some(JStr(bugType))
    ensures o.Match? ==>
              exists d :: Get(o.content, "description").GetOr(JStr("")) == JStr(d) && Similar(Words(d), currWords)
    ensures Get(row, "content").Some? && Get(Content(row), "bug_type") != Some(JStr(bugType)) ==> !o.Match?
  {
    if !row.JObject? then RowRaised
    else
      var content := Content(row);
      if !content.JObject? then RowRaised
      else if Get(content, "bug_type") != Some(JStr(bugType)) then Skip
      else
        var past := Get(content, "description").GetOr(JStr(""));
        if !past.JStr? then RowRaised
        else if Similar(Words(past.s), currWords) then Match(content)
        else Skip
  }

  /** The outcome of the whole scan. */
  datatype ScanOutcome = ScanRaised | Miss | Hit(content: Json)

  /** The rows in order: the first one that raises or matches ends the scan. */
  function Scan(rows: seq<Json>, bugType: string, currWords: set<string>): ScanOutcome
    decreases |rows|
  {
    if rows == [] then Miss
    else
      match Row(rows[0], bugType, currWords)
      case RowRaised => ScanRaised
      case Match(content) => Hit(content)
      case Skip => Scan(rows[1..], bugType, currWords)
  }

  /** What the `node_logs` query returned. */
  datatype Query = QueryRaised | Rows(rows: seq<Json>)

  /** `get_previous_fix`: disabled, a failed query, an exception in the scan or
      no match all give None. */
  function PreviousFix(enabled: bool, query: Query, bugType: string, description: string): (r: Option<Json>)
    ensures !enabled || query.QueryRaised? ==> r.None?
  {
    if !enabled then None
    else match query
      case QueryRaised => None
      case Rows(rows) =>
        match Scan(rows, bugType, Words(description))
        case Hit(content) => Some(content)
        case _ => None
  }

  /** A hit is the content of the first row that does not skip, and that row
      matched; every row before it was skipped. */
  lemma {:induction false} HitIsFirstMatch(rows: seq<Json>, bugType: string, currWords: set<string>)
    returns (i: nat)
    requires Scan(rows, bugType, currWords).Hit?
    ensures i < |rows| && Row(rows[i], bugType, currWords) == Match(Scan(rows, bugType, currWords).content)
    ensures forall j :: 0 <= j < i ==> Row(rows[j], bugType, currWords) == Skip
    decreases |rows|
  {
    if Row(rows[0], bugType, currWords).Match? {
      i := 0;
    } else {
      var i' := HitIsFirstMatch(rows[1..], bugType, currWords);
      i := i' + 1;
      forall j | 0 <= j < i ensures Row(rows[j], bugType, currWords) == Skip {
        if j > 0 {
          assert rows[j] == rows[1..][j - 1];
        }
      }
    }
  }

  /** Conversely, a matching row after skipped rows is what the scan returns. */
  lemma {:induction false} FirstMatchIsHit(rows: seq<Json>, bugType: string, currWords: set<string>, i: nat)
    requires i < |rows| && Row(rows[i], bugType, currWords).Match?
    requires forall j :: 0 <= j < i ==> Row(rows[j], bugType, currWords) == Skip
    ensures Scan(rows, bugType, currWords) == Hit(Row(rows[i], bugType, currWords).content)
    decreases i
  {
    if i > 0 {
      assert Row(rows[0], bugType, currWords) == Skip;
      forall j | 0 <= j < i - 1 ensures Row(rows[1..][j], bugType, currWords) == Skip {
        assert rows[1..][j] == rows[j + 1];
      }
      FirstMatchIsHit(rows[1..], bugType, currWords, i - 1);
    }
  }

  /** Without words nothing is similar: the overlap is empty. */
  lemma NoWordsNoMatch(past: set<string>)
    ensures !Similar(past, {})
  {
    assert past * {} == {};
  }

  lemma {:induction false} ScanWithoutWords(rows: seq<Json>, bugType: string)
    ensures !Scan(rows, bugType, {}).Hit?
    decreases |rows|
  {
    if rows != [] {
      var o := Row(rows[0], bugType, {});
      if o.Match? {
        var d :| Get(o.content, "description").GetOr(JStr("")) == JStr(d) && Similar(Words(d), {});
        NoWordsNoMatch(Words(d));
      }
      ScanWithoutWords(rows[1..], bugType);
    }
  }

  /** A current description of only white space (the empty one included)
      never matches any row. */
  lemma BlankDescriptionNeverMatches(enabled: bool, query: Query, bugType: string, description: string)
    requires forall j :: 0 <= j < |description| ==> IsSpace(description[j])
    ensures PreviousFix(enabled, query, bugType, description) == None
  {
    var lower := Lower(description);
    assert forall j :: 0 <= j < |lower| ==> IsSpace(lower[j]);
    BlankHasNoWords(lower);
    assert Words(description) == {};
    if query.Rows? {
      ScanWithoutWords(query.rows, bugType);
    }
  }

  /** A row holding the query's own description under the same bug type
      matches, once the description has a word. */
  lemma SameDescriptionMatches(content: map<string, Json>, bugType: string, description: string)
    requires "bug_type" in content && content["bug_type"] == JStr(bugType)
    requires "description" in content && content["description"] == JStr(description)
    requires Words(description) != {}
    ensures Row(JObject(map["content" := JObject(content)]), bugType, Words(description)) == Match(JObject(content))
  {
    var w := Words(description);
    assert w * w == w;
    SimilarIff(w, w);
  }

  /** A row of the `node_logs` table. */
  datatype NodeLog = NodeLog(runId: string, node: string, logType: string, content: Json, createdAt: string)

  /** The update `finalize_run` sends for a run. */
  datatype RunUpdate = RunUpdate(runId: string, finalScore: int, duration: real, status: string)

  /** Python truthiness of an optional string (`run_id`, the URL, the key). */
  predicate NonEmpty(runId: Option<string>) {
    runId.Some? && runId.value != ""
  }

  /** The client object; `enabled` is fixed when the singleton is built. */
  class SupabaseManager {
    var enabled: bool

    /** `_init_client`: enabled exactly when both settings are present and non-empty. */
    constructor (url: Option<string>, key: Option<string>)
      ensures enabled <==> NonEmpty(url) && NonEmpty(key)
    {
      enabled := NonEmpty(url) && NonEmpty(key);
    }

    /** `get_previous_fix`, as the loop with `break` it is. */
    method GetPreviousFix(query: Query, bugType: string, description: string) returns (bestFix: Option<Json>)
      ensures bestFix == PreviousFix(enabled, query, bugType, description)
    {
      if !enabled {
        return None;
      }
      if query.QueryRaised? {
        return None;
      }
      var rows := query.rows;
      var currWords := Words(description);
      bestFix := None;
      var i := 0;
      while i < |rows|
        invariant 0 <= i <= |rows|
        invariant Scan(rows, bugType, currWords) == Scan(rows[i..], bugType, currWords)
      {
        var o := Row(rows[i], bugType, currWords);
        if o.RowRaised? {
          return None;
        }
        if o.Match? {
          bestFix := Some(o.content);
          break;
        }
        assert rows[i..][1..] == rows[i + 1..];
        i := i + 1;
      }
      if i == |rows| {
        assert rows[i..] == [];
      }
    }

    /** `update_node_status`: the row it inserts, none when the client is
        disabled or the run id is missing or empty. */
    method UpdateNodeStatus(runId: Option<string>, node: string, logType: string, content: Json, now: string)
      returns (insert: Option<NodeLog>)
      ensures insert.None? <==> !enabled || !NonEmpty(runId)
      ensures insert.Some? ==> insert.value == NodeLog(runId.value, node, logType, content, now)
    {
      if !enabled || !NonEmpty(runId) {
        return None;
      }
      insert := Some(NodeLog(runId.value, node, logType, content, now));
    }

    /** `finalize_run`: the update it sends, under the same guard. */
    method FinalizeRun(runId: Option<string>, score: int, duration: real, status: string)
      returns (update: Option<RunUpdate>)
      ensures update.None? <==> !enabled || !NonEmpty(runId)
      ensures update.Some? ==> update.value == RunUpdate(runId.value, score, duration, status)
    {
      if !enabled || !NonEmpty(runId) {
        return None;
      }
      update := Some(RunUpdate(runId.value, score, duration, status));
    }
  }
}
