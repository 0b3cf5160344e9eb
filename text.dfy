/** The string operations the source uses (Python `str` methods, `os.path`
    helpers and the JavaScript string methods of the frontend), on `seq<char>`.
    Case mapping is ASCII only. */
module Text {
  import opened Wrappers

  /** Python `s.startswith(p)`. */
  predicate StartsWith(s: string, p: string) {
    p <= s
  }

  /** Python `s.endswith(p)`. */
  predicate EndsWith(s: string, p: string) {
    |p| <= |s| && s[|s| - |p|..] == p
  }

  /** Python `sub in s`. */
  predicate Contains(s: string, sub: string)
    decreases |s|
  {
    sub <= s || (|s| > 0 && Contains(s[1..], sub))
  }

  lemma {:induction false} ContainsAt(s: string, sub: string, i: nat)
    requires i + |sub| <= |s| && s[i..i + |sub|] == sub
    ensures Contains(s, sub)
    decreases i
  {
    if i > 0 {
      assert s[1..][i - 1..i - 1 + |sub|] == sub;
      ContainsAt(s[1..], sub, i - 1);
    } else {
      assert sub <= s;
    }
  }

  /** A string that occurs in `s` also occurs in every string that has `s` as a part. */
  lemma {:induction false} ContainsInConcat(a: string, s: string, b: string, sub: string)
    requires Contains(s, sub)
    ensures Contains(a + s + b, sub)
    decreases |s|
  {
    var i := ContainsIndex(s, sub);
    assert (a + s + b)[|a| + i..|a| + i + |sub|] == s[i..i + |sub|];
    ContainsAt(a + s + b, sub, |a| + i);
  }

  lemma {:induction false} ContainsIndex(s: string, sub: string) returns (i: nat)
    requires Contains(s, sub)
    ensures i + |sub| <= |s| && s[i..i + |sub|] == sub
    decreases |s|
  {
    if sub <= s {
      i := 0;
    } else {
      var j := ContainsIndex(s[1..], sub);
      assert s[1..][j..j + |sub|] == s[j + 1..j + 1 + |sub|];
      i := j + 1;
    }
  }

  function UpperChar(c: char): char {
    if 'a' <= c <= 'z' then (c as int - 32) as char else c
  }

  function LowerChar(c: char): char {
    if 'A' <= c <= 'Z' then (c as int + 32) as char else c
  }

  /** Python `s.upper()` / JavaScript `s.toUpperCase()` on ASCII letters. */
  function Upper(s: string): (r: string)
    ensures |r| == |s| && forall i :: 0 <= i < |s| ==> r[i] == UpperChar(s[i])
  {
    seq(|s|, i requires 0 <= i < |s| => UpperChar(s[i]))
  }

  /** Python `s.lower()` on ASCII letters. */
  function Lower(s: string): (r: string)
    ensures |r| == |s| && forall i :: 0 <= i < |s| ==> r[i] == LowerChar(s[i])
  {
    seq(|s|, i requires 0 <= i < |s| => LowerChar(s[i]))
  }

  /** Python `s.replace(pat, rep)`: every non-overlapping occurrence, left to right. */
  function ReplaceAll(s: string, pat: string, rep: string): string
    requires pat != []
    decreases |s|
  {
    if s == [] then []
    else if pat <= s then rep + ReplaceAll(s[|pat|..], pat, rep)
    else [s[0]] + ReplaceAll(s[1..], pat, rep)
  }

  /** Replacing a character that does not occur changes nothing. */
  lemma {:induction false} ReplaceAbsent(s: string, c: char, rep: string)
    requires c !in s
    ensures ReplaceAll(s, [c], rep) == s
    decreases |s|
  {
    if s != [] {
      assert s[0] != c;
      ReplaceAbsent(s[1..], c, rep);
      assert s == [s[0]] + s[1..];
    }
  }

  /** No occurrence of `pat` fits in a string that lacks one of its characters. */
  lemma {:induction false} ReplaceMissingChar(s: string, pat: string, rep: string, k: nat)
    requires k < |pat| && pat[k] !in s
    ensures ReplaceAll(s, pat, rep) == s
    decreases |s|
  {
    if s != [] {
      if k < |s| {
        assert s[k] in s;
      }
      assert !(pat <= s);
      ReplaceMissingChar(s[1..], pat, rep, k);
      assert s == [s[0]] + s[1..];
    }
  }

  /** A part in which `pat` cannot start passes through unchanged. */
  lemma {:induction false} ReplaceSkipsPart(a: string, b: string, pat: string, rep: string)
    requires pat != [] && pat[0] !in a
    ensures ReplaceAll(a + b, pat, rep) == a + ReplaceAll(b, pat, rep)
    decreases |a|
  {
    if a == [] {
      assert a + b == b;
    } else {
      assert (a + b)[0] == a[0];
      assert !(pat <= a + b);
      assert (a + b)[1..] == a[1..] + b;
      ReplaceSkipsPart(a[1..], b, pat, rep);
      assert a == [a[0]] + a[1..];
    }
  }

  /** Replacing a pattern that does not occur changes nothing. */
  lemma {:induction false} ReplaceNoOccurrence(s: string, pat: string, rep: string)
    requires pat != [] && !Contains(s, pat)
    ensures ReplaceAll(s, pat, rep) == s
    decreases |s|
  {
    if s != [] {
      ReplaceNoOccurrence(s[1..], pat, rep);
      assert s == [s[0]] + s[1..];
    }
  }

  /** Replacing a whole string by the empty string leaves nothing. */
  lemma ReplaceWhole(p: string)
    requires p != []
    ensures ReplaceAll(p, p, "") == ""
  {
    assert p <= p;
    assert p[|p|..] == [];
  }

  /** Splitting at a separator splits the two sides independently. */
  lemma {:induction false} SplitOnConcat(a: string, b: string, sep: char)
    ensures SplitOn(a + [sep] + b, sep) == SplitOn(a, sep) + SplitOn(b, sep)
    decreases |a|
  {
    if a == [] {
      assert a + [sep] + b == [sep] + b;
      assert ([sep] + b)[1..] == b;
    } else {
      assert (a + [sep] + b)[0] == a[0];
      assert (a + [sep] + b)[1..] == a[1..] + [sep] + b;
      SplitOnConcat(a[1..], b, sep);
    }
  }

  /** A string without the separator is one part. */
  lemma {:induction false} SplitOnSingle(a: string, sep: char)
    requires sep !in a
    ensures SplitOn(a, sep) == [a]
    decreases |a|
  {
    if a != [] {
      SplitOnSingle(a[1..], sep);
      assert a == [a[0]] + a[1..];
    }
  }

  /** Python `s.split(sub, 1)[1]`: the text after the first occurrence of
      `sub`, when there is one. */
  function AfterFirst(s: string, sub: string): (r: Option<string>)
    ensures r.Some? <==> Contains(s, sub)
    ensures r.Some? ==> EndsWith(s, r.value) && |r.value| + |sub| <= |s|
    decreases |s|
  {
    if sub <= s then Some(s[|sub|..])
    else if s == [] then None
    else AfterFirst(s[1..], sub)
  }

  /** Replaces every `a` of `s` by `b`, character by character. */
  function MapChar(s: string, a: char, b: char): (r: string)
    ensures |r| == |s| && forall i :: 0 <= i < |s| ==> r[i] == (if s[i] == a then b else s[i])
  {
    seq(|s|, i requires 0 <= i < |s| => if s[i] == a then b else s[i])
  }

  /** Replacing one character by one character is a character map. */
  lemma {:induction false} ReplaceCharIsMap(s: string, a: char, b: char)
    ensures ReplaceAll(s, [a], [b]) == MapChar(s, a, b)
    decreases |s|
  {
    if s != [] {
      ReplaceCharIsMap(s[1..], a, b);
      assert MapChar(s, a, b) == [if s[0] == a then b else s[0]] + MapChar(s[1..], a, b);
    }
  }

  function CountChar(s: string, c: char): nat
    decreases |s|
  {
    if s == [] then 0 else (if s[0] == c then 1 else 0) + CountChar(s[1..], c)
  }

  lemma {:induction false} CountCharConcat(a: string, b: string, c: char)
    ensures CountChar(a + b, c) == CountChar(a, c) + CountChar(b, c)
    decreases |a|
  {
    if a != [] {
      assert (a + b)[0] == a[0];
      assert (a + b)[1..] == a[1..] + b;
      CountCharConcat(a[1..], b, c);
    } else {
      assert a + b == b;
    }
  }

  lemma {:induction false} CountCharAbsent(s: string, c: char)
    requires c !in s
    ensures CountChar(s, c) == 0
    decreases |s|
  {
    if s != [] {
      assert s[0] != c;
      assert forall x :: x in s[1..] ==> x in s;
      CountCharAbsent(s[1..], c);
    }
  }

  /** Python `s.split(sep)` for a one-character separator. */
  function SplitOn(s: string, sep: char): (r: seq<string>)
    ensures |r| >= 1
    decreases |s|
  {
    if s == [] then [""]
    else if s[0] == sep then [""] + SplitOn(s[1..], sep)
    else
      var rest := SplitOn(s[1..], sep);
      [[s[0]] + rest[0]] + rest[1..]
  }

  /** Python `sep.join(parts)`. */
  function Join(parts: seq<string>, sep: string): string
    decreases |parts|
  {
    if parts == [] then ""
    else if |parts| == 1 then parts[0]
    else parts[0] + sep + Join(parts[1..], sep)
  }

  /** Python `s.lstrip(c)`. */
  function LStrip(s: string, c: char): (r: string)
    ensures r <= s || (|r| <= |s| && r == s[|s| - |r|..])
    ensures r == [] || r[0] != c
    decreases |s|
  {
    if s != [] && s[0] == c then LStrip(s[1..], c) else s
  }

  /** `LStrip` drops a prefix made only of `c`. */
  lemma {:induction false} LStripDropsOnly(s: string, c: char)
    ensures var r := LStrip(s, c);
      |r| <= |s| && r == s[|s| - |r|..] && forall i :: 0 <= i < |s| - |r| ==> s[i] == c
    decreases |s|
  {
    if s != [] && s[0] == c {
      LStripDropsOnly(s[1..], c);
    }
  }

  /** Python `s.rstrip(c)`. */
  function RStrip(s: string, c: char): (r: string)
    ensures r <= s
    ensures r == [] || r[|r| - 1] != c
    decreases |s|
  {
    if s != [] && s[|s| - 1] == c then RStrip(s[..|s| - 1], c) else s
  }

  /** Python `s.strip(c)`. */
  function Strip(s: string, c: char): string {
    RStrip(LStrip(s, c), c)
  }

  /** Python `os.path.basename(p)`: the part after the last '/'. */
  function Basename(p: string): (r: string)
    ensures '/' !in r
    ensures |r| <= |p| && r == p[|p| - |r|..]
    decreases |p|
  {
    if p == [] || p[|p| - 1] == '/' then [] else Basename(p[..|p| - 1]) + [p[|p| - 1]]
  }

  /** The basename of `a/b` is `b` when `b` has no '/'. */
  lemma {:induction false} BasenameAfterSlash(a: string, b: string)
    requires '/' !in b
    ensures Basename(a + "/" + b) == b
    decreases |b|
  {
    var p := a + "/" + b;
    if b == [] {
      assert p[|p| - 1] == '/';
    } else {
      var b' := b[..|b| - 1];
      var c := b[|b| - 1];
      assert b == b' + [c];
      assert c != '/' && '/' !in b' by {
        assert c in b;
        assert forall x :: x in b' ==> x in b;
      }
      BasenameAfterSlash(a, b');
      assert p == (a + "/" + b') + [c];
      assert p[..|p| - 1] == a + "/" + b';
    }
  }

  /** One more trailing `c` is stripped too. */
  lemma RStripTrailing(s: string, c: char)
    ensures RStrip(s + [c], c) == RStrip(s, c)
  {
    assert (s + [c])[..|s|] == s;
  }

  /** Python `os.path.join(a, b)` on POSIX. */
  function JoinPath(a: string, b: string): string {
    if StartsWith(b, "/") then b
    else if a == [] || a[|a| - 1] == '/' then a + b
    else a + "/" + b
  }

  /** The characters at which Python `str.splitlines()` breaks a line. */
  predicate IsLineBreak(c: char) {
    var n := c as int;
    (10 <= n <= 13) || (28 <= n <= 30) || n == 0x85 || n == 0x2028 || n == 0x2029
  }

  /** Index of the first line break of `s`, or `|s|`. */
  function FirstBreak(s: string): (i: nat)
    ensures i <= |s| && (i < |s| ==> IsLineBreak(s[i]))
    ensures forall j :: 0 <= j < i ==> !IsLineBreak(s[j])
    decreases |s|
  {
    if s == [] then 0 else if IsLineBreak(s[0]) then 0 else 1 + FirstBreak(s[1..])
  }

  /** Python `s.splitlines()`: "\r\n" is one break, and a final break yields no empty line. */
  function SplitLines(s: string): (r: seq<string>)
    ensures s != [] ==> |r| >= 1
    decreases |s|
  {
    if s == [] then []
    else
      var i := FirstBreak(s);
      if i == |s| then [s]
      else
        var w := if s[i] == '\r' && i + 1 < |s| && s[i + 1] == '\n' then 2 else 1;
        [s[..i]] + SplitLines(s[i + w..])
  }

  /** The first line starts with every prefix of `s` that holds no line break. */
  lemma {:induction false} FirstLineKeepsPrefix(s: string, p: string)
    requires p <= s && p != [] && forall j :: 0 <= j < |p| ==> !IsLineBreak(p[j])
    ensures |SplitLines(s)| >= 1 && p <= SplitLines(s)[0]
  {
    assert forall j :: 0 <= j < |p| ==> s[j] == p[j];
    assert FirstBreak(s) >= |p|;
  }

  /** Index of the first `c` in `s`, or `|s|`. */
  function IndexOfChar(s: string, c: char): (i: nat)
    ensures i <= |s| && (i < |s| ==> s[i] == c)
    ensures forall j :: 0 <= j < i ==> s[j] != c
    decreases |s|
  {
    if s == [] then 0 else if s[0] == c then 0 else 1 + IndexOfChar(s[1..], c)
  }

  /** Python `f.readlines()` on text whose line ends are already "\n": each
      line keeps its "\n", and a last line without one is kept too. */
  function ReadLines(s: string): (r: seq<string>)
    ensures forall k :: 0 <= k < |r| ==> r[k] != []
    decreases |s|
  {
    if s == [] then []
    else
      var i := IndexOfChar(s, '\n');
      if i == |s| then [s] else [s[..i + 1]] + ReadLines(s[i + 1..])
  }

  /** The concatenation of a sequence of strings (Python `"".join`). */
  function Concat(parts: seq<string>): string
    decreases |parts|
  {
    if parts == [] then "" else parts[0] + Concat(parts[1..])
  }

  /** `readlines` loses nothing: joined again, the lines are the text. */
  lemma {:induction false} ReadLinesConcat(s: string)
    ensures Concat(ReadLines(s)) == s
    decreases |s|
  {
    if s != [] {
      var i := IndexOfChar(s, '\n');
      if i < |s| {
        ReadLinesConcat(s[i + 1..]);
        assert s == s[..i + 1] + s[i + 1..];
      }
    }
  }

  /** The characters Python `str.split()` treats as white space. */
  predicate IsSpace(c: char) {
    var n := c as int;
    (9 <= n <= 13) || (28 <= n <= 32) || n == 0x85 || n == 0xA0 || n == 0x1680
    || (0x2000 <= n <= 0x200A) || n == 0x2028 || n == 0x2029 || n == 0x202F || n == 0x205F
    || n == 0x3000
  }

  /** The longest prefix of `s` without white space. */
  function Word(s: string): (w: string)
    ensures w <= s && forall j :: 0 <= j < |w| ==> !IsSpace(w[j])
    ensures |w| < |s| ==> IsSpace(s[|w|])
    decreases |s|
  {
    if s == [] || IsSpace(s[0]) then [] else [s[0]] + Word(s[1..])
  }

  /** Python `s.split()` with no argument: the maximal runs of non-space characters. */
  function SplitWhitespace(s: string): (r: seq<string>)
    ensures forall k :: 0 <= k < |r| ==> r[k] != []
    decreases |s|
  {
    if s == [] then []
    else if IsSpace(s[0]) then SplitWhitespace(s[1..])
    else
      var w := Word(s);
      [w] + SplitWhitespace(s[|w|..])
  }

  /** A string of only white space has no words. */
  lemma {:induction false} BlankHasNoWords(s: string)
    requires forall j :: 0 <= j < |s| ==> IsSpace(s[j])
    ensures SplitWhitespace(s) == []
    decreases |s|
  {
    if s != [] {
      BlankHasNoWords(s[1..]);
    }
  }

  function DigitChar(d: nat): char
    requires d < 10
  {
    (48 + d) as char
  }

  /** Decimal representation of a natural number (Python `str(n)`). */
  function NatToString(n: nat): (r: string)
    ensures r != []
    decreases n
  {
    if n < 10 then [DigitChar(n)] else NatToString(n / 10) + [DigitChar(n % 10)]
  }

  /** Python `str(i)` for an integer. */
  function IntToString(i: int): string {
    if i < 0 then "-" + NatToString(-i) else NatToString(i)
  }
}
