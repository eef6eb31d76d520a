/**
 * Shader-section extraction from the combined shader resource: the lines
 * after the first `#shader <name>` header, up to the next `#shader` line,
 * each followed by a newline. The resource bytes are the input `data`.
 */
module ShaderSource {
  import opened CStrings

  /** The complete lines of a text, and the unterminated text after the last newline. */
  datatype Pieces = Pieces(lines: seq<seq<char>>, pending: seq<char>)

  predicate NoNewline(s: seq<char>)
  {
    '\n' !in s
  }

  predicate AllNoNewline(ls: seq<seq<char>>)
  {
    forall k :: 0 <= k < |ls| ==> NoNewline(ls[k])
  }

  /** The header a section named `name` starts with: `#shader <name>` cut to 127 characters. */
  function Header(name: seq<char>): (h: seq<char>)
    ensures h <= "#shader " + CStr(name)
    ensures NUL !in h && "#shader " <= h
  {
    assert NUL !in "#shader " + CStr(name);
    SnprintfS("#shader " + CStr(name), 128)
  }

  /** `match_shader_line`: the line starts with the header of `name`. */
  function MatchShaderLine(line: seq<char>, name: seq<char>): bool
  {
    StartsWith(line, Header(name))
  }

  /** A line holds the header of `name` exactly when its string starts with it. */
  lemma MatchShaderLineIsPrefix(line: seq<char>, name: seq<char>)
    ensures MatchShaderLine(line, name) <==> Header(name) <= CStr(line)
  {
    StartsWithIsPrefix(line, Header(name));
    assert CStr(Header(name)) == Header(name);
  }

  /** What every section header starts with. */
  const SECTION_TAG: seq<char> := "#shader"

  /** `match_any_shader_line`: the line starts with `#shader`. */
  function MatchAnyShaderLine(line: seq<char>): bool
  {
    StartsWith(line, SECTION_TAG)
  }

  /** A line is a section line exactly when its string starts with `#shader`. */
  lemma MatchAnyShaderLineIsPrefix(line: seq<char>)
    ensures MatchAnyShaderLine(line) <==> "#shader" <= CStr(line)
  {
    StartsWithIsPrefix(line, SECTION_TAG);
    assert CStr(SECTION_TAG) == SECTION_TAG;
  }

  /** A section header of any name is a `#shader` line. */
  lemma HeaderIsShaderLine(line: seq<char>, name: seq<char>)
    requires MatchShaderLine(line, name)
    ensures MatchAnyShaderLine(line)
  {
    MatchShaderLineIsPrefix(line, name);
    MatchAnyShaderLineIsPrefix(line);
    assert "#shader" <= "#shader ";
  }

  /**
   * The test is a prefix test: a header naming a longer section that starts
   * with `name` matches too.
   */
  lemma LongerNameMatches(name: seq<char>, suffix: seq<char>, rest: seq<char>)
    requires NUL !in name + suffix + rest
    ensures MatchShaderLine("#shader " + name + suffix + rest, name)
  {
    var line := "#shader " + name + suffix + rest;
    MatchShaderLineIsPrefix(line, name);
    assert NUL !in line;
    assert CStr(name) == name;
    assert "#shader " + name <= line;
  }

  /** Splitting at newlines, from the front, as the source's first loop does. */
  function Split(s: seq<char>): (p: Pieces)
    decreases |s|
  {
    if |s| == 0 then Pieces([], [])
    else
      var p := Split(s[..|s| - 1]);
      if s[|s| - 1] == '\n' then Pieces(p.lines + [p.pending], [])
      else Pieces(p.lines, p.pending + [s[|s| - 1]])
  }

  /** No piece of a split holds a newline. */
  lemma {:induction false} SplitNoNewline(s: seq<char>)
    ensures AllNoNewline(Split(s).lines) && NoNewline(Split(s).pending)
    decreases |s|
  {
    if |s| > 0 {
      SplitNoNewline(s[..|s| - 1]);
    }
  }

  /** The lines, each followed by one newline. */
  function Join(ls: seq<seq<char>>): seq<char>
  {
    if |ls| == 0 then [] else Join(ls[..|ls| - 1]) + ls[|ls| - 1] + ['\n']
  }

  /** Splitting loses nothing: the lines joined, then the pending text, are the input. */
  lemma {:induction false} SplitJoin(s: seq<char>)
    ensures Join(Split(s).lines) + Split(s).pending == s
    decreases |s|
  {
    if |s| > 0 {
      var s' := s[..|s| - 1];
      SplitJoin(s');
      var p := Split(s');
      if s[|s| - 1] == '\n' {
        assert (p.lines + [p.pending])[..|p.lines|] == p.lines;
      }
      assert s == s' + [s[|s| - 1]];
    }
  }

  /** Appending text without a newline only extends the pending text. */
  lemma {:induction false} SplitPlain(x: seq<char>, t: seq<char>)
    requires NoNewline(t)
    ensures Split(x + t) == Pieces(Split(x).lines, Split(x).pending + t)
    decreases |t|
  {
    if |t| == 0 {
      assert x + t == x;
      assert Split(x).pending + t == Split(x).pending;
    } else {
      var t' := t[..|t| - 1];
      var c := t[|t| - 1];
      SplitPlain(x, t');
      SplitChar(x + t', c);
      AppendLast(x, t);
      AppendLast(Split(x).pending, t);
    }
  }

  /** Appending a non-empty sequence is appending all but its last element, then that element. */
  lemma AppendLast<T>(a: seq<T>, t: seq<T>)
    requires |t| > 0
    ensures a + t == (a + t[..|t| - 1]) + [t[|t| - 1]]
  {
  }

  /** A character other than a newline extends the pending text. */
  lemma SplitChar(x: seq<char>, c: char)
    requires c != '\n'
    ensures Split(x + [c]) == Pieces(Split(x).lines, Split(x).pending + [c])
  {
    assert (x + [c])[..|x|] == x;
  }

  /** A newline closes the pending text as a line. */
  lemma SplitNewline(x: seq<char>)
    ensures Split(x + ['\n']) == Pieces(Split(x).lines + [Split(x).pending], [])
  {
    assert (x + ['\n'])[..|x|] == x;
  }

  /** Joining newline-free lines and splitting again gives the lines back. */
  lemma JoinSplit(ls: seq<seq<char>>, pending: seq<char>)
    requires AllNoNewline(ls) && NoNewline(pending)
    ensures Split(Join(ls) + pending) == Pieces(ls, pending)
  {
    JoinSplitLines(ls);
    SplitPlain(Join(ls), pending);
    assert [] + pending == pending;
  }

  /** Newline-free lines, each ended by a newline, split back into themselves. */
  lemma {:induction false} JoinSplitLines(ls: seq<seq<char>>)
    requires AllNoNewline(ls)
    ensures Split(Join(ls)) == Pieces(ls, [])
    decreases |ls|
  {
    if |ls| > 0 {
      var ls' := ls[..|ls| - 1];
      var l := ls[|ls| - 1];
      JoinSplitLines(ls');
      SplitPlain(Join(ls'), l);
      assert [] + l == l;
      SplitNewline(Join(ls') + l);
      assert ls' + [l] == ls;
    }
  }

  /** The line test that picks the header of `name`. */
  function HeaderOf(name: seq<char>): seq<char> -> bool
  {
    line => MatchShaderLine(line, name)
  }

  /** The first line satisfying `p`, or -1. */
  function FirstWhere(ls: seq<seq<char>>, p: seq<char> -> bool): (i: int)
    ensures -1 <= i < |ls|
    ensures i == -1 <==> forall k :: 0 <= k < |ls| ==> !p(ls[k])
    ensures i != -1 ==> p(ls[i])
    ensures forall k :: 0 <= k < i ==> !p(ls[k])
  {
    if |ls| == 0 then -1
    else if p(ls[0]) then 0
    else
      var j := FirstWhere(ls[1..], p);
      assert forall k :: 1 <= k < |ls| ==> ls[k] == ls[1..][k - 1];
      if j == -1 then -1 else j + 1
  }

  /** The lines before the first one satisfying `stop`. */
  function Until(ls: seq<seq<char>>, stop: seq<char> -> bool): (body: seq<seq<char>>)
    ensures body <= ls
    ensures forall k :: 0 <= k < |body| ==> !stop(body[k])
    ensures |body| < |ls| ==> stop(ls[|body|])
  {
    if |ls| == 0 || stop(ls[0]) then [] else [ls[0]] + Until(ls[1..], stop)
  }

  /** The body ends at the first stopping line or the end: nothing else ends it. */
  lemma {:induction false} UntilIsPrefix(ls: seq<seq<char>>, stop: seq<char> -> bool, k: nat)
    requires k <= |ls|
    requires forall j :: 0 <= j < k ==> !stop(ls[j])
    requires k == |ls| || stop(ls[k])
    ensures Until(ls, stop) == ls[..k]
  {
    if k > 0 {
      assert forall j :: 0 <= j < k - 1 ==> ls[1..][j] == ls[j + 1];
      UntilIsPrefix(ls[1..], stop, k - 1);
      assert ls[..k] == [ls[0]] + ls[1..][..k - 1];
    }
  }

  /** What `find_shader_string(name)` returns for the resource `data`. */
  function ShaderString(data: seq<char>, name: seq<char>): seq<char>
  {
    var ls := Split(data).lines;
    var m := FirstWhere(ls, HeaderOf(name));
    if m == -1 then [] else Join(Until(ls[m + 1..], MatchAnyShaderLine))
  }

  /** The splitting loop of `find_shader_string`. */
  method SplitLines(data: seq<char>) returns (lines: seq<seq<char>>)
    ensures lines == Split(data).lines
  {
    lines := [];
    var line: seq<char> := [];
    var i := 0;
    while i < |data|
      invariant 0 <= i <= |data|
      invariant Split(data[..i]) == Pieces(lines, line)
    {
      assert data[..i + 1][..i] == data[..i];
      if data[i] == '\n' {
        lines := lines + [line];
        line := [];
      } else {
        line := line + [data[i]];
      }
      i := i + 1;
    }
    assert data[..i] == data;
  }

  /** The header search of `find_shader_string`: the first line matching `name`, or -1. */
  method FindHeader(lines: seq<seq<char>>, name: seq<char>) returns (matched: int)
    ensures matched == FirstWhere(lines, HeaderOf(name))
  {
    matched := -1;
    var i := 0;
    while i < |lines|
      invariant 0 <= i <= |lines|
      invariant forall k :: 0 <= k < i ==> !HeaderOf(name)(lines[k])
    {
      if MatchShaderLine(lines[i], name) {
        matched := i;
        break;
      }
      i := i + 1;
    }
  }

  /**
   * The collecting loop of `find_shader_string`: the lines from `start` up
   * to the first one `stop` holds for; the source stops at the next
   * `#shader` line.
   */
  method CollectUntil(lines: seq<seq<char>>, start: int, stop: seq<char> -> bool) returns (matchedLines: seq<seq<char>>)
    requires 0 <= start <= |lines|
    ensures matchedLines == Until(lines[start..], stop)
  {
    matchedLines := [];
    var i := start;
    while i < |lines|
      invariant start <= i <= |lines|
      invariant matchedLines == lines[start..i]
      invariant forall j :: start <= j < i ==> !stop(lines[j])
    {
      if stop(lines[i]) {
        break;
      }
      matchedLines := matchedLines + [lines[i]];
      i := i + 1;
    }
    assert forall j :: 0 <= j < i - start ==> lines[start..][j] == lines[start + j];
    UntilIsPrefix(lines[start..], stop, i - start);
    assert lines[start..][..i - start] == lines[start..i];
  }

  /** The joining loop of `find_shader_string`: each line followed by a newline. */
  method JoinLines(ls: seq<seq<char>>) returns (out: seq<char>)
    ensures out == Join(ls)
  {
    out := [];
    var k := 0;
    while k < |ls|
      invariant 0 <= k <= |ls|
      invariant out == Join(ls[..k])
    {
      assert ls[..k + 1][..k] == ls[..k];
      out := out + ls[k] + ['\n'];
      k := k + 1;
    }
    assert ls[..k] == ls;
  }

  /**
   * `find_shader_string`: split the resource into lines (text after the
   * last newline is dropped), find the first header of `name`, collect the
   * lines after it up to the next `#shader` line, and join them. The empty
   * string when there is no header.
   */
  method FindShaderString(data: seq<char>, name: seq<char>) returns (out: seq<char>)
    ensures out == ShaderString(data, name)
  {
    var lines := SplitLines(data);
    var matched := FindHeader(lines, name);
    if matched == -1 {
      return [];
    }
    var matchedLines := CollectUntil(lines, matched + 1, MatchAnyShaderLine);
    out := JoinLines(matchedLines);
  }

  /**
   * The result is the section's lines, each ended by a newline: splitting it
   * gives them back with nothing pending, and none of them is a `#shader`
   * line.
   */
  lemma ShaderStringHasNoHeader(data: seq<char>, name: seq<char>)
    ensures Split(ShaderString(data, name)).pending == []
    ensures forall k :: 0 <= k < |Split(ShaderString(data, name)).lines| ==>
      !MatchAnyShaderLine(Split(ShaderString(data, name)).lines[k])
  {
    var ls := Split(data).lines;
    var m := FirstWhere(ls, HeaderOf(name));
    SplitNoNewline(data);
    if m != -1 {
      var body := Until(ls[m + 1..], MatchAnyShaderLine);
      assert ShaderString(data, name) == Join(body);
      UntilNoNewline(ls[m + 1..], MatchAnyShaderLine);
      JoinSplitLines(body);
    } else {
      assert Split([]) == Pieces([], []);
    }
  }

  /** The lines before a stopping line are lines of the text: none holds a newline. */
  lemma UntilNoNewline(ls: seq<seq<char>>, stop: seq<char> -> bool)
    requires AllNoNewline(ls)
    ensures AllNoNewline(Until(ls, stop))
  {
    var body := Until(ls, stop);
    assert forall k :: 0 <= k < |body| ==> body[k] == ls[k];
  }


  /** Without a header of `name` in any complete line the result is empty. */
  lemma NoHeaderNoShader(data: seq<char>, name: seq<char>)
    requires forall k :: 0 <= k < |Split(data).lines| ==> !MatchShaderLine(Split(data).lines[k], name)
    ensures ShaderString(data, name) == []
  {
    assert forall k :: 0 <= k < |Split(data).lines| ==> !HeaderOf(name)(Split(data).lines[k]);
  }

  /** The first header wins: a section named later in the resource is never returned instead. */
  lemma FirstHeaderWins(data: seq<char>, name: seq<char>, i: int)
    requires 0 <= i < |Split(data).lines| && MatchShaderLine(Split(data).lines[i], name)
    requires forall k :: 0 <= k < i ==> !MatchShaderLine(Split(data).lines[k], name)
    ensures ShaderString(data, name) == Join(Until(Split(data).lines[i + 1..], MatchAnyShaderLine))
  {
    var ls := Split(data).lines;
    assert HeaderOf(name)(ls[i]);
    assert forall k :: 0 <= k < i ==> !HeaderOf(name)(ls[k]);
    FirstWhereIs(ls, HeaderOf(name), i);
  }

  /** The first line satisfying `p` is the one `FirstWhere` finds. */
  lemma FirstWhereIs(ls: seq<seq<char>>, p: seq<char> -> bool, i: int)
    requires 0 <= i < |ls| && p(ls[i])
    requires forall k :: 0 <= k < i ==> !p(ls[k])
    ensures FirstWhere(ls, p) == i
  {
  }
}
