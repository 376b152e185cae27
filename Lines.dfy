/** Lines of text: the shape of the registry's textual summary. */
module Lines {

  /** The position of the first line break of `s`, or |s| when there is none. */
  function NewlineIndex(s: string): (i: nat)
    ensures i <= |s| && (i < |s| ==> s[i] == '\n')
    ensures forall j :: 0 <= j < i ==> s[j] != '\n'
  {
    if s == [] || s[0] == '\n' then 0 else 1 + NewlineIndex(s[1..])
  }

  /** The lines of a text, each without its terminating line break. */
  function SplitLines(s: string): seq<string>
    decreases |s|
  {
    if s == [] then []
    else
      var i := NewlineIndex(s);
      if i == |s| then [s] else [s[..i]] + SplitLines(s[i + 1..])
  }

  /** The text made of the given lines, each followed by a line break. */
  function JoinLines(lines: seq<string>): string {
    if lines == [] then "" else lines[0] + "\n" + JoinLines(lines[1..])
  }

  /** Adding a line at the end adds that line and its line break at the end of the text. */
  lemma {:induction false} JoinLinesSnoc(lines: seq<string>, line: string)
    ensures JoinLines(lines + [line]) == JoinLines(lines) + line + "\n"
  {
    if lines == [] {
      assert lines + [line] == [line];
    } else {
      var longer := lines + [line];
      assert longer[0] == lines[0] && longer[1..] == lines[1..] + [line];
      JoinLinesSnoc(lines[1..], line);
    }
  }

  /** The first line break of a text that starts with a one-line string ends that string. */
  lemma NewlineIndexAfterLine(line: string, rest: string)
    requires '\n' !in line
    ensures NewlineIndex(line + "\n" + rest) == |line|
  {
    var s := line + "\n" + rest;
    assert s[|line|] == '\n';
    assert forall j :: 0 <= j < |line| ==> s[j] == line[j];
  }

  /** Splitting the text made of some one-line strings gives those strings back. */
  lemma {:induction false} SplitJoinLines(lines: seq<string>)
    requires forall i :: 0 <= i < |lines| ==> '\n' !in lines[i]
    ensures SplitLines(JoinLines(lines)) == lines
  {
    if lines != [] {
      var line, rest := lines[0], JoinLines(lines[1..]);
      var s := line + "\n" + rest;
      NewlineIndexAfterLine(line, rest);
      assert s[..|line|] == line;
      assert s[|line| + 1..] == rest;
      SplitJoinLines(lines[1..]);
    }
  }

  /** The text made of some one-line strings has exactly one line break per string. */
  lemma {:induction false} JoinLinesNewlineCount(lines: seq<string>)
    requires forall i :: 0 <= i < |lines| ==> '\n' !in lines[i]
    ensures multiset(JoinLines(lines))['\n'] == |lines|
  {
    if lines != [] {
      JoinLinesNewlineCount(lines[1..]);
      assert multiset(lines[0])['\n'] == 0;
    }
  }
}
