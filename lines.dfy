/**
 * Multi-line messages: lines joined with a single '\n' between them, and the
 * inverse operation that cuts a message back into its lines.
 */
module Lines {

  /** The lines of `lines`, each followed by '\n' except the last one. */
  function JoinLines(lines: seq<string>): (s: string)
  {
    if |lines| == 0 then ""
    else if |lines| == 1 then lines[0]
    else lines[0] + "\n" + JoinLines(lines[1..])
  }

  /** True when no line of `lines` contains a line break. */
  predicate SingleLines(lines: seq<string>)
  {
    forall i :: 0 <= i < |lines| ==> '\n' !in lines[i]
  }

  /** The pieces of `s` between its '\n' characters, as JavaScript's `split('\n')` gives them. */
  function Split(s: string): (r: seq<string>)
    ensures |r| >= 1
    ensures '\n' !in s ==> r == [s]
    decreases |s|
  {
    if s == [] then [""]
    else
      var rest := Split(s[1..]);
      assert s == [s[0]] + s[1..];
      if s[0] == '\n' then [""] + rest
      else [[s[0]] + rest[0]] + rest[1..]
  }

  /** Splitting at the first line break gives the line before it, then the lines after it. */
  lemma {:induction false} SplitAfterLine(a: string, b: string)
    requires '\n' !in a
    ensures Split(a + "\n" + b) == [a] + Split(b)
    decreases |a|
  {
    var s := a + "\n" + b;
    if a == [] {
      assert s == ['\n'] + b;
      assert s[1..] == b;
    } else {
      assert s[0] == a[0];
      assert s[1..] == a[1..] + "\n" + b;
      SplitAfterLine(a[1..], b);
      assert [a[0]] + a[1..] == a;
    }
  }

  /** Splitting a joined message gives back exactly its lines. */
  lemma {:induction false} SplitJoinLines(lines: seq<string>)
    requires |lines| >= 1
    requires SingleLines(lines)
    ensures Split(JoinLines(lines)) == lines
    decreases |lines|
  {
    if |lines| > 1 {
      assert '\n' !in lines[0];
      SplitAfterLine(lines[0], JoinLines(lines[1..]));
      SplitJoinLines(lines[1..]);
      assert lines == [lines[0]] + lines[1..];
    }
  }

  /** A joined message contains a line break exactly when it has two lines or more. */
  lemma JoinLinesBreaks(lines: seq<string>)
    requires SingleLines(lines)
    ensures '\n' in JoinLines(lines) <==> |lines| >= 2
  {
    if |lines| >= 2 {
      var s := JoinLines(lines);
      assert s[|lines[0]|] == '\n';
    }
  }
}
