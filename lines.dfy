/**
 * `str.splitlines(True)` on a Python 2 byte string: the text is cut after
 * every line terminator ("\n", "\r", or the pair "\r\n"), and every piece
 * keeps its terminator. The empty string gives no lines; a final line
 * without a terminator is kept as it is.
 */
module Lines {
  import opened Pieces

  predicate IsBreak(c: char) { c == '\n' || c == '\r' }

  /** Index of the first line terminator of `s`, or `|s|` when there is none. */
  function BreakIndex(s: string): (i: nat)
    ensures i <= |s|
    ensures forall j :: 0 <= j < i ==> !IsBreak(s[j])
    ensures i < |s| ==> IsBreak(s[i])
  {
    if s == [] || IsBreak(s[0]) then 0
    else
      var i := 1 + BreakIndex(s[1..]);
      assert forall j :: 1 <= j < i ==> s[j] == s[1..][j - 1];
      i
  }

  /** Length of the first line of `s`, its terminator included. */
  function FirstLineLength(s: string): (k: nat)
    requires s != []
    ensures 1 <= k <= |s|
  {
    var i := BreakIndex(s);
    if i == |s| then |s|
    else if s[i] == '\r' && i + 1 < |s| && s[i + 1] == '\n' then i + 2
    else i + 1
  }

  function SplitLinesKeepEnds(s: string): seq<string>
    decreases |s|
  {
    if s == [] then []
    else
      var k := FirstLineLength(s);
      [s[..k]] + SplitLinesKeepEnds(s[k..])
  }

  /** A line as `splitlines(True)` produces it. */
  predicate WellFormedLine(l: string, last: bool)
  {
    && l != []
    && (forall j :: 0 <= j < |l| - 1 ==> !IsBreak(l[j]) || (j == |l| - 2 && l[j] == '\r' && l[j + 1] == '\n'))
    && (!last ==> IsBreak(l[|l| - 1]))
  }

  /** The first line of a non-empty text is a well-formed line. */
  lemma FirstLineWellFormed(s: string)
    requires s != []
    ensures WellFormedLine(s[..FirstLineLength(s)], FirstLineLength(s) == |s|)
  {
    var i, k := BreakIndex(s), FirstLineLength(s);
    var l := s[..k];
    forall j | 0 <= j < |l| - 1
      ensures !IsBreak(l[j]) || (j == |l| - 2 && l[j] == '\r' && l[j + 1] == '\n')
    {
      if j >= i {
        assert j == i && k == i + 2;
      }
    }
  }

  predicate AllLinesWellFormed(ls: seq<string>)
  {
    forall i :: 0 <= i < |ls| ==> WellFormedLine(ls[i], i == |ls| - 1)
  }

  /** No "\r\n" pair is cut in two: a line ending in '\r' is never followed by one starting with '\n'. */
  predicate CrLfKept(ls: seq<string>)
  {
    forall i :: 0 <= i < |ls| - 1 && ls[i] != [] && ls[i + 1] != [] ==>
      !(ls[i][|ls[i]| - 1] == '\r' && ls[i + 1][0] == '\n')
  }

  /** The first line ends in '\r' only when no '\n' follows it. */
  lemma FirstLineCrLf(s: string)
    requires s != [] && FirstLineLength(s) < |s|
    ensures s[FirstLineLength(s) - 1] == '\r' ==> s[FirstLineLength(s)] != '\n'
  {
  }

  /** Keeping the line ends loses nothing: joining the lines gives the text back. */
  lemma {:induction false} SplitLinesKeepEndsConcat(s: string)
    ensures Concat(SplitLinesKeepEnds(s)) == s
    decreases |s|
  {
    if s != [] {
      var k := FirstLineLength(s);
      SplitLinesKeepEndsConcat(s[k..]);
      assert s[..k] + s[k..] == s;
    }
  }

  /**
   * Each line is non-empty, holds no terminator before its own, and ends
   * with one unless it is the last; a "\r\n" pair always stays in one line.
   */
  lemma {:induction false} SplitLinesKeepEndsLines(s: string)
    ensures AllLinesWellFormed(SplitLinesKeepEnds(s))
    ensures CrLfKept(SplitLinesKeepEnds(s))
    decreases |s|
  {
    if s != [] {
      var k := FirstLineLength(s);
      var ls := SplitLinesKeepEnds(s);
      var rest := SplitLinesKeepEnds(s[k..]);
      SplitLinesKeepEndsLines(s[k..]);
      assert ls == [s[..k]] + rest;
      FirstLineWellFormed(s);
      assert k == |s| <==> rest == [];
      forall i | 1 <= i < |ls|
        ensures WellFormedLine(ls[i], i == |ls| - 1)
      {
        assert ls[i] == rest[i - 1];
        assert WellFormedLine(rest[i - 1], i - 1 == |rest| - 1);
      }
      if rest != [] {
        FirstLineCrLf(s);
        assert rest[0][0] == s[k];
      }
      forall i | 1 <= i < |ls| - 1 && ls[i] != [] && ls[i + 1] != []
        ensures !(ls[i][|ls[i]| - 1] == '\r' && ls[i + 1][0] == '\n')
      {
        assert ls[i] == rest[i - 1] && ls[i + 1] == rest[i];
      }
    }
  }

  /** The lines of a text rendered as literal pieces give the text back. */
  lemma BodyPiecesRender(s: string, env: Env)
    ensures Render(Lits(SplitLinesKeepEnds(s)), env) == s
    ensures Deferred(Lits(SplitLinesKeepEnds(s))) == []
  {
    SplitLinesKeepEndsConcat(s);
    RenderLits(SplitLinesKeepEnds(s), env);
  }
}
