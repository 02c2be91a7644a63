/**
 * The bounded console log (src/ui/consolecapture.hpp): text written to the
 * redirected standard output and error streams is collected in two string
 * buffers, and `update` moves it into a list of at most 1000 lines.
 *
 * The stream redirection itself (startCapture, stopCapture) and the mutex
 * are left out; writes to the redirected streams are the methods WriteOut
 * and WriteErr.
 */
module ConsoleLog {

  const MAX_LINES: nat := 1000
  const ERROR_PREFIX: string := "[ERROR] "

  /** The last n elements of s (all of s when it is shorter), in order. */
  function Newest<T>(s: seq<T>, n: nat): (r: seq<T>)
    ensures |r| == if |s| <= n then |s| else n
    ensures r == s[|s| - |r|..]
    ensures |s| <= n ==> r == s
  {
    if |s| > n then s[|s| - n..] else s
  }

  /** Trimming after every append keeps the same lines as trimming once at the end. */
  lemma NewestAbsorbs<T>(a: seq<T>, b: seq<T>, n: nat)
    ensures Newest(Newest(a, n) + b, n) == Newest(a + b, n)
  {
    var t := Newest(a, n);
    var lhs := Newest(t + b, n);
    var rhs := Newest(a + b, n);
    assert |lhs| == |rhs|;
    forall i | 0 <= i < |lhs|
      ensures lhs[i] == rhs[i]
    {
      var j := |t + b| - |lhs| + i;
      var k := |a + b| - |rhs| + i;
      assert lhs[i] == (t + b)[j];
      assert rhs[i] == (a + b)[k];
      if j < |t| {
        assert (t + b)[j] == t[j] == a[|a| - |t| + j];
        assert k == |a| - |t| + j;
      } else {
        assert (t + b)[j] == b[j - |t|];
        assert k - |a| == j - |t|;
      }
    }
  }

  /** The lines one update contributes: stdout's text, then stderr's text behind the error prefix. */
  function Captured(cout: string, cerr: string): (r: seq<string>)
    ensures |r| == (if cout != "" then 1 else 0) + (if cerr != "" then 1 else 0)
    ensures cout != "" ==> r[0] == cout
    ensures cerr != "" ==> r[|r| - 1] == ERROR_PREFIX + cerr
    ensures forall line | line in r :: line != ""
  {
    (if cout != "" then [cout] else []) + (if cerr != "" then [ERROR_PREFIX + cerr] else [])
  }

  class ConsoleCapture {
    var coutBuffer: string
    var cerrBuffer: string
    var lines: seq<string>

    predicate Valid()
      reads this
    {
      |lines| <= MAX_LINES
    }

    constructor()
      ensures coutBuffer == "" && cerrBuffer == "" && lines == []
      ensures Valid()
    {
      coutBuffer := "";
      cerrBuffer := "";
      lines := [];
    }

    /** Text written to std::cout while it is redirected. */
    method WriteOut(text: string)
      modifies this
      ensures coutBuffer == old(coutBuffer) + text
      ensures cerrBuffer == old(cerrBuffer) && lines == old(lines)
    {
      coutBuffer := coutBuffer + text;
    }

    /** Text written to std::cerr while it is redirected. */
    method WriteErr(text: string)
      modifies this
      ensures cerrBuffer == old(cerrBuffer) + text
      ensures coutBuffer == old(coutBuffer) && lines == old(lines)
    {
      cerrBuffer := cerrBuffer + text;
    }

    /**
     * update: each non-empty buffer becomes one line (stderr's prefixed)
     * and is emptied; then the oldest lines are erased down to MAX_LINES.
     */
    method Update()
      modifies this
      ensures coutBuffer == "" && cerrBuffer == ""
      ensures lines == Newest(old(lines) + Captured(old(coutBuffer), old(cerrBuffer)), MAX_LINES)
      ensures Valid()
    {
      var coutStr := coutBuffer;
      if coutStr != "" {
        lines := lines + [coutStr];
        coutBuffer := "";
      }
      var cerrStr := cerrBuffer;
      if cerrStr != "" {
        lines := lines + [ERROR_PREFIX + cerrStr];
        cerrBuffer := "";
      }
      if |lines| > MAX_LINES {
        lines := lines[|lines| - MAX_LINES..];
      }
    }

    method GetLines() returns (r: seq<string>)
      ensures r == lines
    {
      r := lines;
    }

    method Clear()
      modifies this
      ensures lines == []
      ensures coutBuffer == old(coutBuffer) && cerrBuffer == old(cerrBuffer)
      ensures Valid()
    {
      lines := [];
    }
  }

  /** The lines after a run of updates, each with the text captured before it. */
  function UpdateAll(lines: seq<string>, batches: seq<seq<string>>): seq<string>
    decreases |batches|
  {
    if |batches| == 0 then lines
    else UpdateAll(Newest(lines + batches[0], MAX_LINES), batches[1..])
  }

  function Concat(batches: seq<seq<string>>): seq<string>
    decreases |batches|
  {
    if |batches| == 0 then [] else batches[0] + Concat(batches[1..])
  }

  /**
   * However the output is split across frames, the log holds the newest
   * MAX_LINES of everything captured, in order: trimming loses nothing a
   * single trim at the end would keep.
   */
  lemma {:induction false} UpdatesKeepNewest(lines: seq<string>, batches: seq<seq<string>>)
    ensures UpdateAll(Newest(lines, MAX_LINES), batches) == Newest(lines + Concat(batches), MAX_LINES)
    decreases |batches|
  {
    if |batches| == 0 {
      assert lines + Concat(batches) == lines;
      assert Newest(Newest(lines, MAX_LINES), MAX_LINES) == Newest(lines, MAX_LINES);
    } else {
      NewestAbsorbs(lines, batches[0], MAX_LINES);
      UpdatesKeepNewest(lines + batches[0], batches[1..]);
      assert (lines + batches[0]) + Concat(batches[1..]) == lines + Concat(batches);
    }
  }
}
