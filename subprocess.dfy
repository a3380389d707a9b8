/**
 * The result of running a program such as `ollama run` or `ollama list`:
 * its exit status and its standard output, or an exception raised by the
 * call (timeout, missing executable). The run itself is not modelled.
 */
module Subprocess {
  import opened Text

  datatype RunOutcome = Ran(returncode: int, stdout: string) | RunFailed
  {
    /** `result.returncode == 0` for a call that returned. */
    predicate Succeeded()
    {
      Ran? && returncode == 0
    }

    /** `result.returncode == 0 and result.stdout`. */
    predicate Produced()
    {
      Ran? && returncode == 0 && |stdout| > 0
    }
  }

  /** `out.strip().split('\n')[0].strip()`: the first line of the output, trimmed. */
  function FirstLine(out: string): string
  {
    Strip(Split(Strip(out), '\n')[0])
  }

  /** The first line is a single trimmed line taken from the output. */
  lemma FirstLineShape(out: string)
    ensures '\n' !in FirstLine(out)
    ensures |FirstLine(out)| > 0 ==> !IsSpace(FirstLine(out)[0]) && !IsSpace(FirstLine(out)[|FirstLine(out)| - 1])
    ensures |FirstLine(out)| <= |out|
  {
    var t := Strip(out);
    var line := Split(t, '\n')[0];
    SplitHead(t, '\n');
    assert line == t[..IndexOf(t, '\n')];
    assert '\n' !in line;
    StripSpec(line);
    var r := Strip(line);
    var a, b :| 0 <= a <= b <= |line| && r == line[a..b];
    assert '\n' !in r by {
      forall k | 0 <= k < |r| ensures r[k] != '\n' {
        assert r[k] == line[a + k];
      }
    }
  }
}
