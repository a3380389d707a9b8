/**
 * What the two slash-command helpers do with `ollama list` before they call
 * `ollama run`: collect the first word of every non-blank line after the
 * header, and pick the first preferred model whose name starts with the
 * base name of a listed one, else the first listed model.
 */
module OllamaCli {
  import opened Wrappers
  import opened Text
  import opened Subprocess
  import opened Positions

  /** `stdout.strip().split('\n')[1:]`: the listing without its header line. */
  function ListingLines(stdout: string): seq<string>
  {
    Split(Strip(stdout), '\n')[1..]
  }

  /** A line the loop rejects: non-empty, yet `line.split()[0]` raises `IndexError`. */
  predicate Unparsable(line: string)
  {
    |line| > 0 && |Words(line)| == 0
  }

  /**
   * The list the appending loop builds: the first word of each non-empty line,
   * in order; None when some line is `Unparsable`, since the exception ends
   * the whole call.
   */
  function ListedModels(lines: seq<string>): (r: Option<seq<string>>)
    ensures r.None? <==> exists i :: 0 <= i < |lines| && Unparsable(lines[i])
    ensures r.Some? ==> |r.value| <= |lines|
    ensures r.Some? ==> forall m :: m in r.value ==> |m| > 0 && NoSpace(m)
    ensures r.Some? ==> forall m :: m in r.value <==>
      (exists i :: 0 <= i < |lines| && |lines[i]| > 0 && Words(lines[i])[0] == m)
  {
    if |lines| == 0 then Some([])
    else
      var rest := ListedModels(lines[1..]);
      assert forall i :: 1 <= i < |lines| ==> lines[1..][i - 1] == lines[i];
      if Unparsable(lines[0]) then None
      else if rest.None? then None
      else if |lines[0]| == 0 then rest
      else Some([Words(lines[0])[0]] + rest.value)
  }

  /** Whether each line is non-empty, the test of `if line:`. */
  function NonEmptyFlags(lines: seq<string>): seq<bool>
  {
    seq(|lines|, i requires 0 <= i < |lines| => |lines[i]| > 0)
  }

  /** The first word of each line, "" for a line without one. */
  function FirstWords(lines: seq<string>): seq<string>
  {
    seq(|lines|, i requires 0 <= i < |lines| => if |Words(lines[i])| > 0 then Words(lines[i])[0] else "")
  }

  lemma LinesTail(lines: seq<string>)
    requires |lines| > 0
    ensures NonEmptyFlags(lines)[1..] == NonEmptyFlags(lines[1..])
    ensures FirstWords(lines)[1..] == FirstWords(lines[1..])
  {
    var f, f1 := NonEmptyFlags(lines), NonEmptyFlags(lines[1..]);
    forall k | 0 <= k < |f1| ensures f[1..][k] == f1[k] {
      assert lines[1..][k] == lines[k + 1];
    }
    var w, w1 := FirstWords(lines), FirstWords(lines[1..]);
    forall k | 0 <= k < |w1| ensures w[1..][k] == w1[k] {
      assert lines[1..][k] == lines[k + 1];
    }
  }

  /** `ListedModels` unfolded once. */
  lemma ListedModelsFirst(lines: seq<string>)
    requires |lines| > 0
    ensures ListedModels(lines) ==
      if Unparsable(lines[0]) then None
      else if |lines[0]| == 0 then ListedModels(lines[1..])
      else Prepend([FirstWords(lines)[0]], ListedModels(lines[1..]))
  {
  }

  /** The first line contributes its first word, when it is non-empty, in front of what the rest gives. */
  lemma ListedModelsHead(lines: seq<string>)
    requires |lines| > 0 && ListedModels(lines).Some?
    ensures ListedModels(lines[1..]).Some?
    ensures NonEmptyFlags(lines)[1..] == NonEmptyFlags(lines[1..])
    ensures FirstWords(lines)[1..] == FirstWords(lines[1..])
    ensures ListedModels(lines).value ==
      (if NonEmptyFlags(lines)[0] then [FirstWords(lines)[0]] else []) + ListedModels(lines[1..]).value
  {
    LinesTail(lines);
    ListedModelsFirst(lines);
    var rest := ListedModels(lines[1..]);
    if |lines[0]| == 0 {
      assert [] + rest.value == rest.value;
    }
  }

  /**
   * The loop appends in line order and once per line: the models are the first
   * words read at exactly the positions of the non-empty lines, in increasing order.
   */
  lemma {:induction false} ListedModelsInOrder(lines: seq<string>)
    requires ListedModels(lines).Some?
    ensures PicksAt(ListedModels(lines).value, FirstWords(lines), TruePositions(NonEmptyFlags(lines)))
    ensures forall j :: 0 <= j < |lines| ==> (j in TruePositions(NonEmptyFlags(lines)) <==> |lines[j]| > 0)
  {
    var flags := NonEmptyFlags(lines);
    if |lines| > 0 {
      ListedModelsHead(lines);
      ListedModelsInOrder(lines[1..]);
      PicksAtStep(ListedModels(lines).value, ListedModels(lines[1..]).value, FirstWords(lines), flags);
    } else {
      assert PicksAt([], FirstWords(lines), []);
    }
    TruePositionsExact(flags);
  }

  /** `ms + rest` carried through a result that may be the exception. */
  function Prepend(ms: seq<string>, rest: Option<seq<string>>): Option<seq<string>>
  {
    if rest.Some? then Some(ms + rest.value) else None
  }

  /** One step of the loop: the line at `i` is skipped, rejected, or contributes its first word. */
  lemma ListedModelsStep(lines: seq<string>, i: nat)
    requires i < |lines|
    ensures ListedModels(lines[i..]) ==
      if Unparsable(lines[i]) then None
      else if |lines[i]| == 0 then ListedModels(lines[i + 1..])
      else Prepend([Words(lines[i])[0]], ListedModels(lines[i + 1..]))
  {
    assert lines[i..][1..] == lines[i + 1..];
  }

  lemma PrependAssoc(a: seq<string>, b: seq<string>, rest: Option<seq<string>>)
    ensures Prepend(a, Prepend(b, rest)) == Prepend(a + b, rest)
  {
    if rest.Some? {
      assert a + (b + rest.value) == (a + b) + rest.value;
    }
  }

  lemma PrependEmpty(rest: Option<seq<string>>)
    ensures Prepend([], rest) == rest
  {
    if rest.Some? {
      assert [] + rest.value == rest.value;
    }
  }

  /** The parsing loop of `generate_developer_encouragement` and `generate_joke_with_ollama`. */
  method ParseListing(stdout: string) returns (models: Option<seq<string>>)
    ensures models == ListedModels(ListingLines(stdout))
  {
    var lines := ListingLines(stdout);
    var collected: seq<string> := [];
    var i := 0;
    assert lines[0..] == lines;
    assert Prepend([], ListedModels(lines)) == ListedModels(lines) by { PrependEmpty(ListedModels(lines)); }
    while i < |lines|
      invariant 0 <= i <= |lines|
      invariant ListedModels(lines) == Prepend(collected, ListedModels(lines[i..]))
    {
      var line := lines[i];
      ListedModelsStep(lines, i);
      if |line| > 0 {
        var parts := Words(line);
        if |parts| == 0 {
          return None;
        }
        PrependAssoc(collected, [parts[0]], ListedModels(lines[i + 1..]));
        collected := collected + [parts[0]];
      }
      i := i + 1;
    }
    assert lines[|lines|..] == [];
    assert collected + [] == collected;
    return Some(collected);
  }

  /** `any(m.startswith(pm.split(':')[0]) for pm in models)`. */
  predicate MatchesListed(m: string, models: seq<string>)
  {
    exists pm :: pm in models && Split(pm, ':')[0] <= m
  }

  /** `next((m for m in preferred if ...), None)`: the first preferred model that matches a listed one. */
  function FirstMatching(preferred: seq<string>, models: seq<string>): (r: Option<string>)
    ensures r.None? <==> forall i :: 0 <= i < |preferred| ==> !MatchesListed(preferred[i], models)
    ensures r.Some? ==> exists i :: (&& 0 <= i < |preferred| && r.value == preferred[i]
                                     && MatchesListed(preferred[i], models)
                                     && forall j :: 0 <= j < i ==> !MatchesListed(preferred[j], models))
  {
    if |preferred| == 0 then None
    else if MatchesListed(preferred[0], models) then
      assert 0 < |preferred| && Some(preferred[0]).value == preferred[0];
      Some(preferred[0])
    else
      var r := FirstMatching(preferred[1..], models);
      assert forall i :: 1 <= i < |preferred| ==> preferred[1..][i - 1] == preferred[i];
      if r.Some? then
        var i :| (&& 0 <= i < |preferred[1..]| && r.value == preferred[1..][i]
                  && MatchesListed(preferred[1..][i], models)
                  && forall j :: 0 <= j < i ==> !MatchesListed(preferred[1..][j], models));
        assert forall j :: 0 <= j < i + 1 ==> !MatchesListed(preferred[j], models) by {
          forall j | 0 <= j < i + 1 ensures !MatchesListed(preferred[j], models) {
            if j > 0 { assert preferred[j] == preferred[1..][j - 1]; }
          }
        }
        r
      else r
  }

  /** The model `ollama run` is called with: the first matching preferred model, else the first listed one. */
  function PickModel(preferred: seq<string>, models: seq<string>): (m: string)
    requires |models| > 0
    ensures m in preferred || m == models[0]
    ensures m in preferred && m != models[0] ==> MatchesListed(m, models)
    ensures (forall i :: 0 <= i < |preferred| ==> !MatchesListed(preferred[i], models)) ==> m == models[0]
    ensures forall i :: (&& 0 <= i < |preferred| && MatchesListed(preferred[i], models)
                         && forall j :: 0 <= j < i ==> !MatchesListed(preferred[j], models)) ==> m == preferred[i]
  {
    var r := FirstMatching(preferred, models);
    if r.Some? then
      var k :| (&& 0 <= k < |preferred| && r.value == preferred[k]
                && MatchesListed(preferred[k], models)
                && forall j :: 0 <= j < k ==> !MatchesListed(preferred[j], models));
      assert forall i :: (&& 0 <= i < |preferred| && MatchesListed(preferred[i], models)
                          && forall j :: 0 <= j < i ==> !MatchesListed(preferred[j], models)) ==> i == k;
      r.value
    else models[0]
  }

  /** A listed model that is itself preferred always matches, so a preferred model is chosen. */
  lemma ListedPreferredWins(preferred: seq<string>, models: seq<string>, k: nat)
    requires k < |preferred| && preferred[k] in models
    ensures FirstMatching(preferred, models).Some?
    ensures PickModel(preferred, models) in preferred
  {
    SplitHead(preferred[k], ':');
    assert Split(preferred[k], ':')[0] <= preferred[k];
    assert MatchesListed(preferred[k], models);
  }

  /**
   * The shared path of both helpers: a successful `ollama list` with at least
   * one parsable model, then `ollama run` on the picked model answering with
   * something besides whitespace; the answer is `stdout.strip()`. `answer`
   * gives the outcome of `ollama run` for each model name. Any other outcome,
   * including the exceptions the helpers catch, is None.
   */
  function Reply(list: RunOutcome, answer: string -> RunOutcome, preferred: seq<string>): (r: Option<string>)
    ensures r.Some? <==>
      (&& list.Succeeded()
       && ListedModels(ListingLines(list.stdout)).Some?
       && |ListedModels(ListingLines(list.stdout)).value| > 0
       && answer(PickModel(preferred, ListedModels(ListingLines(list.stdout)).value)).Succeeded()
       && |Strip(answer(PickModel(preferred, ListedModels(ListingLines(list.stdout)).value)).stdout)| > 0)
    ensures r.Some? ==> r.value == Strip(answer(PickModel(preferred, ListedModels(ListingLines(list.stdout)).value)).stdout)
  {
    if !list.Succeeded() then None
    else
      var models := ListedModels(ListingLines(list.stdout));
      if models.None? || |models.value| == 0 then None
      else
        var out := answer(PickModel(preferred, models.value));
        if out.Succeeded() && |Strip(out.stdout)| > 0 then Some(Strip(out.stdout)) else None
  }

  /** The same path with the parsing loop. */
  method Ask(list: RunOutcome, answer: string -> RunOutcome, preferred: seq<string>) returns (r: Option<string>)
    ensures r == Reply(list, answer, preferred)
  {
    if !list.Succeeded() {
      return None;
    }
    var models := ParseListing(list.stdout);
    if models.None? || |models.value| == 0 {
      return None;
    }
    var out := answer(PickModel(preferred, models.value));
    if out.Succeeded() && |Strip(out.stdout)| > 0 {
      return Some(Strip(out.stdout));
    }
    return None;
  }

  /** A reply is non-empty and has no whitespace at either end. */
  lemma ReplyTrimmed(list: RunOutcome, answer: string -> RunOutcome, preferred: seq<string>)
    requires Reply(list, answer, preferred).Some?
    ensures var s := Reply(list, answer, preferred).value;
      |s| > 0 && !IsSpace(s[0]) && !IsSpace(s[|s| - 1])
  {
    var models := ListedModels(ListingLines(list.stdout)).value;
    StripSpec(answer(PickModel(preferred, models)).stdout);
  }
}
