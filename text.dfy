/**
 * The parts of Python's `str` API that the message pipeline relies on:
 * `isspace`, `strip`, `split(sep)`, `split()`, `join`, slicing `s[:n]`,
 * `startswith`, `in`, plus the `re.sub(r'<[^>]+>', '', s)` tag removal.
 * Characters are Unicode scalar values, like Python code points.
 */
module Text {

  /** Python's `str.isspace` for one character (the Unicode White_Space set). */
  predicate IsSpace(c: char)
  {
    c == ' ' || ('\t' <= c <= '\r') || ('\U{1C}' <= c <= '\U{1F}') || c == '\U{85}' || c == '\U{A0}'
    || c == '\U{1680}' || ('\U{2000}' <= c <= '\U{200A}') || c == '\U{2028}' || c == '\U{2029}'
    || c == '\U{202F}' || c == '\U{205F}' || c == '\U{3000}'
  }

  predicate NoSpace(s: string)
  {
    forall i :: 0 <= i < |s| ==> !IsSpace(s[i])
  }

  /** Number of whitespace characters at the start of `s`. */
  function LeadingSpaces(s: string): (n: nat)
    ensures n <= |s|
    ensures forall i :: 0 <= i < n ==> IsSpace(s[i])
    ensures n < |s| ==> !IsSpace(s[n])
  {
    if |s| == 0 || !IsSpace(s[0]) then 0 else 1 + LeadingSpaces(s[1..])
  }

  /** Number of whitespace characters at the end of `s`. */
  function TrailingSpaces(s: string): (n: nat)
    ensures n <= |s|
    ensures forall i :: |s| - n <= i < |s| ==> IsSpace(s[i])
    ensures n < |s| ==> !IsSpace(s[|s| - n - 1])
  {
    if |s| == 0 || !IsSpace(s[|s| - 1]) then 0 else 1 + TrailingSpaces(s[..|s| - 1])
  }

  function LStrip(s: string): string
  {
    s[LeadingSpaces(s)..]
  }

  function RStrip(s: string): string
  {
    s[..|s| - TrailingSpaces(s)]
  }

  /** `s.strip()`: `s` without its leading and trailing whitespace. */
  function Strip(s: string): string
  {
    RStrip(LStrip(s))
  }

  /** The defining properties of `strip`: a contiguous piece of `s`, with whitespace only cut away and none left at either end. */
  lemma StripSpec(s: string)
    ensures var r := Strip(s);
      && (exists a, b :: 0 <= a <= b <= |s| && r == s[a..b]
            && (forall i :: 0 <= i < a ==> IsSpace(s[i]))
            && (forall i :: b <= i < |s| ==> IsSpace(s[i])))
      && (|r| > 0 ==> !IsSpace(r[0]) && !IsSpace(r[|r| - 1]))
  {
    var a := LeadingSpaces(s);
    var t := s[a..];
    var b := a + |t| - TrailingSpaces(t);
    assert Strip(s) == s[a..b];
    if |Strip(s)| > 0 {
      assert Strip(s)[0] == s[a];
    }
  }

  /** `s.lstrip(c)` and `s.rstrip(c)` for one character `c`. */
  function LStripChar(s: string, c: char): (r: string)
    ensures |r| <= |s| && r == s[|s| - |r|..] && (|r| > 0 ==> r[0] != c)
  {
    if |s| > 0 && s[0] == c then LStripChar(s[1..], c) else s
  }

  function RStripChar(s: string, c: char): (r: string)
    ensures r <= s && (|r| > 0 ==> r[|r| - 1] != c)
  {
    if |s| > 0 && s[|s| - 1] == c then RStripChar(s[..|s| - 1], c) else s
  }

  /** `s[:n]`. */
  function Take(s: string, n: nat): string
  {
    if n <= |s| then s[..n] else s
  }

  /** `s if len(s) <= limit else s[:limit - 3] + "..."`: a cut with an ellipsis that keeps the result within `limit`. */
  function Shorten(s: string, limit: nat): (r: string)
    requires limit >= 3
    ensures |r| <= limit
    ensures |s| <= limit ==> r == s
    ensures |s| > limit ==> |r| == limit && r == s[..limit - 3] + "..."
  {
    if |s| > limit then s[..limit - 3] + "..." else s
  }

  /** `sub in s`. */
  predicate Contains(s: string, sub: string)
    decreases |s|
  {
    sub <= s || (|s| > 0 && Contains(s[1..], sub))
  }

  /** Index of the first `c` in `s`, or `|s|` when there is none. */
  function IndexOf(s: string, c: char): (i: nat)
    ensures i <= |s|
    ensures forall k :: 0 <= k < i ==> s[k] != c
    ensures i < |s| ==> s[i] == c
  {
    if |s| == 0 || s[0] == c then 0 else 1 + IndexOf(s[1..], c)
  }

  /** `s.split(sep)` for a one-character separator: never an empty list. */
  function Split(s: string, sep: char): (parts: seq<string>)
    ensures |parts| >= 1
    decreases |s|
  {
    var i := IndexOf(s, sep);
    if i == |s| then [s] else [s[..i]] + Split(s[i + 1..], sep)
  }

  /** `sep.join(parts)`. */
  function Join(parts: seq<string>, sep: string): string
  {
    if |parts| == 0 then ""
    else if |parts| == 1 then parts[0]
    else parts[0] + sep + Join(parts[1..], sep)
  }

  /** Splitting and joining back with the same separator gives the string back, and no piece holds the separator. */
  lemma {:induction false} SplitJoin(s: string, sep: char)
    ensures Join(Split(s, sep), [sep]) == s
    ensures forall k :: 0 <= k < |Split(s, sep)| ==> sep !in Split(s, sep)[k]
    decreases |s|
  {
    var i := IndexOf(s, sep);
    if i < |s| {
      var rest := s[i + 1..];
      SplitJoin(rest, sep);
      var tail := Split(rest, sep);
      assert Split(s, sep) == [s[..i]] + tail;
      assert ([s[..i]] + tail)[1..] == tail;
      assert s == s[..i] + [sep] + rest;
      forall k | 0 <= k < |Split(s, sep)| ensures sep !in Split(s, sep)[k] {
        if k > 0 { assert Split(s, sep)[k] == tail[k - 1]; }
      }
    }
  }

  lemma {:induction false} IndexOfAfter(a: string, sep: char, b: string)
    requires sep !in a
    ensures IndexOf(a + [sep] + b, sep) == |a|
  {
    if |a| > 0 {
      assert (a + [sep] + b)[1..] == a[1..] + [sep] + b;
      IndexOfAfter(a[1..], sep, b);
    }
  }

  lemma {:induction false} IndexOfAbsent(a: string, sep: char)
    requires sep !in a
    ensures IndexOf(a, sep) == |a|
  {
    if |a| > 0 {
      IndexOfAbsent(a[1..], sep);
    }
  }

  /** Splitting at a first separator: the piece before it, then the split of the rest. */
  lemma SplitAt(a: string, sep: char, b: string)
    requires sep !in a
    ensures Split(a + [sep] + b, sep) == [a] + Split(b, sep)
  {
    IndexOfAfter(a, sep, b);
    var s := a + [sep] + b;
    assert s[..|a|] == a && s[|a| + 1..] == b;
  }

  lemma SplitNone(a: string, sep: char)
    requires sep !in a
    ensures Split(a, sep) == [a]
  {
    IndexOfAbsent(a, sep);
  }

  /** Joining pieces free of the separator and splitting again gives the pieces back. */
  lemma {:induction false} JoinSplit(parts: seq<string>, sep: char)
    requires |parts| >= 1
    requires forall k :: 0 <= k < |parts| ==> sep !in parts[k]
    ensures Split(Join(parts, [sep]), sep) == parts
  {
    if |parts| == 1 {
      SplitNone(parts[0], sep);
    } else {
      JoinSplit(parts[1..], sep);
      SplitAt(parts[0], sep, Join(parts[1..], [sep]));
      assert parts == [parts[0]] + parts[1..];
    }
  }

  /** The first piece of `s.split(sep)` is the text before the first separator. */
  lemma SplitHead(s: string, sep: char)
    ensures Split(s, sep)[0] == s[..IndexOf(s, sep)]
  {
  }

  /** Index of the first whitespace character, or `|s|`. */
  function FirstSpace(s: string): (i: nat)
    ensures i <= |s|
    ensures forall k :: 0 <= k < i ==> !IsSpace(s[k])
    ensures i < |s| ==> IsSpace(s[i])
  {
    if |s| == 0 || IsSpace(s[0]) then 0 else 1 + FirstSpace(s[1..])
  }

  /** `s.split()`: the maximal runs of non-whitespace characters. */
  function Words(s: string): (ws: seq<string>)
    ensures forall k :: 0 <= k < |ws| ==> |ws[k]| > 0 && NoSpace(ws[k])
    decreases |s|
  {
    var t := LStrip(s);
    if |t| == 0 then []
    else
      var n := FirstSpace(t);
      [t[..n]] + Words(t[n..])
  }

  /** `' '.join(s.split())`: every whitespace run becomes one space. */
  function Collapse(s: string): string
  {
    Join(Words(s), " ")
  }

  /** A string with no whitespace at either end and no two adjacent spaces. */
  predicate Tidy(s: string)
  {
    && (|s| > 0 ==> !IsSpace(s[0]) && !IsSpace(s[|s| - 1]))
    && forall i :: 0 <= i < |s| - 1 ==> !(IsSpace(s[i]) && IsSpace(s[i + 1]))
  }

  lemma {:induction false} JoinWordsTidy(ws: seq<string>)
    requires forall k :: 0 <= k < |ws| ==> |ws[k]| > 0 && NoSpace(ws[k])
    ensures Tidy(Join(ws, " "))
    ensures forall i :: 0 <= i < |Join(ws, " ")| && IsSpace(Join(ws, " ")[i]) ==> Join(ws, " ")[i] == ' '
  {
    if |ws| > 1 {
      JoinWordsTidy(ws[1..]);
      var w, rest := ws[0], Join(ws[1..], " ");
      var j := w + " " + rest;
      assert Join(ws, " ") == j;
      forall i | 0 <= i < |j| - 1 ensures !(IsSpace(j[i]) && IsSpace(j[i + 1])) {
        if i < |w| - 1 {
          assert j[i] == w[i];
        } else if i == |w| - 1 {
          assert j[i] == w[i];
        } else if i == |w| {
          assert j[i + 1] == rest[0];
        } else {
          assert j[i] == rest[i - |w| - 1] && j[i + 1] == rest[i - |w|];
        }
      }
      forall i | 0 <= i < |j| ensures IsSpace(j[i]) ==> j[i] == ' ' {
        if i < |w| { assert j[i] == w[i]; }
        else if i > |w| { assert j[i] == rest[i - |w| - 1]; }
      }
      assert j[0] == w[0];
      assert j[|j| - 1] == rest[|rest| - 1];
    }
  }

  /** The result of collapsing whitespace has no whitespace at either end, no adjacent whitespace, and only plain spaces as whitespace. */
  lemma CollapseTidy(s: string)
    ensures Tidy(Collapse(s))
    ensures forall i :: 0 <= i < |Collapse(s)| && IsSpace(Collapse(s)[i]) ==> Collapse(s)[i] == ' '
  {
    JoinWordsTidy(Words(s));
  }

  /**
   * `re.sub(r'<[^>]+>', '', s)`: scanning from the left, a `<` followed by at
   * least one non-`>` character and then a `>` is removed up to and including
   * that `>`; a `<` without such a match is kept and the scan moves on.
   */
  function RemoveTags(s: string): (r: string)
    ensures |r| <= |s|
    decreases |s|
  {
    if |s| == 0 then ""
    else if s[0] == '<' && 1 + IndexOf(s[1..], '>') < |s| && IndexOf(s[1..], '>') >= 1 then
      RemoveTags(s[2 + IndexOf(s[1..], '>')..])
    else
      [s[0]] + RemoveTags(s[1..])
  }

  /** `s` holds a match of `<[^>]+>` starting at index `i`. */
  predicate TagAt(s: string, i: int)
  {
    0 <= i < |s| && s[i] == '<' && 1 + IndexOf(s[i + 1..], '>') < |s| - i && IndexOf(s[i + 1..], '>') >= 1
  }

  predicate NoTag(s: string)
  {
    forall i :: 0 <= i < |s| ==> !TagAt(s, i)
  }

  lemma {:induction false} RemoveTagsKeepsNoNewGt(s: string)
    requires '>' !in s
    ensures '>' !in RemoveTags(s)
    decreases |s|
  {
    if |s| > 0 {
      assert '>' !in s[1..];
      RemoveTagsKeepsNoNewGt(s[1..]);
    }
  }

  lemma {:induction false} RemoveTagsHead(s: string)
    requires |s| > 0 && s[0] == '>'
    ensures |RemoveTags(s)| > 0 && RemoveTags(s)[0] == '>'
  {
  }

  lemma {:induction false} TagAtShift(c: char, s: string, i: int)
    requires 0 <= i < |s|
    ensures TagAt([c] + s, i + 1) == TagAt(s, i)
  {
    assert ([c] + s)[i + 1..] == s[i..];
    assert ([c] + s)[i + 2..] == s[i + 1..];
  }

  /** The tag removal leaves no tag behind. */
  lemma {:induction false} RemoveTagsNoTag(s: string)
    ensures NoTag(RemoveTags(s))
    decreases |s|
  {
    if |s| > 0 {
      var j := IndexOf(s[1..], '>');
      if s[0] == '<' && 1 + j < |s| && j >= 1 {
        RemoveTagsNoTag(s[2 + j..]);
      } else {
        var rest := RemoveTags(s[1..]);
        RemoveTagsNoTag(s[1..]);
        var r := [s[0]] + rest;
        assert RemoveTags(s) == r;
        forall i | 0 <= i < |r| ensures !TagAt(r, i) {
          if i > 0 {
            TagAtShift(s[0], rest, i - 1);
          } else if s[0] == '<' {
            if 1 + j < |s| {
              // the next '>' comes straight after the '<'
              assert j == 0;
              RemoveTagsHead(s[1..]);
              assert r[1..][0] == '>';
              assert IndexOf(r[1..], '>') == 0;
            } else {
              assert '>' !in s[1..];
              RemoveTagsKeepsNoNewGt(s[1..]);
              assert r[1..] == rest;
              assert IndexOf(r[1..], '>') == |rest|;
            }
          }
        }
      }
    }
  }

  /** On text without tags the removal changes nothing, so applying it twice is the same as once. */
  lemma {:induction false} RemoveTagsIdentity(s: string)
    requires NoTag(s)
    ensures RemoveTags(s) == s
    decreases |s|
  {
    if |s| > 0 {
      assert !TagAt(s, 0);
      forall i | 0 <= i < |s[1..]| ensures !TagAt(s[1..], i) {
        TagAtShift(s[0], s[1..], i);
        assert [s[0]] + s[1..] == s;
        assert !TagAt(s, i + 1);
      }
      RemoveTagsIdentity(s[1..]);
    }
  }

  lemma RemoveTagsIdempotent(s: string)
    ensures RemoveTags(RemoveTags(s)) == RemoveTags(s)
  {
    RemoveTagsNoTag(s);
    RemoveTagsIdentity(RemoveTags(s));
  }

  /** No match of `<[^>]+>`, read character by character: a `<` is followed by `>` at once, or by no `>` at all. */
  predicate TagFree(s: string)
  {
    forall i :: 0 <= i < |s| && s[i] == '<' ==> (i + 1 < |s| && s[i + 1] == '>') || '>' !in s[i + 1..]
  }

  lemma NoTagTagFree(s: string)
    ensures NoTag(s) <==> TagFree(s)
  {
    forall i | 0 <= i < |s| && s[i] == '<'
      ensures TagAt(s, i) <==> !((i + 1 < |s| && s[i + 1] == '>') || '>' !in s[i + 1..])
    {
      var rest := s[i + 1..];
      var j := IndexOf(rest, '>');
      assert j < |rest| <==> '>' in rest;
      assert |rest| > 0 ==> rest[0] == s[i + 1];
    }
  }

  /** A piece of a tag-free string is tag-free. */
  lemma TagFreeSlice(s: string, a: nat, b: nat)
    requires a <= b <= |s| && TagFree(s)
    ensures TagFree(s[a..b])
  {
    var r := s[a..b];
    forall i | 0 <= i < |r| && r[i] == '<' ensures (i + 1 < |r| && r[i + 1] == '>') || '>' !in r[i + 1..] {
      assert s[a + i] == '<';
      if !(i + 1 < |r| && r[i + 1] == '>') && a + i + 1 < b {
        assert s[a + i + 1] == r[i + 1];
        assert '>' !in s[a + i + 1..];
      }
    }
  }

  /** Two tag-free pieces joined by a space, where no open `<` of the first meets a `>` of the second. */
  lemma SpaceJoinTagFree(w: string, j: string)
    requires TagFree(w) && TagFree(j)
    requires forall i :: 0 <= i < |w| && w[i] == '<' && !(i + 1 < |w| && w[i + 1] == '>') ==> '>' !in j
    ensures TagFree(w + " " + j)
  {
    var r := w + " " + j;
    forall i | 0 <= i < |r| && r[i] == '<' ensures (i + 1 < |r| && r[i + 1] == '>') || '>' !in r[i + 1..] {
      if i < |w| {
        assert r[i] == w[i];
        if !(i + 1 < |w| && w[i + 1] == '>') {
          assert r[i + 1..] == w[i + 1..] + " " + j;
        } else {
          assert r[i + 1] == w[i + 1];
        }
      } else {
        assert i > |w| && r[i] == j[i - |w| - 1];
        assert r[i + 1..] == j[i - |w|..];
      }
    }
  }

  /** `Collapse` peels off the first word. */
  lemma CollapseUnfold(s: string)
    requires |LStrip(s)| > 0
    ensures var t := LStrip(s); var n := FirstSpace(t);
      Collapse(s) == if |Words(t[n..])| == 0 then t[..n] else t[..n] + " " + Collapse(t[n..])
  {
    var t := LStrip(s);
    var n := FirstSpace(t);
    var ws := Words(t[n..]);
    assert Words(s) == [t[..n]] + ws;
    assert ([t[..n]] + ws)[1..] == ws;
  }

  /** In a tag-free text, a `<` of the first word not closed at once sees no `>` after the word, so none in `j` either. */
  lemma HeadWordOpen(t: string, n: nat, j: string)
    requires TagFree(t) && n < |t| && IsSpace(t[n])
    requires '>' in j ==> '>' in t[n..]
    ensures forall i :: 0 <= i < n && t[..n][i] == '<' && !(i + 1 < n && t[..n][i + 1] == '>') ==> '>' !in j
  {
    forall i | 0 <= i < n && t[..n][i] == '<' && !(i + 1 < n && t[..n][i + 1] == '>') ensures '>' !in j {
      assert t[i] == '<' && t[i + 1] != '>';
      assert t[n..] == t[i + 1..][n - i - 1..];
    }
  }

  /** The first word of a tag-free text, a space, then a tag-free `j` with no `>` the text lacks after the word. */
  lemma HeadWordJoin(t: string, n: nat, j: string)
    requires TagFree(t) && n < |t| && IsSpace(t[n]) && TagFree(j)
    requires '>' in j ==> '>' in t[n..]
    ensures TagFree(t[..n] + " " + j)
  {
    TagFreeSlice(t, 0, n);
    HeadWordOpen(t, n, j);
    SpaceJoinTagFree(t[..n], j);
  }

  /** Collapsing whitespace keeps a string tag-free and brings in no `>`. */
  lemma {:induction false} CollapseTagFree(s: string)
    requires TagFree(s)
    ensures TagFree(Collapse(s))
    ensures '>' in Collapse(s) ==> '>' in s
    decreases |s|
  {
    var t := LStrip(s);
    if |t| > 0 {
      var n := FirstSpace(t);
      var w, u := t[..n], t[n..];
      CollapseUnfold(s);
      TagFreeSlice(s, LeadingSpaces(s), |s|);
      TagFreeSlice(t, n, |t|);
      TagFreeSlice(t, 0, n);
      CollapseTagFree(u);
      GtInPieces(s, LeadingSpaces(s), n, Collapse(u));
      if |Words(u)| > 0 {
        HeadWordJoin(t, n, Collapse(u));
      }
    }
  }

  /** A `>` in the first word of `s[a..]`, or in a `j` whose `>` comes from after that word, is a `>` of `s`. */
  lemma GtInPieces(s: string, a: nat, n: nat, j: string)
    requires a <= |s| && n <= |s| - a
    requires '>' in j ==> '>' in s[a..][n..]
    ensures '>' in s[a..][..n] ==> '>' in s
    ensures '>' in s[a..][..n] + " " + j ==> '>' in s
  {
    var t := s[a..];
    assert t[..n] == s[a..a + n];
    assert t[n..] == s[a + n..];
  }

  /** The characterisation of `LeadingSpaces`. */
  lemma {:induction false} LeadingSpacesAt(s: string, n: nat)
    requires n <= |s| && (forall i :: 0 <= i < n ==> IsSpace(s[i])) && (n < |s| ==> !IsSpace(s[n]))
    ensures LeadingSpaces(s) == n
  {
    if n > 0 {
      LeadingSpacesAt(s[1..], n - 1);
    }
  }

  /** The characterisation of `FirstSpace`. */
  lemma {:induction false} FirstSpaceAt(s: string, n: nat)
    requires n <= |s| && (forall i :: 0 <= i < n ==> !IsSpace(s[i])) && (n < |s| ==> IsSpace(s[n]))
    ensures FirstSpace(s) == n
  {
    if n > 0 {
      FirstSpaceAt(s[1..], n - 1);
    }
  }

  lemma WordsLStrip(s: string)
    ensures Words(LStrip(s)) == Words(s)
  {
    assert LeadingSpaces(LStrip(s)) == 0;
  }

  /** One step of `split()`: the first word, then the words of the rest. */
  lemma WordsAllSpace(s: string)
    requires forall i :: 0 <= i < |s| ==> IsSpace(s[i])
    ensures Words(s) == []
  {
    LeadingSpacesAt(s, |s|);
  }

  lemma {:induction false} LeadingSpacesConcat(u: string, sp: string)
    requires LeadingSpaces(u) < |u|
    ensures LeadingSpaces(u + sp) == LeadingSpaces(u)
  {
    if IsSpace(u[0]) {
      assert (u + sp)[1..] == u[1..] + sp;
      LeadingSpacesConcat(u[1..], sp);
    }
  }

  lemma {:induction false} FirstSpaceConcat(u: string, sp: string)
    requires |sp| > 0 && IsSpace(sp[0])
    ensures FirstSpace(u + sp) == FirstSpace(u)
  {
    if |u| > 0 && !IsSpace(u[0]) {
      assert (u + sp)[1..] == u[1..] + sp;
      FirstSpaceConcat(u[1..], sp);
    }
  }

  lemma LStripConcat(u: string, sp: string)
    requires LeadingSpaces(u) < |u|
    ensures LStrip(u + sp) == LStrip(u) + sp
  {
    LeadingSpacesConcat(u, sp);
    SliceConcat(u, sp, LeadingSpaces(u));
  }

  /** `Words` unfolded once, with the stripped text and its first space named. */
  lemma WordsAt(s: string, t: string, n: nat)
    requires LStrip(s) == t && |t| > 0 && FirstSpace(t) == n
    ensures Words(s) == [t[..n]] + Words(t[n..])
  {
  }

  /** The first word of `u` stays the first word when whitespace follows `u`. */
  lemma WordsTrailingHead(u: string, sp: string)
    requires |sp| > 0 && (forall i :: 0 <= i < |sp| ==> IsSpace(sp[i])) && LeadingSpaces(u) < |u|
    ensures var tu := LStrip(u); var nu := FirstSpace(tu);
      Words(u + sp) == [tu[..nu]] + Words(tu[nu..] + sp)
  {
    var tu := LStrip(u);
    LStripConcat(u, sp);
    FirstSpaceConcat(tu, sp);
    var nu := FirstSpace(tu);
    SliceConcat(tu, sp, nu);
    WordsAt(u + sp, tu + sp, nu);
  }

  lemma SliceConcat(a: string, b: string, n: nat)
    requires n <= |a|
    ensures (a + b)[..n] == a[..n] && (a + b)[n..] == a[n..] + b
  {
  }

  /** Trailing whitespace adds no word. */
  lemma {:induction false} WordsTrailing(u: string, sp: string)
    requires forall i :: 0 <= i < |sp| ==> IsSpace(sp[i])
    ensures Words(u + sp) == Words(u)
    decreases |u|
  {
    if |sp| == 0 {
      assert u + sp == u;
    } else if LeadingSpaces(u) == |u| {
      WordsAllSpace(u + sp);
      WordsAllSpace(u);
    } else {
      var tu := LStrip(u);
      var nu := FirstSpace(tu);
      WordsTrailingHead(u, sp);
      WordsAt(u, tu, nu);
      if nu < |tu| {
        WordsTrailing(tu[nu..], sp);
      } else {
        assert tu[nu..] + sp == sp && tu[nu..] == "";
        WordsAllSpace(sp);
        WordsAllSpace("");
      }
    }
  }

  /** `s.strip().split()` is `s.split()`. */
  lemma WordsStrip(s: string)
    ensures Words(Strip(s)) == Words(s)
  {
    WordsLStrip(s);
    var t := LStrip(s);
    var r, sp := RStrip(t), t[|RStrip(t)|..];
    RStripSplit(t);
    WordsTrailing(r, sp);
  }

  /** `t` is `t.rstrip()` followed by whitespace. */
  lemma RStripSplit(t: string)
    ensures t == RStrip(t) + t[|RStrip(t)|..]
    ensures forall i :: 0 <= i < |t[|RStrip(t)|..]| ==> IsSpace(t[|RStrip(t)|..][i])
  {
  }

  /** A word followed by whitespace, or by nothing, is the first word. */
  lemma WordThen(w: string, rest: string)
    requires |w| > 0 && NoSpace(w) && (|rest| > 0 ==> IsSpace(rest[0]))
    ensures Words(w + rest) == [w] + Words(rest)
  {
    var s := w + rest;
    LeadingSpacesAt(s, 0);
    FirstSpaceAt(s, |w|);
    assert s[..|w|] == w && s[|w|..] == rest;
  }

  lemma WordsSpace(r: string)
    ensures Words(" " + r) == Words(r)
  {
    assert (" " + r)[1..] == r;
    assert LStrip(" " + r) == LStrip(r);
  }

  lemma JoinCons(ws: seq<string>, sep: string)
    requires |ws| > 1
    ensures Join(ws, sep) == ws[0] + (sep + Join(ws[1..], sep))
  {
    assert ws[0] + sep + Join(ws[1..], sep) == ws[0] + (sep + Join(ws[1..], sep));
  }

  /** One step of `WordsOfJoin`: a word put in front of a joined text whose words are known. */
  lemma WordsOfJoinStep(ws: seq<string>)
    requires |ws| > 1 && |ws[0]| > 0 && NoSpace(ws[0]) && Words(Join(ws[1..], " ")) == ws[1..]
    ensures Words(Join(ws, " ")) == ws
  {
    var rest := Join(ws[1..], " ");
    JoinCons(ws, " ");
    WordThen(ws[0], " " + rest);
    WordsSpace(rest);
    assert ws == [ws[0]] + ws[1..];
  }

  /** Splitting words joined by single spaces gives the words back. */
  lemma {:induction false} WordsOfJoin(ws: seq<string>)
    requires forall k :: 0 <= k < |ws| ==> |ws[k]| > 0 && NoSpace(ws[k])
    ensures Words(Join(ws, " ")) == ws
  {
    if |ws| == 1 {
      WordThen(ws[0], "");
      assert ws[0] + "" == ws[0];
    } else if |ws| > 1 {
      WordsOfJoin(ws[1..]);
      WordsOfJoinStep(ws);
    }
  }

  lemma StripTagFree(s: string)
    requires TagFree(s)
    ensures TagFree(Strip(s))
  {
    var t := LStrip(s);
    TagFreeSlice(s, LeadingSpaces(s), |s|);
    TagFreeSlice(t, 0, |t| - TrailingSpaces(t));
  }

  lemma CleanTextTags(s: string)
    requires NoTag(s)
    ensures NoTag(Collapse(Strip(s)))
  {
    NoTagTagFree(s);
    StripTagFree(s);
    CollapseTagFree(Strip(s));
    NoTagTagFree(Collapse(Strip(s)));
  }

  /** `' '.join(s.strip().split())` keeps the words of `s`, and a tag-free `s` stays tag-free. */
  lemma CleanText(s: string)
    ensures Words(Collapse(Strip(s))) == Words(s)
    ensures NoTag(s) ==> NoTag(Collapse(Strip(s)))
  {
    WordsOfJoin(Words(Strip(s)));
    WordsStrip(s);
    if NoTag(s) {
      CleanTextTags(s);
    }
  }

  predicate IsAsciiDigit(c: char)
  {
    '0' <= c <= '9'
  }

  /** `any(c.isdigit() for c in s)`, for ASCII digits. */
  predicate HasDigit(s: string)
  {
    exists i :: 0 <= i < |s| && IsAsciiDigit(s[i])
  }

  /** Decimal digits of a natural number, as `str(n)` writes them. */
  function NatToString(n: nat): (r: string)
    ensures |r| > 0
    ensures forall i :: 0 <= i < |r| ==> IsAsciiDigit(r[i])
    decreases n
  {
    if n < 10 then [DigitChar(n)] else NatToString(n / 10) + [DigitChar(n % 10)]
  }

  function DigitChar(d: nat): (c: char)
    requires d < 10
    ensures IsAsciiDigit(c)
  {
    ('0' as int + d) as char
  }

  function DigitValue(c: char): nat
    requires IsAsciiDigit(c)
  {
    (c as int - '0' as int) as nat
  }

  /** Reading back the decimal digits gives the number again. */
  function ParseNat(s: string): nat
    requires forall i :: 0 <= i < |s| ==> IsAsciiDigit(s[i])
  {
    if |s| == 0 then 0 else 10 * ParseNat(s[..|s| - 1]) + DigitValue(s[|s| - 1])
  }

  lemma {:induction false} ParseNatToString(n: nat)
    ensures ParseNat(NatToString(n)) == n
    decreases n
  {
    if n >= 10 {
      ParseNatToString(n / 10);
      var r := NatToString(n);
      assert r[..|r| - 1] == NatToString(n / 10);
    }
  }
}
