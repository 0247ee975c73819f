/** Texts of the form `x by y`, as several of the name and caption patterns
    split them: where `\s+by\s+` falls and what the two groups hold, when the
    second group runs to the end of the line or of the input. */
module ByWords {
  import opened Results
  import opened Text
  import opened Patterns

  /** `\s+by\s+(.+?)` followed by `t`. */
  function By(t: Term): Sep
  {
    Sep([Spaces(1), Word("by")], 1, t)
  }

  /** The terms that end a group at the end of the line or of the input. */
  predicate ToEnd(t: Term)
  {
    t == LineEnd || t == InputEnd
  }

  /** A text that may end a line: non-empty, no space at either end, no line
      terminator. */
  predicate LineText(x: string)
  {
    |x| > 0 && NoSpaceAtEnds(x) && AllDot(x, 0, |x|)
  }

  /** A word reading `by` in any case starts at `i`, right after a space. */
  predicate ByWordAt(s: string, i: nat)
    requires 0 < i && i + 1 < |s|
  {
    IsSpace(s[i - 1]) && SameLetter(s[i], 'b') && SameLetter(s[i + 1], 'y')
  }

  /** No such word lies strictly inside `s[a..e]`. */
  predicate NoByWordIn(s: string, a: nat, e: nat)
    requires e <= |s|
  {
    forall i | a < i && i + 1 < e :: !ByWordAt(s, i)
  }

  /** No word inside `x` that follows a space reads `by`, so the first
      qualifying separator of `x by y` is the one after `x`. */
  predicate NoByWord(x: string)
  {
    NoByWordIn(x, 0, |x|)
  }

  /** The characters of `x by y` in `s`, with `x` from `a` to `e` and `y`
      from `e + 4` to the end. */
  predicate ByShape(s: string, a: nat, e: nat)
  {
    && a < e && e + 4 < |s|
    && s[e] == ' ' && s[e + 1] == 'b' && s[e + 2] == 'y' && s[e + 3] == ' '
    && !IsSpace(s[a]) && !IsSpace(s[e - 1]) && !IsSpace(s[e + 4])
    && AllDot(s, a, e) && AllDot(s, e + 4, |s|) && NoByWordIn(s, a, e)
  }

  /** A group of `.` characters running to the end ends there. */
  lemma LazyToEnd(s: string, k: nat, t: Term)
    requires ToEnd(t) && k < |s| && AllDot(s, k, |s|)
    ensures LazyEnd(s, k, t) == Some(|s|)
  {
    var f := LazyStops(s, k, t);
    forall q | k + 1 <= q < |s|
      ensures f(q).None?
    {
      assert IsDot(s[q]);
    }
    assert NoneIn(f, k + 1, |s|);
    LeftmostIs<nat>(f, k + 1, |s| + 1, |s|, |s|);
  }

  /** No music emoji occurs in `x`. */
  predicate NoNote(x: string)
  {
    forall k | 0 <= k < |x| :: !IsNote(x[k])
  }

  /** From `k` on, `s` holds no music emoji and does not end in a space, so
      `[\n\r\s]*(?:[🎵🎶🎸🥁🎤🎹🎺🎷]|$)` holds only at the end. */
  predicate NoteFree(s: string, k: nat)
  {
    k < |s| && !IsSpace(s[|s| - 1]) && forall i | k <= i < |s| :: !IsNote(s[i])
  }

  /** A group of `.` characters that is note-free runs to the end. */
  lemma LazyToNote(s: string, k: nat)
    requires NoteFree(s, k) && AllDot(s, k, |s|)
    ensures LazyEnd(s, k, NoteOrEnd) == Some(|s|)
  {
    var f := LazyStops(s, k, NoteOrEnd);
    forall q | k + 1 <= q < |s|
      ensures f(q).None?
    {
      var j := SpaceRunEnd(s, q);
      assert j < |s| && !IsNote(s[j]);
    }
    assert TermAt(s, |s|, NoteOrEnd);
    assert NoneIn(f, k + 1, |s|);
    LeftmostIs<nat>(f, k + 1, |s| + 1, |s|, |s|);
  }

  /** `y` at the end of `s`, from `k`: note-free when `y` is. */
  lemma NoteFreeOf(s: string, k: nat, y: string)
    requires k <= |s| && s[k..|s|] == y && LineText(y) && NoNote(y)
    ensures NoteFree(s, k)
  {
    assert s[|s| - 1] == y[|y| - 1];
    forall i | k <= i < |s|
      ensures !IsNote(s[i])
    {
      assert s[i] == y[i - k];
    }
  }

  /** ` by ` at `e`: where each piece of the separator ends. */
  lemma ByPiecesAt(s: string, e: nat)
    requires e + 4 < |s| && s[e] == ' ' && s[e + 1] == 'b' && s[e + 2] == 'y' && s[e + 3] == ' '
    requires !IsSpace(s[e + 4])
    ensures PieceEnd(s, e, Spaces(1)) == Some(e + 1) && PieceEnd(s, e + 1, Word("by")) == Some(e + 3)
  {
    SpaceRunEndIs(s, e, e + 1);
    assert "by"[0] == 'b' && "by"[1] == 'y';
    assert WordAt(s, e + 1, "by");
  }

  /** The separator ` by ` at `e`, then a second group that ends at `to`. */
  lemma ByTailAt(s: string, e: nat, to: nat, t: Term)
    requires e + 4 < |s| && s[e] == ' ' && s[e + 1] == 'b' && s[e + 2] == 'y' && s[e + 3] == ' '
    requires !IsSpace(s[e + 4]) && LazyEnd(s, e + 4, t) == Some(to)
    ensures SepTail(s, e, By(t)) == Some((e + 4, to))
  {
    ByPiecesAt(s, e);
    GroupAfterOneSpace(s, e + 3, 1, to, t);
    TailFromStep(s, e, Spaces(1), [Word("by")], 1, t, e + 1);
    TailFromStep(s, e + 1, Word("by"), [], 1, t, e + 3);
    assert [Spaces(1)] + [Word("by")] == [Spaces(1), Word("by")];
    assert [Word("by")] + [] == [Word("by")];
  }

  /** At `m`, a run of spaces that is not followed by a `by` word: no separator. */
  lemma NoByAfter(s: string, m: nat, t: Term)
    requires m <= |s|
    requires var q := SpaceRunEnd(s, m);
      q - m >= 1 ==> q + 1 >= |s| || !(SameLetter(s[q], 'b') && SameLetter(s[q + 1], 'y'))
    ensures SepTail(s, m, By(t)).None?
  {
    assert [Spaces(1), Word("by")][1..] == [Word("by")];
    assert "by"[0] == 'b' && "by"[1] == 'y';
    var q := SpaceRunEnd(s, m);
    if q - m >= 1 {
      assert TailFrom(s, q, [Word("by")], 1, t).None?;
    }
  }

  /** No position inside the first group is followed by the separator. */
  lemma NoSepInside(s: string, a: nat, e: nat, t: Term)
    requires ByShape(s, a, e)
    ensures NoneIn(SepStops(s, a, By(t)), a + 1, e)
  {
    forall m | a + 1 <= m < e
      ensures SepStops(s, a, By(t))(m).None?
    {
      var q := SpaceRunEnd(s, m);
      if q - m >= 1 {
        assert IsSpace(s[q - 1]);
        assert q < e;
        if q + 1 < e {
          assert !ByWordAt(s, q);
        } else {
          assert s[q + 1] == ' ';
        }
      }
      NoByAfter(s, m, t);
    }
  }

  /** Without a `by` word after a space anywhere, the separator never
      matches, wherever the first group starts. */
  lemma NoBySplit(s: string, a: nat, t: Term)
    requires NoByWord(s)
    ensures SplitAfter(s, a, By(t)).None?
  {
    NoBySplitPast(s, a, 0, t);
  }

  /** The same when no `by` word follows a space past `b`, and the first
      group starts no earlier than `b - 1`: the separator needs a space
      after the group's first character. */
  lemma NoBySplitPast(s: string, a: nat, b: nat, t: Term)
    requires b <= a + 1 && b <= |s| && NoByWordIn(s, b, |s|)
    ensures SplitAfter(s, a, By(t)).None?
  {
    forall m | a + 1 <= m < |s| + 1
      ensures SepStops(s, a, By(t))(m).None?
    {
      var q := SpaceRunEnd(s, m);
      if q - m >= 1 && q + 1 < |s| {
        assert IsSpace(s[q - 1]);
        assert !ByWordAt(s, q);
      }
      NoByAfter(s, m, t);
    }
    LeftmostAbsent(SepStops(s, a, By(t)), a + 1, |s| + 1);
  }

  /** The lazy first group stops right before the first ` by `, and the
      second runs to the end. */
  lemma BySplitAt(s: string, a: nat, e: nat, t: Term)
    requires ByShape(s, a, e) && LazyEnd(s, e + 4, t) == Some(|s|)
    ensures SplitAfter(s, a, By(t)) == Some(Groups(a, e, e + 4, |s|))
  {
    ByTailAt(s, e, |s|, t);
    NoSepInside(s, a, e, t);
    SplitAfterIs(s, a, By(t), e, e + 4, |s|);
  }

  /** `x by y` at `a` has the shape the by-patterns look for. */
  lemma ByLayoutShape(s: string, a: nat, x: string, y: string)
    requires a <= |s| && s[a..] == x + " by " + y
    requires LineText(x) && NoByWord(x) && LineText(y)
    ensures a + |x| + 4 + |y| == |s| && ByShape(s, a, a + |x|)
  {
    var e := a + |x|;
    var t := x + " by " + y;
    assert forall k | a <= k < |s| :: s[k] == t[k - a];
    assert s[a] == x[0] && s[e - 1] == x[|x| - 1] && s[e + 4] == y[0];
    assert s[e] == ' ' && s[e + 1] == 'b' && s[e + 2] == 'y' && s[e + 3] == ' ';
    forall k | a <= k < e
      ensures IsDot(s[k])
    {
      assert s[k] == x[k - a];
    }
    forall k | e + 4 <= k < |s|
      ensures IsDot(s[k])
    {
      assert s[k] == y[k - e - 4];
    }
    forall i | a < i && i + 1 < e
      ensures !ByWordAt(s, i)
    {
      assert !ByWordAt(x, i - a);
      assert s[i - 1] == x[i - a - 1] && s[i] == x[i - a] && s[i + 1] == x[i - a + 1];
    }
  }

  /** Where the two parts of `x by y` at `a` lie. */
  lemma ByLayoutSlices(s: string, a: nat, x: string, y: string)
    requires a <= |s| && s[a..] == x + " by " + y
    ensures s[a..a + |x|] == x && s[a + |x| + 4..|s|] == y
  {
    assert s[a..a + |x|] == s[a..][..|x|];
    assert s[a + |x| + 4..|s|] == s[a..][|x| + 4..];
  }

  /** `x by y` at `c`, up to the end: the split falls after `x`. */
  lemma ByTextSplit(s: string, c: nat, x: string, y: string, t: Term)
    requires ToEnd(t)
    requires c <= |s| && s[c..] == x + " by " + y
    requires LineText(x) && NoByWord(x) && LineText(y)
    ensures c < |s| && !IsSpace(s[c])
    ensures SplitAfter(s, c, By(t)) == Some(Groups(c, c + |x|, c + |x| + 4, |s|))
    ensures s[c..c + |x|] == x && s[c + |x| + 4..|s|] == y
  {
    ByLayoutShape(s, c, x, y);
    ByLayoutSlices(s, c, x, y);
    LazyToEnd(s, c + |x| + 4, t);
    BySplitAt(s, c, c + |x|, t);
  }

  /** `x by y` at `c`, up to the end, with no music emoji in `y`: the split
      falls after `x` when the second group stops at an emoji or the end. */
  lemma ByTextSplitNote(s: string, c: nat, x: string, y: string)
    requires c <= |s| && s[c..] == x + " by " + y
    requires LineText(x) && NoByWord(x) && LineText(y) && NoNote(y)
    ensures c < |s| && !IsSpace(s[c])
    ensures SplitAfter(s, c, By(NoteOrEnd)) == Some(Groups(c, c + |x|, c + |x| + 4, |s|))
    ensures s[c..c + |x|] == x && s[c + |x| + 4..|s|] == y
  {
    ByLayoutShape(s, c, x, y);
    ByLayoutSlices(s, c, x, y);
    NoteFreeOf(s, c + |x| + 4, y);
    LazyToNote(s, c + |x| + 4);
    BySplitAt(s, c, c + |x|, NoteOrEnd);
  }
}
