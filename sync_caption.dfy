/** `AlbumSyncManager.extractAlbumInfo` (syncFromInstagram.js:70-112): the
    caption parser of the sync engine. Only the trimmed first line of the
    caption is examined; three patterns are tried in order and the first
    that matches decides the layout of the result. */
module SyncCaption {
  import opened Results
  import opened Text
  import opened Patterns
  import opened ByWords

  /** `{number, album, artist, fullName}`; `null` is None. */
  datatype AlbumInfo = AlbumInfo(number: Option<nat>, album: string, artist: Option<string>, fullName: string)

  /** `\s+by\s+(.+?)(?:\n|$)` */
  const ByToLineEnd: Sep := Sep([Spaces(1), Word("by")], 1, LineEnd)

  /** `caption.split('\n')[0].trim()` */
  function FirstLine(caption: string): string
  {
    Trim(Split(caption, '\n')[0])
  }

  /** `#(\d+)\.\s*(.+?)(?:\n|$)` at `p`: the end of the number and the group's bounds. */
  function NumberedTitleAt(s: string, p: nat): (r: Option<(nat, (nat, nat))>)
    requires p <= |s|
    ensures r.Some? ==> NumberedAt(s, p) == Some(r.value.0) && r.value.0 <= r.value.1.0 < r.value.1.1 <= |s|
  {
    match NumberedAt(s, p)
    case None => None
    case Some(d) =>
      match GroupAfterSpaces(s, d, 0, LineEnd)
      case None => None
      case Some(g) => Some((d, g))
  }

  function NumberedTitles(s: string): nat -> Option<(nat, (nat, nat))>
  {
    (p: nat) => if p <= |s| then NumberedTitleAt(s, p) else None
  }

  /** The leftmost `#(\d+)\.\s*(.+?)(?:\n|$)`: where the number starts, the
      end of the number, and the group's bounds. */
  function FirstNumberedTitle(s: string): (r: Option<(nat, nat, (nat, nat))>)
    ensures r.Some? ==> r.value.0 <= |s| && NumberedAt(s, r.value.0) == Some(r.value.1)
    ensures r.Some? ==> r.value.1 <= r.value.2.0 < r.value.2.1 <= |s|
  {
    var m := Leftmost(NumberedTitles(s), 0, |s|);
    if m.None? then None
    else
      LeftmostFound(NumberedTitles(s), 0, |s|);
      Some((m.value.0, m.value.1.0, m.value.1.1))
  }

  /** First pattern, `#N. album by artist`, leftmost match on the line. */
  function NumberedByInfo(line: string): (r: Option<AlbumInfo>)
    ensures r.Some? ==> r.value.number.Some? && r.value.artist.Some?
  {
    var m := FirstNumberedSplit(line, ByToLineEnd);
    if m.None? then None
    else
      var (p, d, g) := m.value;
      var album := Trim(line[g.from..g.mid]);
      var artist := Trim(line[g.at..g.to]);
      Some(AlbumInfo(Some(DecimalValue(NumberDigits(line, p, d))), album, Some(artist), album + " by " + artist))
  }

  /** Second pattern, `#N. title`, leftmost match on the line. */
  function NumberedTitleInfo(line: string): (r: Option<AlbumInfo>)
    ensures r.Some? ==> r.value.number.Some? && r.value.artist.None? && r.value.fullName == r.value.album
  {
    var m := FirstNumberedTitle(line);
    if m.None? then None
    else
      var (p, d, g) := m.value;
      var album := Trim(line[g.0..g.1]);
      Some(AlbumInfo(Some(DecimalValue(NumberDigits(line, p, d))), album, None, album))
  }

  /** Third pattern, `album by artist` from the start of the line; the number is the one supplied. */
  function ByInfo(line: string, existingNumber: Option<nat>): (r: Option<AlbumInfo>)
    ensures r.Some? ==> r.value.number == existingNumber && r.value.artist.Some?
  {
    match SplitAfter(line, 0, ByToLineEnd)
    case None => None
    case Some(g) =>
      var album := Trim(line[g.from..g.mid]);
      var artist := Trim(line[g.at..g.to]);
      Some(AlbumInfo(existingNumber, album, Some(artist), album + " by " + artist))
  }

  /** The three patterns tried in order on one line; nothing matching gives null. */
  function LineInfo(line: string, existingNumber: Option<nat>): Option<AlbumInfo>
  {
    var first := NumberedByInfo(line);
    if first.Some? then first
    else
      var second := NumberedTitleInfo(line);
      if second.Some? then second
      else ByInfo(line, existingNumber)
  }

  /** extractAlbumInfo(caption, existingNumber): a falsy caption gives null;
      otherwise the patterns are tried on the trimmed first line. */
  function ExtractAlbumInfo(caption: Option<string>, existingNumber: Option<nat>): Option<AlbumInfo>
  {
    if caption == None || caption == Some("") then None
    else LineInfo(FirstLine(caption.value), existingNumber)
  }

  /** Without a `#` there is no numbered title. */
  lemma FirstNumberedTitleNoHash(s: string)
    requires '#' !in s
    ensures FirstNumberedTitle(s).None?
  {
    forall p: nat | p < |s|
      ensures NumberedTitles(s)(p).None?
    {
      assert s[p] != '#';
    }
    assert NoneIn(NumberedTitles(s), 0, |s|);
    LeftmostAbsent(NumberedTitles(s), 0, |s|);
  }

  /** Only the text before the first line feed is examined. */
  lemma ExtractFirstLineOnly(line: string, rest: string, n: Option<nat>)
    requires '\n' !in line
    ensures ExtractAlbumInfo(Some(line + "\n" + rest), n) == ExtractAlbumInfo(Some(line), n)
  {
    SplitFirst(line, rest, '\n');
    assert FirstLine(line + "\n" + rest) == FirstLine(line);
    if line == [] {
      assert FirstLine(line) == [];
      assert SplitAfter([], 0, ByToLineEnd) == None;
    }
  }

  lemma FirstLineIs(s: string, rest: string)
    requires |s| > 0 && NoSpaceAtEnds(s) && '\n' !in s
    requires rest == [] || rest[0] == '\n'
    ensures s + rest != [] && FirstLine(s + rest) == s
  {
    if rest == [] {
      assert s + rest == s;
      assert Split(s, '\n') == [s];
    } else {
      assert s + rest == s + "\n" + rest[1..];
      SplitFirst(s, rest[1..], '\n');
    }
    TrimKeeps(s);
  }

  /** The characters of `#N. x by y` in `s`, with `N` written as `ds`. */
  predicate NumberedByShape(s: string, ds: string, x: string, y: string)
  {
    && |s| == |ds| + |x| + |y| + 7 && s[0] == '#' && s[|ds| + 1] == '.' && s[|ds| + 2] == ' '
    && s[1..|ds| + 1] == ds && s[|ds| + 3..|ds| + 3 + |x|] == x && s[|ds| + 7 + |x|..|s|] == y
    && ByShape(s, |ds| + 3, |ds| + 3 + |x|)
  }

  /** Where the parts of `#N. x by y` lie. */
  lemma NumberedLayout(ds: string, x: string, y: string)
    requires LineText(x) && NoByWord(x) && LineText(y)
    ensures NumberedByShape("#" + ds + ". " + x + " by " + y, ds, x, y)
  {
    var s := "#" + ds + ". " + x + " by " + y;
    assert s == "#" + ds + ". " + (x + " by " + y);
    assert s[|ds| + 3..] == x + " by " + y;
    ByLayoutShape(s, |ds| + 3, x, y);
    ByLayoutSlices(s, |ds| + 3, x, y);
  }

  /** After `#N.` ending at `d`, one space and then a split `g` of the rest:
      the first pattern matches at the start of the line. */
  lemma NumberedMatchOfSplit(s: string, d: nat, g: Groups)
    requires NumberedAt(s, 0) == Some(d) && d + 1 < |s| && s[d] == ' ' && !IsSpace(s[d + 1])
    requires SplitAfter(s, d + 1, ByToLineEnd) == Some(g)
    ensures FirstNumberedSplit(s, ByToLineEnd) == Some((0, d, g))
  {
    SpaceRunEndIs(s, d, d + 1);
    FirstNumberedSplitOneSpace(s, ByToLineEnd, d, g);
  }

  /** What the first pattern yields once its match is known. */
  lemma NumberedByOfMatch(s: string, d: nat, g: Groups, x: string, y: string)
    requires FirstNumberedSplit(s, ByToLineEnd) == Some((0, d, g))
    requires Trim(s[g.from..g.mid]) == x && Trim(s[g.at..g.to]) == y
    ensures NumberedByInfo(s) == Some(AlbumInfo(Some(DecimalValue(NumberDigits(s, 0, d))), x, Some(y), x + " by " + y))
  {
  }

  /** The facts about `#N. x by y` that the first pattern depends on. */
  lemma NumberedByParts(s: string, ds: string, x: string, y: string, g: Groups)
    requires |ds| > 0 && AllDigits(ds) && LineText(x) && LineText(y) && NumberedByShape(s, ds, x, y)
    requires g == Groups(|ds| + 3, |ds| + 3 + |x|, |ds| + 7 + |x|, |s|)
    ensures NumberedAt(s, 0) == Some(|ds| + 2) && NumberDigits(s, 0, |ds| + 2) == ds
    ensures s[|ds| + 2] == ' ' && !IsSpace(s[|ds| + 3])
    ensures SplitAfter(s, |ds| + 3, ByToLineEnd) == Some(g)
    ensures g.Within(s) && Trim(s[g.from..g.mid]) == x && Trim(s[g.at..g.to]) == y
  {
    NumberedPrefixAt(s, ds);
    NumberedBySplit(s, ds, x, y);
    assert s[g.from..g.mid] == x && s[g.at..g.to] == y;
    TrimKeeps(x);
    TrimKeeps(y);
  }

  /** In `#N. x by y` the separator splits right after `x`. */
  lemma NumberedBySplit(s: string, ds: string, x: string, y: string)
    requires LineText(y) && NumberedByShape(s, ds, x, y)
    ensures SplitAfter(s, |ds| + 3, ByToLineEnd) == Some(Groups(|ds| + 3, |ds| + 3 + |x|, |ds| + 7 + |x|, |s|))
  {
    LazyToEnd(s, |ds| + 3 + |x| + 4, LineEnd);
    BySplitAt(s, |ds| + 3, |ds| + 3 + |x|, LineEnd);
  }

  /** Where the first pattern matches `#N. x by y`. */
  lemma NumberedByLineMatch(s: string, ds: string, x: string, y: string, g: Groups)
    requires |ds| > 0 && AllDigits(ds) && LineText(x) && LineText(y) && NumberedByShape(s, ds, x, y)
    requires g == Groups(|ds| + 3, |ds| + 3 + |x|, |ds| + 7 + |x|, |s|)
    ensures FirstNumberedSplit(s, ByToLineEnd) == Some((0, |ds| + 2, g)) && NumberDigits(s, 0, |ds| + 2) == ds
    ensures Trim(s[g.from..g.mid]) == x && Trim(s[g.at..g.to]) == y
  {
    NumberedByParts(s, ds, x, y, g);
    NumberedMatchOfSplit(s, |ds| + 2, g);
  }

  /** The first pattern reads `#N. x by y` back into its parts. */
  lemma NumberedByLine(ds: string, x: string, y: string)
    requires |ds| > 0 && AllDigits(ds)
    requires LineText(x) && NoByWord(x) && LineText(y)
    ensures NumberedByInfo("#" + ds + ". " + x + " by " + y)
         == Some(AlbumInfo(Some(DecimalValue(ds)), x, Some(y), x + " by " + y))
  {
    var s := "#" + ds + ". " + x + " by " + y;
    var g := Groups(|ds| + 3, |ds| + 3 + |x|, |ds| + 7 + |x|, |s|);
    NumberedLayout(ds, x, y);
    NumberedByLineMatch(s, ds, x, y, g);
    NumberedByOfMatch(s, |ds| + 2, g, x, y);
  }

  lemma ByLineHasNoLineFeed(pre: string, x: string, y: string)
    requires '\n' !in pre && LineText(x) && LineText(y)
    ensures '\n' !in pre + x + " by " + y
  {
    var s := pre + x + " by " + y;
    forall k | 0 <= k < |s| ensures s[k] != '\n' {
      if k < |pre| {
        assert s[k] == pre[k];
      } else if k < |pre| + |x| {
        assert s[k] == x[k - |pre|];
      } else if |pre| + |x| + 4 <= k {
        assert s[k] == y[k - |pre| - |x| - 4];
      }
    }
  }

  /** A caption is read from its first line alone. */
  lemma ExtractOfFirstLine(caption: string, line: string, n: Option<nat>)
    requires caption != [] && FirstLine(caption) == line
    ensures ExtractAlbumInfo(Some(caption), n) == LineInfo(line, n)
  {
  }

  /** `#N. x by y` is a line of text as it stands. */
  lemma NumberedLineText(ds: string, x: string, y: string)
    requires AllDigits(ds) && LineText(x) && LineText(y)
    ensures var line := "#" + ds + ". " + x + " by " + y;
      |line| > 0 && NoSpaceAtEnds(line) && '\n' !in line
  {
    var pre := "#" + ds + ". ";
    assert '\n' !in pre by {
      forall k | 0 <= k < |pre| ensures pre[k] != '\n' {
        if 1 <= k <= |ds| {
          assert pre[k] == ds[k - 1] && IsDigit(ds[k - 1]);
        }
      }
    }
    ByLineHasNoLineFeed(pre, x, y);
    var line := pre + x + " by " + y;
    assert line[|line| - 1] == y[|y| - 1];
  }

  /** `#N. x by y` on the first line yields number N, album x, artist y and
      full name `x by y`, whatever lines follow. */
  lemma RoundTripNumbered(ds: string, x: string, y: string, rest: string, n: Option<nat>)
    requires |ds| > 0 && AllDigits(ds)
    requires LineText(x) && NoByWord(x) && LineText(y)
    requires rest == [] || rest[0] == '\n'
    ensures ExtractAlbumInfo(Some("#" + ds + ". " + x + " by " + y + rest), n)
         == Some(AlbumInfo(Some(DecimalValue(ds)), x, Some(y), x + " by " + y))
  {
    var line := "#" + ds + ". " + x + " by " + y;
    NumberedLineText(ds, x, y);
    FirstLineIs(line, rest);
    ExtractOfFirstLine(line + rest, line, n);
    NumberedByLine(ds, x, y);
  }

  /** The characters of `#N. x` in `s`, with `N` written as `ds`. */
  predicate NumberedTitleShape(s: string, ds: string, x: string)
  {
    && |s| == |ds| + |x| + 3 && s[0] == '#' && s[|ds| + 1] == '.' && s[|ds| + 2] == ' '
    && s[1..|ds| + 1] == ds && s[|ds| + 3..] == x
  }

  lemma NumberedTitleLayout(ds: string, x: string)
    ensures NumberedTitleShape("#" + ds + ". " + x, ds, x)
  {
    var s := "#" + ds + ". " + x;
    assert s == "#" + ds + (". " + x);
    assert s[1..|ds| + 1] == ds;
  }

  /** What `#N. x` inherits from `x`: it is a line of text, and past the
      space after the number no `by` word follows a space. */
  lemma NumberedTitleText(s: string, ds: string, x: string)
    requires AllDigits(ds) && LineText(x) && NoByWord(x) && NumberedTitleShape(s, ds, x)
    ensures |s| > 0 && NoSpaceAtEnds(s) && '\n' !in s
    ensures AllDot(s, |ds| + 3, |s|) && NoByWordIn(s, |ds| + 3, |s|)
  {
    var o := |ds| + 3;
    forall k | o <= k < |s| ensures s[k] == x[k - o] {
      assert s[o..][k - o] == s[k];
    }
    forall k | 0 <= k < |s| ensures s[k] != '\n' {
      if 1 <= k <= |ds| {
        assert s[1..|ds| + 1][k - 1] == s[k];
        assert IsDigit(ds[k - 1]);
      } else if o <= k {
        assert IsDot(x[k - o]);
      }
    }
    forall i | o < i && i + 1 < |s| ensures !ByWordAt(s, i) {
      assert !ByWordAt(x, i - o);
    }
    assert s[|s| - 1] == x[|x| - 1];
  }

  /** The end of any `#(\d+)\.` in `#N. x` lies at or past the space after `N`. */
  lemma NumberedTitleHashes(s: string, ds: string, x: string, p: nat, d: nat)
    requires |ds| > 0 && AllDigits(ds) && NumberedTitleShape(s, ds, x)
    requires p <= |s| && NumberedAt(s, p) == Some(d)
    ensures |ds| + 2 <= d
  {
    forall k | 1 <= k <= |ds| ensures IsDigit(s[k]) {
      assert s[1..|ds| + 1][k - 1] == s[k];
    }
    if p == 0 {
      NumberedPrefixAt(s, ds);
    }
  }

  /** No `by` word past the number: the first pattern finds nothing. */
  lemma NumberedTitleNoBy(s: string, ds: string, x: string)
    requires |ds| > 0 && AllDigits(ds) && NumberedTitleShape(s, ds, x) && NoByWordIn(s, |ds| + 3, |s|)
    ensures NumberedByInfo(s).None?
  {
    forall p: nat | p < |s|
      ensures NumberedSplits(s, ByToLineEnd)(p).None?
    {
      var m := NumberedAt(s, p);
      if m.Some? {
        var d := m.value;
        NumberedTitleHashes(s, ds, x, p, d);
        forall a | d <= a <= SpaceRunEnd(s, d)
          ensures SplitAfter(s, a, ByToLineEnd).None?
        {
          NoBySplitPast(s, a, |ds| + 3, LineEnd);
        }
        SplitAfterSpacesNone(s, d, ByToLineEnd);
      }
    }
    LeftmostAbsent(NumberedSplits(s, ByToLineEnd), 0, |s|);
  }

  /** The second pattern matches `#N. x` at the start and its group runs to the end. */
  lemma NumberedTitleMatch(s: string, ds: string, x: string)
    requires |ds| > 0 && AllDigits(ds) && LineText(x) && NumberedTitleShape(s, ds, x)
    requires AllDot(s, |ds| + 3, |s|)
    ensures NumberedTitleInfo(s) == Some(AlbumInfo(Some(DecimalValue(ds)), x, None, x))
  {
    var d := |ds| + 2;
    NumberedPrefixAt(s, ds);
    assert s[d + 1] == x[0];
    LazyToEnd(s, d + 1, LineEnd);
    GroupAfterOneSpace(s, d, 0, |s|, LineEnd);
    assert NumberedTitles(s)(0) == Some((d, (d + 1, |s|)));
    LeftmostIs<(nat, (nat, nat))>(NumberedTitles(s), 0, |s|, 0, (d, (d + 1, |s|)));
    assert FirstNumberedTitle(s) == Some((0, d, (d + 1, |s|)));
    assert s[d + 1..|s|] == x;
    TrimKeeps(x);
  }

  /** On the line `#N. x` the first pattern fails and the second reads it back. */
  lemma NumberedTitleLine(s: string, ds: string, x: string, n: Option<nat>)
    requires |ds| > 0 && AllDigits(ds) && LineText(x) && NoByWord(x) && NumberedTitleShape(s, ds, x)
    requires AllDot(s, |ds| + 3, |s|) && NoByWordIn(s, |ds| + 3, |s|)
    ensures LineInfo(s, n) == Some(AlbumInfo(Some(DecimalValue(ds)), x, None, x))
  {
    NumberedTitleNoBy(s, ds, x);
    NumberedTitleMatch(s, ds, x);
  }

  /** `#N. x` on the first line, with no `by` word in `x`, yields number N
      and album and full name x, with no artist, whatever lines follow. */
  lemma RoundTripNumberedTitle(ds: string, x: string, rest: string, n: Option<nat>)
    requires |ds| > 0 && AllDigits(ds) && LineText(x) && NoByWord(x)
    requires rest == [] || rest[0] == '\n'
    ensures ExtractAlbumInfo(Some("#" + ds + ". " + x + rest), n)
         == Some(AlbumInfo(Some(DecimalValue(ds)), x, None, x))
  {
    var line := "#" + ds + ". " + x;
    NumberedTitleLayout(ds, x);
    NumberedTitleText(line, ds, x);
    FirstLineIs(line, rest);
    NumberedTitleLine(line, ds, x, n);
  }

  /** The third pattern reads `x by y` back into its parts when no `#` is present. */
  lemma ByLine(x: string, y: string, n: Option<nat>)
    requires LineText(x) && NoByWord(x) && LineText(y)
    ensures ByInfo(x + " by " + y, n) == Some(AlbumInfo(n, x, Some(y), x + " by " + y))
  {
    var s := x + " by " + y;
    TrimKeeps(x);
    TrimKeeps(y);
    assert s[0..] == s;
    ByLayoutSlices(s, 0, x, y);
    ByLayoutShape(s, 0, x, y);
    LazyToEnd(s, |x| + 4, LineEnd);
    BySplitAt(s, 0, |x|, LineEnd);
  }

  /** Without a `#` neither numbered pattern matches. */
  lemma UnnumberedLine(s: string)
    requires '#' !in s
    ensures NumberedByInfo(s) == None && NumberedTitleInfo(s) == None
  {
    FirstNumberedSplitNoHash(s, ByToLineEnd);
    FirstNumberedTitleNoHash(s);
  }

  /** An unnumbered `x by y` first line keeps the number the caller supplies. */
  lemma RoundTripUnnumbered(x: string, y: string, rest: string, n: Option<nat>)
    requires LineText(x) && NoByWord(x) && LineText(y) && '#' !in x && '#' !in y
    requires rest == [] || rest[0] == '\n'
    ensures ExtractAlbumInfo(Some(x + " by " + y + rest), n) == Some(AlbumInfo(n, x, Some(y), x + " by " + y))
  {
    var line := x + " by " + y;
    ByLineHasNoLineFeed([], x, y);
    assert [] + x + " by " + y == line;
    assert line[|line| - 1] == y[|y| - 1];
    FirstLineIs(line, rest);
    assert '#' !in line;
    ByLine(x, y, n);
    UnnumberedLine(line);
    ExtractOfFirstLine(line + rest, line, n);
  }
}
