/** `AlbumManager.extractAlbumInfo` (addAlbum.js:81-104): splits the name an
    album is added under into album and artist. Three anchored patterns are
    tried in order; when none matches, the whole name is the album and the
    artist is "Unknown Artist". */
module AlbumName {
  import opened Results
  import opened Text
  import opened Patterns
  import opened ByWords

  /** `{album, artist}`. */
  datatype NameParts = NameParts(album: string, artist: string)

  const UnknownArtist: string := "Unknown Artist"

  /** `\s+-\s+(.+)$` */
  const DashToEnd: Sep := Sep([Spaces(1), Char('-')], 1, InputEnd)

  /** `^#?\d+\.`: the position after the dot. The `#` is taken when present
      (leaving it out would put `\d` on a `#`), and the digits are the
      longest run (a shorter one is followed by a digit, not the dot). */
  function ListNumberEnd(s: string): (r: Option<nat>)
    ensures r.Some? ==> 2 <= r.value <= |s| && s[r.value - 1] == '.'
  {
    var h := if 0 < |s| && s[0] == '#' then 1 else 0;
    var d := DigitRunEnd(s, h);
    if d > h && d < |s| && s[d] == '.' then Some(d + 1) else None
  }

  /** First pattern, `^#?\d+\.\s*(.+?)\s+by\s+(.+)$`. */
  function NumberedSplit(s: string): (r: Option<Groups>)
    ensures r.Some? ==> r.value.Within(s)
  {
    match ListNumberEnd(s)
    case None => None
    case Some(d) => SplitAfterSpaces(s, d, By(InputEnd))
  }

  /** The trimmed groups of a match. */
  function Parts(s: string, g: Groups): NameParts
    requires g.Within(s)
  {
    NameParts(Trim(s[g.from..g.mid]), Trim(s[g.at..g.to]))
  }

  /** extractAlbumInfo(albumName): the first of the three patterns that
      matches decides; otherwise the trimmed name and "Unknown Artist". */
  function ExtractAlbumInfo(name: string): (r: NameParts)
    ensures NoSpaceAtEnds(r.album) && NoSpaceAtEnds(r.artist)
  {
    var first := NumberedSplit(name);
    if first.Some? then Parts(name, first.value)
    else
      var second := SplitAfter(name, 0, By(InputEnd));
      if second.Some? then Parts(name, second.value)
      else
        var third := SplitAfter(name, 0, DashToEnd);
        if third.Some? then Parts(name, third.value)
        else
          assert NoSpaceAtEnds(UnknownArtist) by {
            assert UnknownArtist[0] == 'U' && UnknownArtist[|UnknownArtist| - 1] == 't';
          }
          NameParts(Trim(name), UnknownArtist)
  }

  /** Every `-` inside `x` directly follows something other than a space, so
      ` - ` does not occur in it. */
  predicate NoDashSep(x: string)
  {
    forall i | 0 < i < |x| :: x[i] == '-' ==> !IsSpace(x[i - 1])
  }

  /** A name that starts with neither `#` nor a digit has no list number. */
  lemma NoListNumber(s: string)
    requires |s| > 0 && s[0] != '#' && !IsDigit(s[0])
    ensures NumberedSplit(s).None?
  {
    DigitRunEndIs(s, 0, 0);
  }

  /** Without ` by ` the first pattern finds no split after the number. */
  lemma NoByNumbered(name: string)
    requires NoByWord(name)
    ensures NumberedSplit(name).None?
  {
    if ListNumberEnd(name).Some? {
      var d := ListNumberEnd(name).value;
      forall a | d <= a <= SpaceRunEnd(name, d)
        ensures SplitAfter(name, a, By(InputEnd)).None?
      {
        NoBySplit(name, a, InputEnd);
      }
      SplitAfterSpacesNone(name, d, By(InputEnd));
    }
  }

  /** A name without ` by ` or ` - ` is kept whole, with an unknown artist. */
  lemma Fallback(name: string)
    requires NoByWord(name) && NoDashSep(name)
    ensures ExtractAlbumInfo(name) == NameParts(Trim(name), UnknownArtist)
  {
    NoByNumbered(name);
    NoBySplit(name, 0, InputEnd);
    NoDashSplit(name);
  }

  /** Without ` - ` in the name the third pattern never matches. */
  lemma NoDashSplit(s: string)
    requires NoDashSep(s)
    ensures SplitAfter(s, 0, DashToEnd).None?
  {
    forall m | 1 <= m < |s| + 1
      ensures SepStops(s, 0, DashToEnd)(m).None?
    {
      var q := SpaceRunEnd(s, m);
      if q - m >= 1 && q < |s| {
        assert IsSpace(s[q - 1]);
      }
      NoDashAfter(s, m);
    }
    LeftmostAbsent(SepStops(s, 0, DashToEnd), 1, |s| + 1);
  }

  /** At `m` after the start, spaces followed by `-` would put a `-` right
      after a space. */
  lemma NoDashAfter(s: string, m: nat)
    requires 0 < m <= |s|
    requires var q := SpaceRunEnd(s, m); q - m >= 1 && q < |s| ==> s[q] != '-'
    ensures SepTail(s, m, DashToEnd).None?
  {
    var q := SpaceRunEnd(s, m);
    if q - m >= 1 {
      TailFromStep(s, m, Spaces(1), [Char('-')], 1, InputEnd, q);
      assert [Spaces(1)] + [Char('-')] == [Spaces(1), Char('-')];
    }
  }

  /** What the second pattern finds in `x by y`. */
  lemma ByNameSplit(x: string, y: string)
    requires LineText(x) && NoByWord(x) && LineText(y)
    ensures var s := x + " by " + y;
      && SplitAfter(s, 0, By(InputEnd)) == Some(Groups(0, |x|, |x| + 4, |s|))
      && s[0..|x|] == x && s[|x| + 4..|s|] == y
  {
    var s := x + " by " + y;
    assert s[0..] == s;
    ByLayoutSlices(s, 0, x, y);
    ByLayoutShape(s, 0, x, y);
    LazyToEnd(s, |x| + 4, InputEnd);
    BySplitAt(s, 0, |x|, InputEnd);
  }

  /** `x by y` reads back as album `x` and artist `y` when `x` does not
      start like a list number. */
  lemma ByName(x: string, y: string)
    requires LineText(x) && NoByWord(x) && LineText(y) && x[0] != '#' && !IsDigit(x[0])
    ensures ExtractAlbumInfo(x + " by " + y) == NameParts(x, y)
  {
    var s := x + " by " + y;
    assert s[0] == x[0];
    NoListNumber(s);
    ByNameSplit(x, y);
    TrimKeeps(x);
    TrimKeeps(y);
  }

  /** `#N. ` or `N. ` written out at the start of a name. */
  lemma ListNumberOf(s: string, h: string, ds: string)
    requires h == "" || h == "#"
    requires |ds| > 0 && AllDigits(ds) && |h| + |ds| + 2 <= |s|
    requires s[..|h| + |ds| + 2] == h + ds + ". "
    ensures ListNumberEnd(s) == Some(|h| + |ds| + 1) && s[|h| + |ds| + 1] == ' '
  {
    var p := h + ds + ". ";
    assert forall k | 0 <= k < |p| :: s[k] == p[k];
    forall k | |h| <= k < |h| + |ds|
      ensures IsDigit(s[k])
    {
      assert p[k] == ds[k - |h|];
    }
    if h == "" {
      assert p[0] == ds[0];
    }
    assert p[|h| + |ds|] == '.' && p[|h| + |ds| + 1] == ' ';
    DigitRunEndIs(s, |h|, |h| + |ds|);
  }

  /** After the list number ending at `d`, one space and then a split:
      the first pattern's split. */
  lemma NumberedNameSplit(s: string, d: nat, g: Groups)
    requires ListNumberEnd(s) == Some(d) && d + 1 < |s| && s[d] == ' ' && !IsSpace(s[d + 1])
    requires SplitAfter(s, d + 1, By(InputEnd)) == Some(g)
    ensures NumberedSplit(s) == Some(g)
  {
    SpaceRunEndIs(s, d, d + 1);
    SplitAfterOneSpace(s, d, By(InputEnd), g);
  }

  /** Groups that hold two texts without surrounding spaces give those texts. */
  lemma PartsAre(s: string, g: Groups, x: string, y: string)
    requires g.Within(s) && s[g.from..g.mid] == x && s[g.at..g.to] == y
    requires NoSpaceAtEnds(x) && NoSpaceAtEnds(y)
    ensures Parts(s, g) == NameParts(x, y)
  {
    TrimKeeps(x);
    TrimKeeps(y);
  }

  /** What the function returns once the first pattern's split is known. */
  lemma NumberedNameOfSplit(s: string, g: Groups, parts: NameParts)
    requires NumberedSplit(s) == Some(g) && Parts(s, g) == parts
    ensures ExtractAlbumInfo(s) == parts
  {
  }

  /** The list number of `#N. x by y` or `N. x by y`, and what follows it. */
  lemma NumberedPrefix(s: string, h: string, ds: string, x: string, y: string)
    requires h == "" || h == "#"
    requires |ds| > 0 && AllDigits(ds) && s == h + ds + ". " + x + " by " + y
    ensures ListNumberEnd(s) == Some(|h| + |ds| + 1) && s[|h| + |ds| + 1] == ' '
    ensures s[|h| + |ds| + 2..] == x + " by " + y
  {
    var p := h + ds + ". ";
    assert s == p + (x + " by " + y);
    assert s[..|p|] == p;
    ListNumberOf(s, h, ds);
  }

  /** Where the first pattern splits `x by y` after a list number ending at `d`. */
  lemma NumberedNameMatch(s: string, d: nat, x: string, y: string, g: Groups)
    requires ListNumberEnd(s) == Some(d) && d + 1 <= |s| && s[d] == ' ' && s[d + 1..] == x + " by " + y
    requires LineText(x) && NoByWord(x) && LineText(y)
    requires g == Groups(d + 1, d + 1 + |x|, d + 1 + |x| + 4, |s|)
    ensures NumberedSplit(s) == Some(g) && Parts(s, g) == NameParts(x, y)
  {
    ByTextSplit(s, d + 1, x, y, InputEnd);
    NumberedNameSplit(s, d, g);
    PartsAre(s, g, x, y);
  }

  /** `x by y` after a list number ending at `d` reads back as its parts. */
  lemma NumberedNameAt(s: string, d: nat, x: string, y: string)
    requires ListNumberEnd(s) == Some(d) && d + 1 <= |s| && s[d] == ' ' && s[d + 1..] == x + " by " + y
    requires LineText(x) && NoByWord(x) && LineText(y)
    ensures ExtractAlbumInfo(s) == NameParts(x, y)
  {
    var g := Groups(d + 1, d + 1 + |x|, d + 1 + |x| + 4, |s|);
    NumberedNameMatch(s, d, x, y, g);
    NumberedNameOfSplit(s, g, NameParts(x, y));
  }

  /** `#N. x by y` and `N. x by y` read back as album `x` and artist `y`:
      the list number is dropped. */
  lemma NumberedName(h: string, ds: string, x: string, y: string)
    requires h == "" || h == "#"
    requires |ds| > 0 && AllDigits(ds) && LineText(x) && NoByWord(x) && LineText(y)
    ensures ExtractAlbumInfo(h + ds + ". " + x + " by " + y) == NameParts(x, y)
  {
    var s := h + ds + ". " + x + " by " + y;
    NumberedPrefix(s, h, ds, x, y);
    NumberedNameAt(s, |h| + |ds| + 1, x, y);
  }

  /** The characters of `x - y` in `s`, with `x` ending at `e`. */
  predicate DashShape(s: string, e: nat)
  {
    && 0 < e && e + 3 < |s|
    && s[e] == ' ' && s[e + 1] == '-' && s[e + 2] == ' '
    && !IsSpace(s[e - 1]) && !IsSpace(s[e + 3])
    && AllDot(s, e + 3, |s|)
    && forall i | 0 < i < e :: s[i] == '-' ==> !IsSpace(s[i - 1])
  }

  /** The separator ` - ` at `e`, then the rest of the input as the second group. */
  lemma DashTailAt(s: string, e: nat)
    requires DashShape(s, e)
    ensures SepTail(s, e, DashToEnd) == Some((e + 3, |s|))
  {
    SpaceRunEndIs(s, e, e + 1);
    LazyToEnd(s, e + 3, InputEnd);
    GroupAfterOneSpace(s, e + 2, 1, |s|, InputEnd);
    TailFromStep(s, e, Spaces(1), [Char('-')], 1, InputEnd, e + 1);
    TailFromStep(s, e + 1, Char('-'), [], 1, InputEnd, e + 2);
    assert [Spaces(1)] + [Char('-')] == [Spaces(1), Char('-')];
    assert [Char('-')] + [] == [Char('-')];
  }

  /** No position inside `x` is followed by the separator. */
  lemma NoDashInside(s: string, e: nat)
    requires DashShape(s, e)
    ensures NoneIn(SepStops(s, 0, DashToEnd), 1, e)
  {
    forall m | 1 <= m < e
      ensures SepStops(s, 0, DashToEnd)(m).None?
    {
      var q := SpaceRunEnd(s, m);
      if q - m >= 1 {
        assert IsSpace(s[q - 1]);
        assert q < e;
      }
      NoDashAfter(s, m);
    }
  }

  /** Where the parts of `x - y` lie. */
  lemma DashLayout(x: string, y: string)
    requires LineText(x) && NoDashSep(x) && LineText(y)
    ensures var s := x + " - " + y;
      DashShape(s, |x|) && AllDot(s, 0, |x|) && s[0..|x|] == x && s[|x| + 3..|s|] == y
  {
    var s := x + " - " + y;
    var e := |x|;
    assert s[0..e] == x;
    assert s[e + 3..|s|] == y;
    assert s[e - 1] == x[e - 1] && s[e + 3] == y[0];
    forall k | e + 3 <= k < |s|
      ensures IsDot(s[k])
    {
      assert s[k] == y[k - e - 3];
    }
    forall k | 0 <= k < e
      ensures IsDot(s[k]) && s[k] == x[k]
    {
    }
  }

  /** The third pattern splits `x - y` at the ` - ` after `x`. */
  lemma DashNameSplit(x: string, y: string)
    requires LineText(x) && NoDashSep(x) && LineText(y)
    ensures var s := x + " - " + y;
      SplitAfter(s, 0, DashToEnd) == Some(Groups(0, |x|, |x| + 3, |s|))
      && s[0..|x|] == x && s[|x| + 3..|s|] == y
  {
    var s := x + " - " + y;
    DashLayout(x, y);
    DashTailAt(s, |x|);
    NoDashInside(s, |x|);
    SplitAfterIs(s, 0, DashToEnd, |x|, |x| + 3, |s|);
  }

  /** `x - y` reads back as album `x` and artist `y` when no ` by ` occurs
      and `x` does not start like a list number. */
  lemma DashName(x: string, y: string)
    requires LineText(x) && NoDashSep(x) && LineText(y) && x[0] != '#' && !IsDigit(x[0])
    requires NoByWord(x + " - " + y)
    ensures ExtractAlbumInfo(x + " - " + y) == NameParts(x, y)
  {
    var s := x + " - " + y;
    assert s[0] == x[0];
    NoListNumber(s);
    NoBySplit(s, 0, InputEnd);
    DashNameSplit(x, y);
    TrimKeeps(x);
    TrimKeeps(y);
  }
}
