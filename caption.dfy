/** `InstagramAlbumSync.extractAlbumFromCaption` (instagramSync.js:64-126):
    the caption parser of the feed importer. Five patterns are tried in
    order on the whole caption and the first that matches decides; the
    album and artist it captured are then cleaned. A looser `x by y` search
    is the last resort. */
module Caption {
  import opened Results
  import opened Text
  import opened Patterns
  import opened ByWords
  import SyncCaption

  /** `{album, artist, number, fullName}`. The number is the matched digits
      as text, and is absent (`undefined`) unless the first pattern matched. */
  datatype CaptionInfo = CaptionInfo(album: string, artist: string, number: Option<string>, fullName: string)

  /** What a pattern captured, before cleaning: the number, the album and the artist. */
  datatype Raw = Raw(number: Option<string>, album: string, artist: string)

  /** `\s+by\s+(.+?)[\n\r\s]*(?:[🎵🎶🎸🥁🎤🎹🎺🎷]|$)` */
  const ByToNote: Sep := By(NoteOrEnd)

  /** `\s*-\s*(.+?)[\n\r\s]*(?:[🎵🎶🎸🥁🎤🎹🎺🎷]|$)` */
  const DashToNote: Sep := Sep([Spaces(0), Char('-')], 0, NoteOrEnd)

  /** `"\s+by\s+(.+?)[\n\r\s]` */
  const QuoteBy: Sep := Sep([Char('"'), Spaces(1), Word("by")], 1, OneSpace)

  /** `"?\s+by\s+(.+?)[\n\r\s]` */
  const OptQuoteBy: Sep := Sep([OptChar('"'), Spaces(1), Word("by")], 1, OneSpace)

  /** `\s+by\s+(.+?)(?:\s|$|\.)` */
  const ByToStop: Sep := By(SpaceEndOrDot)

  /** The two groups of a split, album first. */
  function GroupsOf(s: string, g: Groups, number: Option<string>): Raw
    requires g.Within(s)
  {
    Raw(number, s[g.from..g.mid], s[g.at..g.to])
  }

  /** First pattern, `#(\d+)\.\s*(.+?)\s+by\s+(.+?)` up to an emoji or the
      end, anywhere in the caption. */
  function NumberedBy(s: string): (r: Option<Raw>)
    ensures r.Some? ==> r.value.number.Some? && |r.value.number.value| > 0 && AllDigits(r.value.number.value)
  {
    var m := FirstNumberedSplit(s, ByToNote);
    if m.None? then None
    else
      var (p, d, g) := m.value;
      Some(GroupsOf(s, g, Some(NumberDigits(s, p, d))))
  }

  /** Second pattern, `^(.+?)\s+by\s+(.+?)` up to an emoji or the end. */
  function LeadingBy(s: string): Option<Raw>
  {
    match SplitAfter(s, 0, ByToNote)
    case None => None
    case Some(g) => Some(GroupsOf(s, g, None))
  }

  /** Third pattern, `^(.+?)\s*-\s*(.+?)` up to an emoji or the end: the
      artist comes first. */
  function ArtistDash(s: string): Option<Raw>
  {
    match SplitAfter(s, 0, DashToNote)
    case None => None
    case Some(g) => Some(Raw(None, s[g.at..g.to], s[g.from..g.mid]))
  }

  /** Fourth pattern tried at `p`: `"(.+?)"\s+by\s+(.+?)[\n\r\s]`. */
  function QuotedAt(s: string): nat -> Option<Groups>
  {
    (p: nat) => if p < |s| && s[p] == '"' then SplitAfter(s, p + 1, QuoteBy) else None
  }

  /** Fourth pattern, leftmost match. */
  function QuotedBy(s: string): Option<Raw>
  {
    var m := Leftmost(QuotedAt(s), 0, |s|);
    if m.None? then None
    else
      LeftmostFound(QuotedAt(s), 0, |s|);
      Some(GroupsOf(s, m.value.1, None))
  }

  /** `(?:album|record|ep|lp):` at `p`: the position after the colon. The
      four words start with different letters, so at most one can match. */
  function KeywordAt(s: string, p: nat): (r: Option<nat>)
    ensures r.Some? ==> p < r.value <= |s|
  {
    var w := if WordAt(s, p, "album") then 5
      else if WordAt(s, p, "record") then 6
      else if WordAt(s, p, "ep") || WordAt(s, p, "lp") then 2
      else 0;
    if w > 0 && p + w < |s| && s[p + w] == ':' then Some(p + w + 1) else None
  }

  /** After the colon at `c`: `\s*"?(.+?)"?\s+by\s+(.+?)[\n\r\s]`. The greedy
      `\s*` and `"?` are tried first, so a quote after the spaces is skipped
      when the rest matches after it; otherwise the group may start at the
      quote, and then the spaces give back one at a time. */
  function AfterColon(s: string, c: nat): (r: Option<Groups>)
    requires c <= |s|
    ensures r.Some? ==> r.value.Within(s)
  {
    var q := SpaceRunEnd(s, c);
    var quoted := if q < |s| && s[q] == '"' then SplitAfter(s, q + 1, OptQuoteBy) else None;
    if quoted.Some? then quoted else SplitAfterSpaces(s, c, OptQuoteBy)
  }

  /** Fifth pattern tried at `p`. */
  function KeywordGroups(s: string): nat -> Option<Groups>
  {
    (p: nat) =>
      if p <= |s| then
        match KeywordAt(s, p)
        case None => None
        case Some(c) => AfterColon(s, c)
      else None
  }

  /** Fifth pattern, leftmost match. */
  function KeywordBy(s: string): Option<Raw>
  {
    var m := Leftmost(KeywordGroups(s), 0, |s|);
    if m.None? then None
    else
      LeftmostFound(KeywordGroups(s), 0, |s|);
      Some(GroupsOf(s, m.value.1, None))
  }

  /** The five patterns in order; the first that matches decides. */
  function PatternMatch(s: string): (r: Option<Raw>)
    ensures r.Some? && r.value.number.Some? ==> |r.value.number.value| > 0 && AllDigits(r.value.number.value)
  {
    var numbered := NumberedBy(s);
    if numbered.Some? then numbered
    else
      var leading := LeadingBy(s);
      if leading.Some? then leading
      else
        var dash := ArtistDash(s);
        if dash.Some? then dash
        else
          var quoted := QuotedBy(s);
          if quoted.Some? then quoted else KeywordBy(s)
  }

  /** `album\s+` at `i`: where the spaces end. */
  function AlbumWordEnd(s: string, i: nat): (r: Option<nat>)
    requires i <= |s|
    ensures r.Some? ==> i < r.value <= |s|
  {
    if WordAt(s, i, "album") && SpaceRunEnd(s, i + 5) > i + 5 then Some(SpaceRunEnd(s, i + 5)) else None
  }

  /** `^(the\s+)?album\s+`: the end of the prefix, if there is one. The
      optional group is tried first. */
  function AlbumPrefixEnd(s: string): (r: Option<nat>)
    ensures r.Some? ==> 0 < r.value <= |s|
  {
    var the := if WordAt(s, 0, "the") && SpaceRunEnd(s, 3) > 3 then AlbumWordEnd(s, SpaceRunEnd(s, 3)) else None;
    if the.Some? then the else AlbumWordEnd(s, 0)
  }

  /** The album starts with `album ` or `the album `, in any case. */
  predicate AlbumPrefixed(s: string)
  {
    AlbumPrefixEnd(s).Some?
  }

  /** `album.replace(/^(the\s+)?album\s+/i, '')` */
  function StripAlbumWord(s: string): string
  {
    match AlbumPrefixEnd(s)
    case None => s
    case Some(e) => s[e..]
  }

  /** The characters `[🎵🎶🎸🥁🎤🎹🎺🎷\n\r]`. */
  predicate IsCut(c: char)
  {
    IsNote(c) || c == '\n' || c == '\r'
  }

  /** End of the longest run of such characters that starts at `i`. */
  function CutRunEnd(s: string, i: nat): (j: nat)
    requires i <= |s|
    ensures i <= j <= |s|
    ensures j == |s| || !IsCut(s[j])
    decreases |s| - i
  {
    if i < |s| && IsCut(s[i]) then CutRunEnd(s, i + 1) else i
  }

  /** `[🎵🎶🎸🥁🎤🎹🎺🎷\n\r]+.*$` tried at `p`: a run of those characters,
      then only `.` characters up to the end. Giving characters of the run
      back never helps, since a line feed or carriage return cannot be
      matched by `.`. */
  function CutAt(s: string): nat -> Option<nat>
  {
    (p: nat) => if p < |s| && IsCut(s[p]) && AllDot(s, CutRunEnd(s, p), |s|) then Some(p) else None
  }

  /** `artist.replace(/[🎵🎶🎸🥁🎤🎹🎺🎷\n\r]+.*$/, '')` */
  function CutArtist(s: string): string
  {
    var m := Leftmost(CutAt(s), 0, |s|);
    if m.None? then s else s[..m.value.0]
  }

  /** The clean-up applied to what a pattern captured. */
  function Clean(m: Raw): CaptionInfo
  {
    var album := Trim(StripAlbumWord(Trim(m.album)));
    var artist := Trim(CutArtist(Trim(m.artist)));
    CaptionInfo(album, artist, m.number, album + " by " + artist)
  }

  /** The last resort, `(.+?)\s+by\s+(.+?)(?:\s|$|\.)` anywhere, with the two
      groups only trimmed and no number. */
  function Fallback(s: string): Option<CaptionInfo>
  {
    var m := Leftmost(Splits(s, ByToStop), 0, |s|);
    if m.None? then None
    else
      LeftmostFound(Splits(s, ByToStop), 0, |s|);
      var g := m.value.1;
      var album := Trim(s[g.from..g.mid]);
      var artist := Trim(s[g.at..g.to]);
      Some(CaptionInfo(album, artist, None, album + " by " + artist))
  }

  /** extractAlbumFromCaption(caption): a falsy caption gives null; then the
      patterns, then the fallback; null when nothing matches. Whatever is
      returned has its parts trimmed, a full name joining them with ` by `,
      and a number made of digits only when there is one. */
  function ExtractAlbumFromCaption(caption: Option<string>): (r: Option<CaptionInfo>)
    ensures r.Some? ==> NoSpaceAtEnds(r.value.album) && NoSpaceAtEnds(r.value.artist)
    ensures r.Some? ==> r.value.fullName == r.value.album + " by " + r.value.artist
    ensures r.Some? && r.value.number.Some? ==> |r.value.number.value| > 0 && AllDigits(r.value.number.value)
  {
    if caption == None || caption == Some("") then None
    else
      var s := caption.value;
      var m := PatternMatch(s);
      if m.Some? then Some(Clean(m.value)) else Fallback(s)
  }

  /** `album\s+` at `i` when the spaces run from `i + 5` to `e`. */
  lemma AlbumWordEndIs(s: string, i: nat, e: nat)
    requires WordAt(s, i, "album") && i + 5 < e <= |s|
    requires forall k | i + 5 <= k < e :: IsSpace(s[k])
    requires e == |s| || !IsSpace(s[e])
    ensures AlbumWordEnd(s, i) == Some(e)
  {
    SpaceRunEndIs(s, i + 5, e);
  }

  /** `album`, in any case, and the spaces after it are removed from the
      front of the album. */
  lemma StripAlbumLead(s: string, e: nat)
    requires WordAt(s, 0, "album") && 5 < e <= |s|
    requires forall k | 5 <= k < e :: IsSpace(s[k])
    requires e == |s| || !IsSpace(s[e])
    ensures StripAlbumWord(s) == s[e..]
  {
    assert "album"[0] == 'a' && "the"[0] == 't';
    assert SameLetter(s[0], 'a');
    AlbumWordEndIs(s, 0, e);
  }

  /** `the album`, in any case, and the spaces after each word are removed
      from the front of the album. */
  lemma StripTheAlbumLead(s: string, a: nat, e: nat)
    requires WordAt(s, 0, "the") && 3 < a && a + 5 < e <= |s|
    requires forall k | 3 <= k < a :: IsSpace(s[k])
    requires WordAt(s, a, "album") && forall k | a + 5 <= k < e :: IsSpace(s[k])
    requires e == |s| || !IsSpace(s[e])
    ensures StripAlbumWord(s) == s[e..]
  {
    assert "album"[0] == 'a';
    assert SameLetter(s[a], 'a');
    SpaceRunEndIs(s, 3, a);
    AlbumWordEndIs(s, a, e);
  }

  /** A text with no music emoji and no line break is kept whole. */
  lemma CutArtistKeeps(y: string)
    requires NoNote(y) && AllDot(y, 0, |y|)
    ensures CutArtist(y) == y
  {
    forall p | 0 <= p < |y|
      ensures CutAt(y)(p).None?
    {
      assert IsDot(y[p]) && !IsNote(y[p]);
    }
    LeftmostAbsent(CutAt(y), 0, |y|);
  }

  /** Everything from the first music emoji on is cut off, when no line
      break follows it. */
  lemma CutArtistAtNote(y: string, n: char, z: string)
    requires NoNote(y) && AllDot(y, 0, |y|) && IsNote(n) && AllDot(z, 0, |z|)
    ensures CutArtist(y + [n] + z) == y
  {
    var s := y + [n] + z;
    forall p | 0 <= p < |y|
      ensures CutAt(s)(p).None?
    {
      assert s[p] == y[p];
    }
    assert s[|y|] == n;
    var r := CutRunEnd(s, |y|);
    assert r > |y|;
    forall k | r <= k < |s|
      ensures IsDot(s[k])
    {
      assert s[k] == z[k - |y| - 1];
    }
    LeftmostIs<nat>(CutAt(s), 0, |s|, |y|, |y|);
    assert s[..|y|] == y;
  }

  /** Groups that are already clean come out unchanged. */
  lemma CleanKeeps(n: Option<string>, x: string, y: string)
    requires LineText(x) && !AlbumPrefixed(x) && LineText(y) && NoNote(y)
    ensures Clean(Raw(n, x, y)) == CaptionInfo(x, y, n, x + " by " + y)
  {
    TrimKeeps(x);
    TrimKeeps(y);
    CutArtistKeeps(y);
  }

  /** One space and then `x by y` from `a` to the end, with `x` ending at
      `e`: the by-separator splits it after `x`. */
  lemma SpaceThenBy(s: string, a: nat, e: nat, y: string)
    requires ByShape(s, a, e) && 0 < a && s[a - 1] == ' '
    requires s[e + 4..|s|] == y && LineText(y) && NoNote(y)
    ensures SpaceRunEnd(s, a - 1) == a && SplitAfter(s, a, ByToNote) == Some(Groups(a, e, e + 4, |s|))
  {
    SpaceRunEndIs(s, a - 1, a);
    NoteFreeOf(s, e + 4, y);
    LazyToNote(s, e + 4);
    BySplitAt(s, a, e, NoteOrEnd);
  }

  /** Where the first pattern matches `#N. x by y`. */
  lemma NumberedMatch(s: string, ds: string, x: string, y: string, g: Groups)
    requires |ds| > 0 && AllDigits(ds) && LineText(x) && LineText(y) && NoNote(y)
    requires SyncCaption.NumberedByShape(s, ds, x, y)
    requires g == Groups(|ds| + 3, |ds| + 3 + |x|, |ds| + 7 + |x|, |s|)
    ensures FirstNumberedSplit(s, ByToNote) == Some((0, |ds| + 2, g)) && NumberDigits(s, 0, |ds| + 2) == ds
    ensures s[g.from..g.mid] == x && s[g.at..g.to] == y
  {
    NumberedPrefixAt(s, ds);
    SpaceThenBy(s, |ds| + 3, |ds| + 3 + |x|, y);
    FirstNumberedSplitOneSpace(s, ByToNote, |ds| + 2, g);
  }

  /** What the first pattern captures once its match is known; it decides. */
  lemma NumberedByOf(s: string, d: nat, g: Groups, ds: string, x: string, y: string)
    requires FirstNumberedSplit(s, ByToNote) == Some((0, d, g)) && NumberDigits(s, 0, d) == ds
    requires s[g.from..g.mid] == x && s[g.at..g.to] == y
    ensures PatternMatch(s) == Some(Raw(Some(ds), x, y))
  {
    assert NumberedBy(s) == Some(Raw(Some(ds), x, y));
  }

  /** The patterns capture `N`, `x` and `y` from `#N. x by y`. */
  lemma NumberedPattern(s: string, ds: string, x: string, y: string)
    requires |ds| > 0 && AllDigits(ds) && LineText(x) && LineText(y) && NoNote(y)
    requires SyncCaption.NumberedByShape(s, ds, x, y)
    ensures PatternMatch(s) == Some(Raw(Some(ds), x, y))
  {
    var g := Groups(|ds| + 3, |ds| + 3 + |x|, |ds| + 7 + |x|, |s|);
    NumberedMatch(s, ds, x, y, g);
    NumberedByOf(s, |ds| + 2, g, ds, x, y);
  }

  /** `#N. x by y` reads back as album `x`, artist `y` and number `N`. */
  lemma NumberedCaption(ds: string, x: string, y: string)
    requires |ds| > 0 && AllDigits(ds)
    requires LineText(x) && NoByWord(x) && !AlbumPrefixed(x) && LineText(y) && NoNote(y)
    ensures ExtractAlbumFromCaption(Some("#" + ds + ". " + x + " by " + y))
         == Some(CaptionInfo(x, y, Some(ds), x + " by " + y))
  {
    var s := "#" + ds + ". " + x + " by " + y;
    SyncCaption.NumberedLayout(ds, x, y);
    NumberedPattern(s, ds, x, y);
    CleanKeeps(Some(ds), x, y);
  }

  /** Without a `#` the first pattern never matches. */
  lemma NumberedByNoHash(s: string)
    requires '#' !in s
    ensures NumberedBy(s).None?
  {
    FirstNumberedSplitNoHash(s, ByToNote);
  }

  /** The second pattern splits `x by y` after `x`. */
  lemma LeadingByMatch(s: string, x: string, y: string)
    requires s == x + " by " + y
    requires LineText(x) && NoByWord(x) && LineText(y) && NoNote(y)
    ensures LeadingBy(s) == Some(Raw(None, x, y))
  {
    assert s[0..] == s;
    ByTextSplitNote(s, 0, x, y);
  }

  /** `x by y` without a `#` reads back as album `x` and artist `y`, with no number. */
  lemma ByCaption(x: string, y: string)
    requires LineText(x) && NoByWord(x) && !AlbumPrefixed(x) && LineText(y) && NoNote(y)
    requires '#' !in x && '#' !in y
    ensures ExtractAlbumFromCaption(Some(x + " by " + y)) == Some(CaptionInfo(x, y, None, x + " by " + y))
  {
    var s := x + " by " + y;
    assert '#' !in s;
    NumberedByNoHash(s);
    LeadingByMatch(s, x, y);
    CleanKeeps(None, x, y);
  }

  /** The characters of `a - b` in `s`, with `a` ending at `e`. */
  predicate DashNoteShape(s: string, e: nat)
  {
    && 0 < e && e + 3 < |s|
    && s[e] == ' ' && s[e + 1] == '-' && s[e + 2] == ' '
    && !IsSpace(s[e - 1]) && !IsSpace(s[e + 3])
    && AllDot(s, 0, e) && AllDot(s, e + 3, |s|) && NoteFree(s, e + 3)
    && forall i | 0 <= i < e :: s[i] != '-'
  }

  /** When the spaces at `m` are not followed by `-`, the dash separator does
      not match there. */
  lemma NoDashAt(s: string, m: nat)
    requires m <= |s|
    requires var q := SpaceRunEnd(s, m); q == |s| || s[q] != '-'
    ensures SepTail(s, m, DashToNote).None?
  {
    var q := SpaceRunEnd(s, m);
    TailFromStep(s, m, Spaces(0), [Char('-')], 0, NoteOrEnd, q);
    assert [Spaces(0)] + [Char('-')] == [Spaces(0), Char('-')];
  }

  /** The separator ` - ` at `e`, then the rest of the caption as the second group. */
  lemma DashTail(s: string, e: nat)
    requires DashNoteShape(s, e)
    ensures SepTail(s, e, DashToNote) == Some((e + 3, |s|))
  {
    SpaceRunEndIs(s, e, e + 1);
    SpaceRunEndIs(s, e + 2, e + 3);
    LazyToNote(s, e + 3);
    assert LazyGroups(s, NoteOrEnd)(e + 3) == Some(|s|);
    RightmostIs<nat>(LazyGroups(s, NoteOrEnd), e + 2, e + 3, e + 3, |s|);
    TailFromStep(s, e, Spaces(0), [Char('-')], 0, NoteOrEnd, e + 1);
    TailFromStep(s, e + 1, Char('-'), [], 0, NoteOrEnd, e + 2);
    assert [Spaces(0)] + [Char('-')] == [Spaces(0), Char('-')];
    assert [Char('-')] + [] == [Char('-')];
  }

  /** The third pattern splits at the first dash. */
  lemma DashSplit(s: string, e: nat)
    requires DashNoteShape(s, e)
    ensures SplitAfter(s, 0, DashToNote) == Some(Groups(0, e, e + 3, |s|))
  {
    DashTail(s, e);
    forall m | 1 <= m < e
      ensures SepStops(s, 0, DashToNote)(m).None?
    {
      var q := SpaceRunEnd(s, m);
      assert q < e && s[q] != '-';
      NoDashAt(s, m);
    }
    SplitAfterIs(s, 0, DashToNote, e, e + 3, |s|);
  }

  /** Where the parts of `a - b` lie. */
  lemma DashLayout(s: string, a: string, b: string)
    requires s == a + " - " + b
    requires LineText(a) && '-' !in a && LineText(b) && NoNote(b)
    ensures DashNoteShape(s, |a|) && s[0..|a|] == a && s[|a| + 3..|s|] == b
  {
    var e := |a|;
    assert s[0..e] == a;
    assert s[e + 3..|s|] == b;
    assert s[e - 1] == a[e - 1] && s[e + 3] == b[0];
    forall k | e + 3 <= k < |s|
      ensures IsDot(s[k])
    {
      assert s[k] == b[k - e - 3];
    }
    forall k | 0 <= k < e
      ensures IsDot(s[k]) && s[k] != '-'
    {
      assert s[k] == a[k];
    }
    NoteFreeOf(s, e + 3, b);
  }

  /** The third pattern captures `a` as the artist and `b` as the album. */
  lemma ArtistDashMatch(s: string, a: string, b: string)
    requires s == a + " - " + b
    requires LineText(a) && '-' !in a && LineText(b) && NoNote(b)
    ensures ArtistDash(s) == Some(Raw(None, b, a))
  {
    DashLayout(s, a, b);
    DashSplit(s, |a|);
  }

  /** `a - b` reads back as artist `a` and album `b` when there is no `#`,
      no `by` word and no other dash before it. */
  lemma DashCaption(a: string, b: string)
    requires LineText(a) && NoNote(a) && '-' !in a && '#' !in a
    requires LineText(b) && NoNote(b) && !AlbumPrefixed(b) && '#' !in b
    requires NoByWord(a + " - " + b)
    ensures ExtractAlbumFromCaption(Some(a + " - " + b)) == Some(CaptionInfo(b, a, None, b + " by " + a))
  {
    var s := a + " - " + b;
    assert '#' !in s;
    NumberedByNoHash(s);
    NoBySplit(s, 0, NoteOrEnd);
    ArtistDashMatch(s, a, b);
    CleanKeeps(None, b, a);
  }

  /** Without a `by` word the first pattern never matches. */
  lemma NoByNumbered(s: string)
    requires NoByWord(s)
    ensures NumberedBy(s).None?
  {
    forall a: nat
      ensures SplitAfter(s, a, ByToNote).None?
    {
      NoBySplit(s, a, NoteOrEnd);
    }
    forall p: nat | p < |s|
      ensures NumberedSplits(s, ByToNote)(p).None?
    {
      if NumberedAt(s, p).Some? {
        SplitAfterSpacesNone(s, NumberedAt(s, p).value, ByToNote);
      }
    }
    LeftmostAbsent(NumberedSplits(s, ByToNote), 0, |s|);
  }

  /** Without a `-` the third pattern never matches. */
  lemma NoDashNone(s: string)
    requires '-' !in s
    ensures ArtistDash(s).None?
  {
    forall m | 1 <= m < |s| + 1
      ensures SepStops(s, 0, DashToNote)(m).None?
    {
      var q := SpaceRunEnd(s, m);
      if q < |s| {
        assert s[q] in s;
      }
      NoDashAt(s, m);
    }
    LeftmostAbsent(SepStops(s, 0, DashToNote), 1, |s| + 1);
  }

  /** The quote pieces, spaces and a `by` word never match at `m` when no
      `by` word follows a space. */
  lemma NoQuoteByTail(s: string, m: nat, c: Piece)
    requires NoByWord(s) && m <= |s| && (c == Char('"') || c == OptChar('"'))
    ensures TailFrom(s, m, [c, Spaces(1), Word("by")], 1, OneSpace).None?
  {
    var f := PieceEnd(s, m, c);
    if f.Some? {
      TailFromStep(s, m, c, [Spaces(1), Word("by")], 1, OneSpace, f.value);
      assert [c] + [Spaces(1), Word("by")] == [c, Spaces(1), Word("by")];
      var q := SpaceRunEnd(s, f.value);
      if q - f.value >= 1 {
        TailFromStep(s, f.value, Spaces(1), [Word("by")], 1, OneSpace, q);
        assert [Spaces(1)] + [Word("by")] == [Spaces(1), Word("by")];
        assert IsSpace(s[q - 1]);
        if q + 1 < |s| {
          assert !ByWordAt(s, q);
        }
        assert "by"[0] == 'b' && "by"[1] == 'y';
        assert !WordAt(s, q, "by");
      }
    }
  }

  /** Hence a quote-by split never matches, wherever the group starts. */
  lemma NoQuoteBySplit(s: string, a: nat, c: Piece)
    requires NoByWord(s) && (c == Char('"') || c == OptChar('"'))
    ensures SplitAfter(s, a, Sep([c, Spaces(1), Word("by")], 1, OneSpace)).None?
  {
    var sep := Sep([c, Spaces(1), Word("by")], 1, OneSpace);
    forall m | a + 1 <= m < |s| + 1
      ensures SepStops(s, a, sep)(m).None?
    {
      NoQuoteByTail(s, m, c);
    }
    LeftmostAbsent(SepStops(s, a, sep), a + 1, |s| + 1);
  }

  /** Without a `by` word the fourth pattern never matches. */
  lemma NoByQuoted(s: string)
    requires NoByWord(s)
    ensures QuotedBy(s).None?
  {
    forall p: nat | p < |s|
      ensures QuotedAt(s)(p).None?
    {
      NoQuoteBySplit(s, p + 1, Char('"'));
    }
    LeftmostAbsent(QuotedAt(s), 0, |s|);
  }

  /** Without a `by` word nothing follows a colon. */
  lemma NoByAfterColon(s: string, c: nat)
    requires NoByWord(s) && c <= |s|
    ensures AfterColon(s, c).None?
  {
    forall a: nat
      ensures SplitAfter(s, a, OptQuoteBy).None?
    {
      NoQuoteBySplit(s, a, OptChar('"'));
    }
    SplitAfterSpacesNone(s, c, OptQuoteBy);
  }

  /** Without a `by` word the fifth pattern never matches. */
  lemma NoByKeyword(s: string)
    requires NoByWord(s)
    ensures KeywordBy(s).None?
  {
    forall p: nat | p < |s|
      ensures KeywordGroups(s)(p).None?
    {
      var c := KeywordAt(s, p);
      if c.Some? {
        NoByAfterColon(s, c.value);
      }
    }
    LeftmostAbsent(KeywordGroups(s), 0, |s|);
  }

  /** Without a `by` word the last resort finds nothing either. */
  lemma NoByFallback(s: string)
    requires NoByWord(s)
    ensures Fallback(s).None?
  {
    forall a: nat
      ensures Splits(s, ByToStop)(a).None?
    {
      NoBySplit(s, a, SpaceEndOrDot);
    }
    LeftmostAbsent(Splits(s, ByToStop), 0, |s|);
  }

  /** A caption with no `by` word after a space and no `-` gives null:
      every pattern needs one or the other. */
  lemma NoMatchCaption(s: string)
    requires NoByWord(s) && '-' !in s
    ensures ExtractAlbumFromCaption(Some(s)) == None
  {
    NoByNumbered(s);
    NoBySplit(s, 0, NoteOrEnd);
    NoDashNone(s);
    NoByQuoted(s);
    NoByKeyword(s);
    NoByFallback(s);
  }
}
