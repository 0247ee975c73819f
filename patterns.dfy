/** The building blocks of the source's regular expressions, each following the
    order in which JavaScript's backtracking matcher tries alternatives:
    a lazy group `(.+?)` tries the shortest extent first, a greedy `\s*` or
    `\s+` the longest, and an unanchored pattern the leftmost start.
    Positions are indices into the subject string; a group is `s[from..to]`. */
module Patterns {
  import opened Results
  import opened Text

  /** The eight music emoji of the caption patterns: 🎵 🎶 🎸 🥁 🎤 🎹 🎺 🎷. */
  predicate IsNote(c: char)
  {
    || c == '\U{1F3B5}' || c == '\U{1F3B6}' || c == '\U{1F3B8}' || c == '\U{1F941}'
    || c == '\U{1F3A4}' || c == '\U{1F3B9}' || c == '\U{1F3BA}' || c == '\U{1F3B7}'
  }

  /** What must follow a lazy `(.+?)` group. */
  datatype Term =
    | LineEnd        // (?:\n|$)
    | InputEnd       // $  (for `(.+)$` the greedy and the lazy reading pick the same end)
    | NoteOrEnd      // [\n\r\s]*(?:[🎵🎶🎸🥁🎤🎹🎺🎷]|$)
    | OneSpace       // [\n\r\s]
    | SpaceEndOrDot  // (?:\s|$|\.)

  /** `t` matches at position `e`. For NoteOrEnd only the longest run of spaces
      can be followed by an emoji or the end, since neither is a space. */
  predicate TermAt(s: string, e: nat, t: Term)
    requires e <= |s|
  {
    match t
    case LineEnd => e == |s| || s[e] == '\n'
    case InputEnd => e == |s|
    case NoteOrEnd => var j := SpaceRunEnd(s, e); j == |s| || IsNote(s[j])
    case OneSpace => e < |s| && IsSpace(s[e])
    case SpaceEndOrDot => e == |s| || IsSpace(s[e]) || s[e] == '.'
  }

  predicate AllDot(s: string, i: nat, j: nat)
    requires i <= j <= |s|
  {
    forall k | i <= k < j :: IsDot(s[k])
  }

  /*
   * A backtracking matcher tries alternatives in a fixed order and takes the
   * first that lets the rest of the pattern match. Two orders occur: a lazy
   * `(.+?)`, like the start of an unanchored pattern, tries positions from
   * left to right (Leftmost); a greedy `\s*` that has to give characters back
   * tries them from right to left (Rightmost).
   */

  /** `f` finds no match at any position in `[lo, hi)`. */
  predicate NoneIn<T>(f: nat -> Option<T>, lo: nat, hi: nat)
  {
    forall q | lo <= q < hi :: f(q).None?
  }

  /** The leftmost position in `[p, n)` where `f` finds a match, with the match. */
  function Leftmost<T>(f: nat -> Option<T>, p: nat, n: nat): (r: Option<(nat, T)>)
    ensures r.Some? ==> p <= r.value.0 < n
    decreases n - p
  {
    if p >= n then None
    else match f(p)
      case Some(v) => Some((p, v))
      case None => Leftmost(f, p + 1, n)
  }

  /** What is found is a match of `f` at the position found. */
  lemma {:induction false} LeftmostFound<T>(f: nat -> Option<T>, p: nat, n: nat)
    requires Leftmost(f, p, n).Some?
    ensures f(Leftmost(f, p, n).value.0) == Some(Leftmost(f, p, n).value.1)
    decreases n - p
  {
    if f(p).None? {
      LeftmostFound(f, p + 1, n);
    }
  }

  /** No earlier position matches. */
  lemma {:induction false} LeftmostFirst<T>(f: nat -> Option<T>, p: nat, n: nat, m: (nat, T))
    requires Leftmost(f, p, n) == Some(m)
    ensures NoneIn(f, p, m.0)
    decreases n - p
  {
    if p < m.0 {
      LeftmostFirst(f, p + 1, n, m);
    }
  }

  /** No match means no position matches. */
  lemma {:induction false} LeftmostNone<T>(f: nat -> Option<T>, p: nat, n: nat)
    requires Leftmost(f, p, n).None?
    ensures NoneIn(f, p, n)
    decreases n - p
  {
    if p < n {
      LeftmostNone(f, p + 1, n);
    }
  }

  /** When no position matches, nothing is found. */
  lemma {:induction false} LeftmostAbsent<T>(f: nat -> Option<T>, p: nat, n: nat)
    requires NoneIn(f, p, n)
    ensures Leftmost(f, p, n).None?
    decreases n - p
  {
    if p < n {
      LeftmostAbsent(f, p + 1, n);
    }
  }

  /** The first position that matches is the one found. */
  lemma {:induction false} LeftmostIs<T>(f: nat -> Option<T>, p: nat, n: nat, q: nat, v: T)
    requires p <= q < n && f(q) == Some(v)
    requires NoneIn(f, p, q)
    ensures Leftmost(f, p, n) == Some((q, v))
    decreases q - p
  {
    if p < q {
      LeftmostIs(f, p + 1, n, q, v);
    }
  }

  /** The rightmost position in `[lo, hi]` where `f` finds a match, with the match. */
  function Rightmost<T>(f: nat -> Option<T>, lo: nat, hi: nat): (r: Option<(nat, T)>)
    ensures r.Some? ==> lo <= r.value.0 <= hi
    decreases hi
  {
    if hi < lo then None
    else match f(hi)
      case Some(v) => Some((hi, v))
      case None => if hi == lo then None else Rightmost(f, lo, hi - 1)
  }

  /** What is found is a match of `f` at the position found. */
  lemma {:induction false} RightmostFound<T>(f: nat -> Option<T>, lo: nat, hi: nat)
    requires Rightmost(f, lo, hi).Some?
    ensures f(Rightmost(f, lo, hi).value.0) == Some(Rightmost(f, lo, hi).value.1)
    decreases hi
  {
    if f(hi).None? {
      RightmostFound(f, lo, hi - 1);
    }
  }

  /** No later position matches. */
  lemma {:induction false} RightmostLast<T>(f: nat -> Option<T>, lo: nat, hi: nat, m: (nat, T))
    requires Rightmost(f, lo, hi) == Some(m)
    ensures NoneIn(f, m.0 + 1, hi + 1)
    decreases hi
  {
    if m.0 < hi {
      RightmostLast(f, lo, hi - 1, m);
    }
  }

  /** No match means no position matches. */
  lemma {:induction false} RightmostNone<T>(f: nat -> Option<T>, lo: nat, hi: nat)
    requires Rightmost(f, lo, hi).None?
    ensures NoneIn(f, lo, hi + 1)
    decreases hi
  {
    if lo < hi {
      RightmostNone(f, lo, hi - 1);
    }
  }

  /** When no position matches, nothing is found. */
  lemma {:induction false} RightmostAbsent<T>(f: nat -> Option<T>, lo: nat, hi: nat)
    requires NoneIn(f, lo, hi + 1)
    ensures Rightmost(f, lo, hi).None?
    decreases hi
  {
    if lo < hi {
      RightmostAbsent(f, lo, hi - 1);
    }
  }

  /** The last position that matches is the one found. */
  lemma {:induction false} RightmostIs<T>(f: nat -> Option<T>, lo: nat, hi: nat, q: nat, v: T)
    requires lo <= q <= hi && f(q) == Some(v)
    requires NoneIn(f, q + 1, hi + 1)
    ensures Rightmost(f, lo, hi) == Some((q, v))
    decreases hi
  {
    if q < hi {
      RightmostIs(f, lo, hi - 1, q, v);
    }
  }

  /** A group `(.+?)` that starts at `k` may end at `e` when it is a non-empty
      run of `.` characters after which `t` matches. */
  function LazyStops(s: string, k: nat, t: Term): nat -> Option<nat>
  {
    (e: nat) => if k < e <= |s| && AllDot(s, k, e) && TermAt(s, e, t) then Some(e) else None
  }

  /** `(.+?)` at `k` followed by `t`: the end of the shortest group that works. */
  function LazyEnd(s: string, k: nat, t: Term): (r: Option<nat>)
    ensures r.Some? ==> k < r.value <= |s|
  {
    var m := Leftmost(LazyStops(s, k, t), k + 1, |s| + 1);
    if m.None? then None
    else
      LeftmostFound(LazyStops(s, k, t), k + 1, |s| + 1);
      Some(m.value.0)
  }

  /** The group found is a run of `.` characters after which `t` matches. */
  lemma LazyEndSound(s: string, k: nat, t: Term)
    requires LazyEnd(s, k, t).Some?
    ensures AllDot(s, k, LazyEnd(s, k, t).value) && TermAt(s, LazyEnd(s, k, t).value, t)
  {
    LeftmostFound(LazyStops(s, k, t), k + 1, |s| + 1);
  }

  /** The group `(.+?)` followed by `t`, tried at every start. */
  function LazyGroups(s: string, t: Term): nat -> Option<nat>
  {
    (k: nat) => LazyEnd(s, k, t)
  }

  /** `\s{min,}(.+?)` followed by `t`, at `j`: the greedy spaces give back one
      at a time until the group matches. Yields the group's bounds. */
  function GroupAfterSpaces(s: string, j: nat, min: nat, t: Term): (r: Option<(nat, nat)>)
    requires j <= |s|
    ensures r.Some? ==> j + min <= r.value.0 <= SpaceRunEnd(s, j) && r.value.0 < r.value.1 <= |s|
  {
    var m := Rightmost(LazyGroups(s, t), j + min, SpaceRunEnd(s, j));
    if m.Some? then RightmostFound(LazyGroups(s, t), j + min, SpaceRunEnd(s, j)); m else m
  }

  /** A single space before the group: the group starts right after it. */
  lemma GroupAfterOneSpace(s: string, j: nat, min: nat, to: nat, t: Term)
    requires min <= 1
    requires j + 1 < |s| && IsSpace(s[j]) && !IsSpace(s[j + 1]) && LazyEnd(s, j + 1, t) == Some(to)
    ensures GroupAfterSpaces(s, j, min, t) == Some((j + 1, to))
  {
    SpaceRunEndIs(s, j, j + 1);
    assert LazyGroups(s, t)(j + 1) == Some(to);
    RightmostIs<nat>(LazyGroups(s, t), j + min, j + 1, j + 1, to);
  }

  /** One piece of the text between the two groups of a pattern. */
  datatype Piece =
    | Char(c: char)     // a literal character
    | OptChar(c: char)  // `c?`, used only before `\s+`, so giving the character back never helps
    | Spaces(min: nat)  // `\s{min,}` before a piece that cannot start with a space: always the longest run
    | Word(w: string)   // a literal matched without regard to ASCII case (the `i` flag)

  /** A separator between two groups: its pieces, then `\s{min,}`, the second
      group `(.+?)` and the group's terminator. */
  datatype Sep = Sep(pieces: seq<Piece>, min: nat, term: Term)

  /** End of piece `p` matched at `e`, if it matches. */
  function PieceEnd(s: string, e: nat, p: Piece): (r: Option<nat>)
    requires e <= |s|
    ensures r.Some? ==> e <= r.value <= |s|
  {
    match p
    case Char(c) => if e < |s| && s[e] == c then Some(e + 1) else None
    case OptChar(c) => if e < |s| && s[e] == c then Some(e + 1) else Some(e)
    case Spaces(min) => var q := SpaceRunEnd(s, e); if q - e >= min then Some(q) else None
    case Word(w) => if WordAt(s, e, w) then Some(e + |w|) else None
  }

  /** The pieces `ps` at `e`, then `\s{min,}(.+?)` and `t`: the second group's bounds. */
  function TailFrom(s: string, e: nat, ps: seq<Piece>, min: nat, t: Term): (r: Option<(nat, nat)>)
    requires e <= |s|
    ensures r.Some? ==> e <= r.value.0 < r.value.1 <= |s|
    decreases |ps|
  {
    if ps == [] then GroupAfterSpaces(s, e, min, t)
    else match PieceEnd(s, e, ps[0])
      case None => None
      case Some(f) => TailFrom(s, f, ps[1..], min, t)
  }

  /** Once the first piece matches, the rest of the separator goes on from its end. */
  lemma TailFromStep(s: string, e: nat, p: Piece, ps: seq<Piece>, min: nat, t: Term, f: nat)
    requires e <= |s| && PieceEnd(s, e, p) == Some(f)
    ensures TailFrom(s, e, [p] + ps, min, t) == TailFrom(s, f, ps, min, t)
  {
    assert ([p] + ps)[1..] == ps;
  }

  /** The separator and second group at `e`. */
  function SepTail(s: string, e: nat, sep: Sep): (r: Option<(nat, nat)>)
    requires e <= |s|
    ensures r.Some? ==> e <= r.value.0 < r.value.1 <= |s|
  {
    TailFrom(s, e, sep.pieces, sep.min, sep.term)
  }

  /** Bounds of both groups: the first is `s[from..mid]`, the second `s[at..to]`. */
  datatype Groups = Groups(from: nat, mid: nat, at: nat, to: nat)
  {
    predicate Within(s: string)
    {
      from < mid <= at < to <= |s|
    }
  }

  /** A first group `(.+?)` that starts at `a` may end at `m` when it is a
      non-empty run of `.` characters after which the separator matches. */
  function SepStops(s: string, a: nat, sep: Sep): nat -> Option<(nat, nat)>
  {
    (m: nat) => if a < m <= |s| && AllDot(s, a, m) then SepTail(s, m, sep) else None
  }

  /** `(.+?)` at `a` followed by `sep`: the first group is the shortest that
      lets the rest match, so the split falls at the first qualifying separator. */
  function SplitAfter(s: string, a: nat, sep: Sep): (r: Option<Groups>)
    ensures r.Some? ==> r.value.from == a && r.value.Within(s)
  {
    var m := Leftmost(SepStops(s, a, sep), a + 1, |s| + 1);
    if m.None? then None
    else
      LeftmostFound(SepStops(s, a, sep), a + 1, |s| + 1);
      Some(Groups(a, m.value.0, m.value.1.0, m.value.1.1))
  }

  /** The split falls at the first position after which the separator matches. */
  lemma SplitAfterIs(s: string, a: nat, sep: Sep, m: nat, k: nat, e: nat)
    requires a < m <= |s| && AllDot(s, a, m) && SepTail(s, m, sep) == Some((k, e))
    requires NoneIn(SepStops(s, a, sep), a + 1, m)
    ensures SplitAfter(s, a, sep) == Some(Groups(a, m, k, e))
  {
    LeftmostIs<(nat, nat)>(SepStops(s, a, sep), a + 1, |s| + 1, m, (k, e));
  }

  /** SplitAfter tried at every start. */
  function Splits(s: string, sep: Sep): nat -> Option<Groups>
  {
    (a: nat) => SplitAfter(s, a, sep)
  }

  /** `\s*(.+?)` followed by `sep`, at `d`: the greedy `\s*` gives back one space
      at a time, so the first group starts as late as possible. */
  function SplitAfterSpaces(s: string, d: nat, sep: Sep): (r: Option<Groups>)
    requires d <= |s|
    ensures r.Some? ==> d <= r.value.from <= SpaceRunEnd(s, d) && r.value.Within(s)
  {
    var m := Rightmost(Splits(s, sep), d, SpaceRunEnd(s, d));
    if m.None? then None
    else
      RightmostFound(Splits(s, sep), d, SpaceRunEnd(s, d));
      Some(m.value.1)
  }

  /** Exactly one space before a split: the first group starts after it. */
  lemma SplitAfterOneSpace(s: string, d: nat, sep: Sep, g: Groups)
    requires d < |s| && SpaceRunEnd(s, d) == d + 1 && SplitAfter(s, d + 1, sep) == Some(g)
    ensures SplitAfterSpaces(s, d, sep) == Some(g)
  {
    assert Splits(s, sep)(d + 1) == Some(g);
  }

  /** When no start in the run of spaces splits, nothing is found. */
  lemma SplitAfterSpacesNone(s: string, d: nat, sep: Sep)
    requires d <= |s| && forall a | d <= a <= SpaceRunEnd(s, d) :: SplitAfter(s, a, sep).None?
    ensures SplitAfterSpaces(s, d, sep).None?
  {
    assert NoneIn(Splits(s, sep), d, SpaceRunEnd(s, d) + 1);
    RightmostAbsent(Splits(s, sep), d, SpaceRunEnd(s, d));
  }

  /** `#(\d+)\.` at `p`: the position after the dot. The digits are the longest
      run, since a shorter one would be followed by a digit, not a dot. */
  function NumberedAt(s: string, p: nat): (r: Option<nat>)
    requires p <= |s|
    ensures r.Some? ==> p + 3 <= r.value <= |s| && s[p] == '#' && s[r.value - 1] == '.'
    ensures r.Some? ==> AllDigits(s[p + 1..r.value - 1])
  {
    if p < |s| && s[p] == '#' then
      var d := DigitRunEnd(s, p + 1);
      if d > p + 1 && d < |s| && s[d] == '.' then Some(d + 1) else None
    else None
  }

  /** The digits of a `#(\d+)\.` match at `p` ending at `d`. */
  function NumberDigits(s: string, p: nat, d: nat): (ds: string)
    requires p + 3 <= d <= |s| && AllDigits(s[p + 1..d - 1])
    ensures |ds| > 0 && AllDigits(ds)
  {
    s[p + 1..d - 1]
  }

  /** `#(\d+)\.` tried at every position (none past the end). */
  function Numbered(s: string): nat -> Option<nat>
  {
    (p: nat) => if p <= |s| then NumberedAt(s, p) else None
  }

  /** `#N.` written out at the start of a text. */
  lemma NumberedPrefixAt(s: string, ds: string)
    requires |ds| > 0 && AllDigits(ds) && |ds| + 1 < |s|
    requires s[0] == '#' && s[|ds| + 1] == '.' && s[1..|ds| + 1] == ds
    ensures NumberedAt(s, 0) == Some(|ds| + 2) && NumberDigits(s, 0, |ds| + 2) == ds
  {
    forall k | 1 <= k <= |ds|
      ensures IsDigit(s[k])
    {
      assert s[k] == ds[k - 1];
    }
    DigitRunEndIs(s, 1, |ds| + 1);
  }

  /** `#N.` written out at position `h` of a text. */
  lemma NumberedInsideAt(s: string, h: nat, ds: string)
    requires |ds| > 0 && AllDigits(ds) && h + |ds| + 1 < |s|
    requires s[h] == '#' && s[h + |ds| + 1] == '.' && s[h + 1..h + |ds| + 1] == ds
    ensures NumberedAt(s, h) == Some(h + |ds| + 2) && NumberDigits(s, h, h + |ds| + 2) == ds
  {
    forall k | h + 1 <= k <= h + |ds|
      ensures IsDigit(s[k])
    {
      assert s[k] == ds[k - h - 1];
    }
    DigitRunEndIs(s, h + 1, h + |ds| + 1);
  }

  /** `#(\d+)\.\s*(.+?)` followed by `sep`, at `p`: the end of the number and the groups. */
  function NumberedSplitAt(s: string, p: nat, sep: Sep): (r: Option<(nat, Groups)>)
    requires p <= |s|
    ensures r.Some? ==> NumberedAt(s, p) == Some(r.value.0) && r.value.0 <= r.value.1.from && r.value.1.Within(s)
  {
    match NumberedAt(s, p)
    case None => None
    case Some(d) =>
      match SplitAfterSpaces(s, d, sep)
      case None => None
      case Some(g) => Some((d, g))
  }

  /** NumberedSplitAt tried at every position. */
  function NumberedSplits(s: string, sep: Sep): nat -> Option<(nat, Groups)>
  {
    (p: nat) => if p <= |s| then NumberedSplitAt(s, p, sep) else None
  }

  /** The leftmost `#(\d+)\.\s*(.+?)` followed by `sep`: where the number
      starts, the end of the number, and the groups. */
  function FirstNumberedSplit(s: string, sep: Sep): (r: Option<(nat, nat, Groups)>)
    ensures r.Some? ==> r.value.0 <= |s| && NumberedAt(s, r.value.0) == Some(r.value.1) && r.value.2.Within(s)
  {
    var m := Leftmost(NumberedSplits(s, sep), 0, |s|);
    if m.None? then None
    else
      LeftmostFound(NumberedSplits(s, sep), 0, |s|);
      Some((m.value.0, m.value.1.0, m.value.1.1))
  }

  /** A match at the start of the text is the leftmost one. */
  lemma FirstNumberedSplitAtStart(s: string, sep: Sep, d: nat, g: Groups)
    requires |s| > 0 && NumberedSplitAt(s, 0, sep) == Some((d, g))
    ensures FirstNumberedSplit(s, sep) == Some((0, d, g))
  {
    assert NoneIn(NumberedSplits(s, sep), 0, 0);
    LeftmostIs<(nat, Groups)>(NumberedSplits(s, sep), 0, |s|, 0, (d, g));
  }

  /** `#N.` at the start, then exactly one space before a split: the first
      group starts right after that space. */
  lemma FirstNumberedSplitOneSpace(s: string, sep: Sep, d: nat, g: Groups)
    requires NumberedAt(s, 0) == Some(d) && d < |s| && SpaceRunEnd(s, d) == d + 1
    requires SplitAfter(s, d + 1, sep) == Some(g)
    ensures FirstNumberedSplit(s, sep) == Some((0, d, g))
  {
    SplitAfterOneSpace(s, d, sep, g);
    FirstNumberedSplitAtStart(s, sep, d, g);
  }

  /** Without a `#` there is no numbered match. */
  lemma FirstNumberedSplitNoHash(s: string, sep: Sep)
    requires '#' !in s
    ensures FirstNumberedSplit(s, sep).None?
  {
    forall p: nat | p < |s|
      ensures NumberedSplits(s, sep)(p).None?
    {
      assert s[p] != '#';
    }
    assert NoneIn(NumberedSplits(s, sep), 0, |s|);
    LeftmostAbsent(NumberedSplits(s, sep), 0, |s|);
  }
}
