/** The album catalog, albums.json: its records, the two readings of the
    `#N.` prefix of a record's name, and the order the catalog is saved in. */
module Catalog {
  import opened Results
  import opened Text
  import opened Patterns

  /** One record of albums.json. An optional field is None when the record
      does not carry it. */
  datatype Album = Album(
    name: string,
    link: string,
    image: string,
    genre: Option<seq<string>>,
    caption: Option<string>,
    timestamp: Option<string>,
    likes: Option<int>,
    comments: Option<seq<string>>)

  /** albums.json and the names of the files in images/. */
  datatype Store = Store(albums: seq<Album>, images: set<string>)

  /** The `#N.` prefix as getNextAlbumNumber reads it: `name.match(/^#(\d+)\./)`,
      parsed, or 0 when the name does not start that way. */
  function LeadNumber(name: string): nat
  {
    match NumberedAt(name, 0)
    case None => 0
    case Some(d) => DecimalValue(NumberDigits(name, 0, d))
  }

  function Max(a: nat, b: nat): nat
  {
    if a < b then b else a
  }

  /** `Math.max(...numbers)` over the lead numbers of a non-empty list. */
  function MaxLead(albums: seq<Album>): nat
    requires |albums| > 0
  {
    if |albums| == 1 then LeadNumber(albums[0].name)
    else Max(LeadNumber(albums[0].name), MaxLead(albums[1..]))
  }

  /** getNextAlbumNumber: 1 for an empty catalog, otherwise one more than
      the largest lead number. */
  function NextAlbumNumber(albums: seq<Album>): (n: nat)
    ensures n >= 1
  {
    if |albums| == 0 then 1 else MaxLead(albums) + 1
  }

  /** The largest lead number is at least every lead number and is one of them. */
  lemma {:induction false} MaxLeadIsMax(albums: seq<Album>)
    requires |albums| > 0
    ensures forall i | 0 <= i < |albums| :: LeadNumber(albums[i].name) <= MaxLead(albums)
    ensures exists i | 0 <= i < |albums| :: LeadNumber(albums[i].name) == MaxLead(albums)
    decreases |albums|
  {
    if |albums| > 1 {
      MaxLeadIsMax(albums[1..]);
      forall i | 1 <= i < |albums|
        ensures LeadNumber(albums[i].name) <= MaxLead(albums)
      {
        assert albums[i] == albums[1..][i - 1];
      }
      var j :| 0 <= j < |albums[1..]| && LeadNumber(albums[1..][j].name) == MaxLead(albums[1..]);
      if LeadNumber(albums[0].name) < MaxLead(albums[1..]) {
        assert LeadNumber(albums[j + 1].name) == MaxLead(albums);
      }
    }
  }

  /** The next number exceeds every number already in the catalog, and it is
      the smallest that does: one more than the largest, or 1. */
  lemma NextAlbumNumberAbove(albums: seq<Album>)
    ensures forall i | 0 <= i < |albums| :: LeadNumber(albums[i].name) < NextAlbumNumber(albums)
    ensures |albums| == 0 ==> NextAlbumNumber(albums) == 1
    ensures |albums| > 0 ==> exists i | 0 <= i < |albums| :: NextAlbumNumber(albums) == LeadNumber(albums[i].name) + 1
  {
    if |albums| > 0 {
      MaxLeadIsMax(albums);
    }
  }

  /** `#${n}. ` followed by any text starts with the number `n`. */
  lemma LeadNumberOfName(n: nat, rest: string)
    ensures LeadNumber("#" + NatToString(n) + "." + rest) == n
  {
    var s := "#" + NatToString(n) + "." + rest;
    NumberedPrefixAt(s, NatToString(n));
  }

  /** Appending the record that carries the next number moves the next number up by one. */
  lemma {:induction false} NextAfterAppend(albums: seq<Album>, a: Album)
    requires LeadNumber(a.name) == NextAlbumNumber(albums)
    ensures NextAlbumNumber(albums + [a]) == NextAlbumNumber(albums) + 1
  {
    var s := albums + [a];
    NextAlbumNumberAbove(albums);
    NextAlbumNumberAbove(s);
    assert s[|albums|] == a;
    forall i | 0 <= i < |albums|
      ensures LeadNumber(s[i].name) < LeadNumber(a.name)
    {
      assert s[i] == albums[i];
    }
    var j :| 0 <= j < |s| && NextAlbumNumber(s) == LeadNumber(s[j].name) + 1;
    assert LeadNumber(s[j].name) <= LeadNumber(a.name);
  }

  /** The sort key of the saved catalog: `a.name.match(/#(\d+)\./)`, which is
      not anchored, so the leftmost `#N.` anywhere in the name counts; 0 when
      there is none. */
  function SortKey(name: string): nat
  {
    var m := Leftmost(Numbered(name), 0, |name|);
    if m.None? then 0
    else
      LeftmostFound(Numbered(name), 0, |name|);
      DecimalValue(NumberDigits(name, m.value.0, m.value.1))
  }

  /** A name that starts with `#N.` has the same number under both readings. */
  lemma SortKeyOfLead(name: string)
    requires NumberedAt(name, 0).Some?
    ensures SortKey(name) == LeadNumber(name)
  {
    assert NoneIn(Numbered(name), 0, 0);
    LeftmostIs<nat>(Numbered(name), 0, |name|, 0, NumberedAt(name, 0).value);
  }

  /** Where the parts of `p#N.r` lie. */
  lemma HashInsideLayout(p: string, ds: string, r: string)
    ensures var s := p + "#" + ds + "." + r;
      && |s| == |p| + |ds| + 2 + |r| && s[..|p|] == p
      && s[|p|] == '#' && s[|p| + 1..|p| + |ds| + 1] == ds && s[|p| + |ds| + 1] == '.'
  {
    var s := p + "#" + ds + "." + r;
    assert s == p + "#" + (ds + "." + r);
    assert s[|p| + 1..] == ds + "." + r;
    assert s[|p| + 1..][..|ds|] == ds;
  }

  /** The two readings differ on a name whose first `#N.` is not at its
      start: getNextAlbumNumber counts it as 0, the sort as N. */
  lemma SortKeyUnanchored(p: string, ds: string, r: string)
    requires p != [] && '#' !in p && |ds| > 0 && AllDigits(ds)
    ensures LeadNumber(p + "#" + ds + "." + r) == 0
    ensures SortKey(p + "#" + ds + "." + r) == DecimalValue(ds)
  {
    var s := p + "#" + ds + "." + r;
    var h := |p|;
    HashInsideLayout(p, ds, r);
    NumberedInsideAt(s, h, ds);
    forall q | 0 <= q < h ensures Numbered(s)(q).None? {
      assert s[q] == s[..h][q] == p[q];
    }
    LeftmostIs<nat>(Numbered(s), 0, |s|, h, h + |ds| + 2);
    assert NumberedAt(s, 0) == None by {
      assert s[0] == p[0];
    }
  }

  /** The number the catalog is sorted by. */
  function Key(a: Album): nat
  {
    SortKey(a.name)
  }

  /** Place `a` before the first record whose key is not smaller. */
  function InsertBy(a: Album, sorted: seq<Album>, key: Album -> nat): (r: seq<Album>)
    ensures |r| == |sorted| + 1
  {
    if sorted == [] || key(a) <= key(sorted[0]) then [a] + sorted
    else [sorted[0]] + InsertBy(a, sorted[1..], key)
  }

  /** A stable sort by key, written as an insertion sort. */
  function SortBy(albums: seq<Album>, key: Album -> nat): (r: seq<Album>)
    ensures |r| == |albums|
  {
    if albums == [] then [] else InsertBy(albums[0], SortBy(albums[1..], key), key)
  }

  /** `updatedAlbums.sort((a, b) => numA - numB)`: Array.prototype.sort is
      stable, so records are ordered by their `#N.` number and records with
      the same number keep their order. */
  function SortByNumber(albums: seq<Album>): (r: seq<Album>)
    ensures |r| == |albums|
  {
    SortBy(albums, Key)
  }

  predicate SortedBy(s: seq<Album>, key: Album -> nat)
  {
    forall i, j | 0 <= i < j < |s| :: key(s[i]) <= key(s[j])
  }

  /** The records of `s` whose key is `k`, in order. */
  function WithKey(s: seq<Album>, key: Album -> nat, k: nat): seq<Album>
  {
    if s == [] then [] else (if key(s[0]) == k then [s[0]] else []) + WithKey(s[1..], key, k)
  }

  lemma {:induction false} InsertPermutes(a: Album, s: seq<Album>, key: Album -> nat)
    ensures multiset(InsertBy(a, s, key)) == multiset(s) + multiset{a}
    decreases |s|
  {
    if s != [] && key(a) > key(s[0]) {
      InsertPermutes(a, s[1..], key);
      assert s == [s[0]] + s[1..];
    }
  }

  lemma {:induction false} InsertSorted(a: Album, s: seq<Album>, key: Album -> nat)
    requires SortedBy(s, key)
    ensures SortedBy(InsertBy(a, s, key), key)
    decreases |s|
  {
    if s != [] && key(a) > key(s[0]) {
      InsertSorted(a, s[1..], key);
      InsertPermutes(a, s[1..], key);
      var t := InsertBy(a, s[1..], key);
      forall j | 0 <= j < |t|
        ensures key(s[0]) <= key(t[j])
      {
        var y := t[j];
        assert y in multiset(t);
        if y != a {
          assert y in multiset(s[1..]);
          var q :| 0 <= q < |s[1..]| && s[1..][q] == y;
          assert s[q + 1] == y;
        }
      }
      var r := [s[0]] + t;
      forall i, j | 0 <= i < j < |r|
        ensures key(r[i]) <= key(r[j])
      {
        if i > 0 {
          assert r[i] == t[i - 1] && r[j] == t[j - 1];
        }
      }
    }
  }

  lemma {:induction false} SortBySorted(s: seq<Album>, key: Album -> nat)
    ensures SortedBy(SortBy(s, key), key)
    ensures multiset(SortBy(s, key)) == multiset(s)
    decreases |s|
  {
    if s != [] {
      SortBySorted(s[1..], key);
      InsertSorted(s[0], SortBy(s[1..], key), key);
      InsertPermutes(s[0], SortBy(s[1..], key), key);
      assert s == [s[0]] + s[1..];
    }
  }

  lemma {:induction false} WithKeyInsert(a: Album, s: seq<Album>, key: Album -> nat, k: nat)
    ensures WithKey(InsertBy(a, s, key), key, k) == (if key(a) == k then [a] else []) + WithKey(s, key, k)
    decreases |s|
  {
    if s == [] || key(a) <= key(s[0]) {
      assert ([a] + s)[1..] == s;
    } else {
      WithKeyInsert(a, s[1..], key, k);
      assert ([s[0]] + InsertBy(a, s[1..], key))[1..] == InsertBy(a, s[1..], key);
    }
  }

  lemma {:induction false} SortByStable(s: seq<Album>, key: Album -> nat, k: nat)
    ensures WithKey(SortBy(s, key), key, k) == WithKey(s, key, k)
    decreases |s|
  {
    if s != [] {
      SortByStable(s[1..], key, k);
      WithKeyInsert(s[0], SortBy(s[1..], key), key, k);
    }
  }

  /** The saved catalog is ordered by number, holds exactly the records it
      was given, and keeps the order of records that share a number. */
  lemma SortByNumberCorrect(s: seq<Album>)
    ensures SortedBy(SortByNumber(s), Key)
    ensures multiset(SortByNumber(s)) == multiset(s)
    ensures forall k: nat :: WithKey(SortByNumber(s), Key, k) == WithKey(s, Key, k)
  {
    SortBySorted(s, Key);
    forall k: nat
      ensures WithKey(SortByNumber(s), Key, k) == WithKey(s, Key, k)
    {
      SortByStable(s, Key, k);
    }
  }
}
