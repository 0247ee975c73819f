/** batchAdd (batchAdd.js): reads a text file of `Album Name | URL | Image
    Path` lines, checks each line, and adds the valid ones with the album
    manager. The file's text, the home directory and the existing paths are
    parameters. */
module BatchAdd {
  import opened Results
  import opened Text
  import opened Patterns
  import opened ByWords
  import opened Urls
  import opened Catalog
  import opened AddAlbum

  /** `parts.map(p => p.trim())` */
  function TrimAll(parts: seq<string>): seq<string>
  {
    seq(|parts|, i requires 0 <= i < |parts| => Trim(parts[i]))
  }

  /** A trimmed line the file reader drops: an empty line, or a comment that
      starts with `#` but not with an album number `#N.`. */
  predicate Skipped(line: string)
  {
    line == "" || (line[0] == '#' && NumberedAt(line, 0).None?)
  }

  /** The lines that are not skipped, in order. */
  function KeepLines(lines: seq<string>): seq<string>
  {
    if lines == [] then []
    else (if Skipped(lines[0]) then [] else [lines[0]]) + KeepLines(lines[1..])
  }

  /** The lines batchAdd works on: the file split at line feeds, trimmed,
      without empty and comment lines. */
  function BatchLines(content: string): seq<string>
  {
    KeepLines(TrimAll(Split(content, '\n')))
  }

  /** A line is kept exactly when it is in the input and is not skipped. */
  lemma {:induction false} KeepLinesIn(lines: seq<string>, x: string)
    ensures x in KeepLines(lines) <==> x in lines && !Skipped(x)
    decreases |lines|
  {
    if lines != [] {
      KeepLinesIn(lines[1..], x);
      assert lines == [lines[0]] + lines[1..];
    }
  }

  /** Lines that are all kept come through unchanged. */
  lemma {:induction false} KeepLinesAll(lines: seq<string>)
    requires forall i | 0 <= i < |lines| :: !Skipped(lines[i])
    ensures KeepLines(lines) == lines
    decreases |lines|
  {
    if lines != [] {
      KeepLinesAll(lines[1..]);
    }
  }

  lemma TrimAllIn(parts: seq<string>, x: string)
    ensures x in TrimAll(parts) <==> exists i | 0 <= i < |parts| :: Trim(parts[i]) == x
  {
    if x in TrimAll(parts) {
      var i :| 0 <= i < |parts| && TrimAll(parts)[i] == x;
    }
    if exists i | 0 <= i < |parts| :: Trim(parts[i]) == x {
      var i :| 0 <= i < |parts| && Trim(parts[i]) == x;
      assert TrimAll(parts)[i] == x;
    }
  }

  /** The lines of a batch file are its trimmed lines that are neither empty
      nor comments; each is non-empty with no space at either end, and
      starts with `#` only when it starts with `#N.`. */
  lemma BatchLinesAre(content: string, x: string)
    ensures x in BatchLines(content)
        <==> (exists i | 0 <= i < |Split(content, '\n')| :: Trim(Split(content, '\n')[i]) == x) && !Skipped(x)
    ensures x in BatchLines(content) ==> x != "" && NoSpaceAtEnds(x) && (x[0] == '#' ==> NumberedAt(x, 0).Some?)
  {
    var parts := Split(content, '\n');
    KeepLinesIn(TrimAll(parts), x);
    TrimAllIn(parts, x);
    if x in BatchLines(content) {
      var i :| 0 <= i < |parts| && Trim(parts[i]) == x;
      assert Trim(Split(content, '\n')[i]) == x;
    }
  }

  /** A file written as album lines, one per line, reads back as those lines. */
  lemma BatchLinesOf(lines: seq<string>)
    requires |lines| > 0
    requires forall i | 0 <= i < |lines| :: '\n' !in lines[i] && NoSpaceAtEnds(lines[i]) && !Skipped(lines[i])
    ensures BatchLines(Join(lines, '\n')) == lines
  {
    SplitJoin(lines, '\n');
    forall i | 0 <= i < |lines|
      ensures Trim(lines[i]) == lines[i]
    {
      TrimKeeps(lines[i]);
    }
    assert TrimAll(lines) == lines;
    KeepLinesAll(lines);
  }

  /** `name.match(/^#\d+\.\s*(.+)$/)`: a leading album number and the spaces
      after it are removed when the rest of the name is one line. */
  function StripNumber(name: string): string
  {
    match NumberedAt(name, 0)
    case None => name
    case Some(d) =>
      match GroupAfterSpaces(name, d, 0, InputEnd)
      case None => name
      case Some(g) => name[g.0..g.1]
    }

  /** Only a prefix is ever removed. */
  lemma StripNumberSuffix(name: string, r: string)
    requires r == StripNumber(name)
    ensures |r| <= |name| && r == name[|name| - |r|..]
  {
    match NumberedAt(name, 0)
    case None =>
    case Some(d) =>
      match GroupAfterSpaces(name, d, 0, InputEnd)
      case None =>
      case Some(g) =>
        RightmostFound(LazyGroups(name, InputEnd), d, SpaceRunEnd(name, d));
        LazyEndSound(name, g.0, InputEnd);
    }

  /** `#N.` and spaces before a one-line name are removed, leaving the name. */
  lemma StripNumberOf(n: nat, gap: string, x: string)
    requires forall k | 0 <= k < |gap| :: IsSpace(gap[k])
    requires |x| > 0 && !IsSpace(x[0]) && AllDot(x, 0, |x|)
    ensures StripNumber("#" + NatToString(n) + "." + gap + x) == x
  {
    var ds := NatToString(n);
    var s := "#" + ds + "." + gap + x;
    var d := |ds| + 2;
    var q := d + |gap|;
    assert s[1..|ds| + 1] == ds;
    NumberedPrefixAt(s, ds);
    forall k | d <= k < q
      ensures IsSpace(s[k])
    {
      assert s[k] == gap[k - d];
    }
    assert s[q] == x[0];
    SpaceRunEndIs(s, d, q);
    forall k | q <= k < |s|
      ensures IsDot(s[k])
    {
      assert s[k] == x[k - q];
    }
    LazyToEnd(s, q, InputEnd);
    RightmostIs<nat>(LazyGroups(s, InputEnd), d, q, q, |s|);
    assert s[q..|s|] == x;
  }

  predicate IsQuote(c: char)
  {
    c == '"' || c == '\''
  }

  /** `imagePath.replace(/^["']|["']$/g, '')`: one quote at the start and one
      at the end come off; a lone quote is the start. */
  function StripQuotes(p: string): string
  {
    var a := if |p| > 0 && IsQuote(p[0]) then 1 else 0;
    var b := if |p| > a && IsQuote(p[|p| - 1]) then |p| - 1 else |p|;
    p[a..b]
  }

  /** Quoting a path with either kind of quote, or none, is undone. */
  lemma StripQuotesOf(x: string, open: Option<char>, close: Option<char>)
    requires |x| == 0 || (!IsQuote(x[0]) && !IsQuote(x[|x| - 1]))
    requires open.Some? ==> IsQuote(open.value)
    requires close.Some? ==> IsQuote(close.value)
    ensures var pre := if open.Some? then [open.value] else [];
      var post := if close.Some? then [close.value] else [];
      StripQuotes(pre + x + post) == x
  {
    var pre := if open.Some? then [open.value] else [];
    var post := if close.Some? then [close.value] else [];
    var p := pre + x + post;
    if |x| > 0 {
      assert p[|pre|] == x[0] && p[|pre| + |x| - 1] == x[|x| - 1];
    }
    assert p[|pre|..|pre| + |x|] == x;
  }

  /** `~` at the start stands for the home directory (`process.env.HOME`,
      given here as text). */
  function ExpandHome(p: string, home: string): string
  {
    if |p| > 0 && p[0] == '~' then home + p[1..] else p
  }

  /** Why a line was rejected. */
  datatype Problem = BadFormat | BadUrl | MissingImage(path: string)

  function ProblemMessage(p: Problem): string
  {
    match p
    case BadFormat => "Invalid format. Expected: Album Name | URL | Image Path"
    case BadUrl => "Invalid Instagram URL"
    case MissingImage(path) => "Image not found: " + path
  }

  /** `{line, content, error}`: `line` counts the kept lines from 1. */
  datatype LineError = LineError(line: nat, content: string, problem: Problem)

  /** The checks of one line, in the order of the source: three `|`-separated
      fields, a valid link, an image that exists once unquoted and expanded. */
  function ParseLine(line: string, home: string, files: set<string>): Result<Entry, Problem>
  {
    var parts := TrimAll(Split(line, '|'));
    if |parts| != 3 then Err(BadFormat)
    else
      var name := StripNumber(parts[0]);
      var url := parts[1];
      if !ValidateInstagramUrl(url) then Err(BadUrl)
      else
        var path := ExpandHome(StripQuotes(parts[2]), home);
        if path !in files then Err(MissingImage(path))
        else Ok(Entry(name, url, path))
  }

  /** A line has the wrong format exactly when it does not hold two `|`. */
  lemma ParseFormat(line: string, home: string, files: set<string>)
    ensures ParseLine(line, home, files) == Err(BadFormat) <==> Count(line, '|') != 2
  {
    SplitCount(line, '|');
  }

  /** `name | url | path` is the three padded fields joined by `|`. */
  lemma LineFields(name: string, url: string, path: string)
    ensures name + " | " + url + " | " + path == (name + " ") + ['|'] + (" " + url + " ") + ['|'] + (" " + path)
  {
  }

  /** The fields of a line written `name | url | path`. */
  lemma ParseFields(name: string, url: string, path: string)
    requires '|' !in name && '|' !in url && '|' !in path
    requires |name| > 0 && NoSpaceAtEnds(name) && |url| > 0 && NoSpaceAtEnds(url) && |path| > 0 && NoSpaceAtEnds(path)
    ensures TrimAll(Split(name + " | " + url + " | " + path, '|')) == [name, url, path]
  {
    LineFields(name, url, path);
    SplitThree(name + " ", " " + url + " ", " " + path, '|');
    TrimPadded(name);
    TrimPadded(url);
    TrimPadded(path);
  }

  /** A line written `name | url | path` is read back as those fields, with
      the number taken off the name and the path unquoted and expanded. */
  lemma ParseLineOf(name: string, url: string, path: string, home: string, files: set<string>)
    requires '|' !in name && '|' !in url && '|' !in path
    requires |name| > 0 && NoSpaceAtEnds(name) && |url| > 0 && NoSpaceAtEnds(url) && |path| > 0 && NoSpaceAtEnds(path)
    ensures var p := ExpandHome(StripQuotes(path), home);
      ParseLine(name + " | " + url + " | " + path, home, files)
        == if !ValidateInstagramUrl(url) then Err(BadUrl)
           else if p !in files then Err(MissingImage(p))
           else Ok(Entry(StripNumber(name), url, p))
  {
    ParseFields(name, url, path);
  }

  /** A line that passes has a valid link and an image that exists. */
  lemma ParseLineOk(line: string, home: string, files: set<string>)
    requires ParseLine(line, home, files).Ok?
    ensures ValidateInstagramUrl(ParseLine(line, home, files).value.url)
    ensures ParseLine(line, home, files).value.imagePath in files
  {
  }

  /** ParseLine with the home directory and the existing paths fixed. */
  function LineParser(home: string, files: set<string>): string -> Result<Entry, Problem>
  {
    line => ParseLine(line, home, files)
  }

  /** The parse loop over the kept lines, with `parse` checking one line:
      the albums to add and the errors, each in line order. */
  function ParseAll(lines: seq<string>, parse: string -> Result<Entry, Problem>): (r: (seq<Entry>, seq<LineError>))
    ensures |r.0| + |r.1| == |lines|
  {
    if lines == [] then ([], [])
    else
      var (entries, errors) := ParseAll(lines[..|lines| - 1], parse);
      var line := lines[|lines| - 1];
      match parse(line)
      case Ok(e) => (entries + [e], errors)
      case Err(p) => (entries, errors + [LineError(|lines|, line, p)])
  }

  /** Every error names a line by its number, quotes it and says why it was
      rejected, and the numbers rise. */
  lemma {:induction false} ParseAllErrors(lines: seq<string>, parse: string -> Result<Entry, Problem>, errors: seq<LineError>)
    requires errors == ParseAll(lines, parse).1
    ensures forall k | 0 <= k < |errors| ::
      && 1 <= errors[k].line <= |lines|
      && errors[k].content == lines[errors[k].line - 1]
      && parse(errors[k].content) == Err(errors[k].problem)
    ensures forall j, k | 0 <= j < k < |errors| :: errors[j].line < errors[k].line
    decreases |lines|
  {
    if lines != [] {
      var init := lines[..|lines| - 1];
      var line := lines[|lines| - 1];
      var before := ParseAll(init, parse).1;
      ParseAllErrors(init, parse, before);
      forall k | 0 <= k < |before|
        ensures lines[before[k].line - 1] == init[before[k].line - 1]
      {
      }
      match parse(line)
      case Ok(_) =>
        assert errors == before;
      case Err(p) =>
        assert errors == before + [LineError(|lines|, line, p)];
    }
  }

  /** Every album to add has a valid link and an image that exists. */
  lemma {:induction false} ParseAllEntries(lines: seq<string>, home: string, files: set<string>, entries: seq<Entry>)
    requires entries == ParseAll(lines, LineParser(home, files)).0
    ensures forall k | 0 <= k < |entries| :: ValidateInstagramUrl(entries[k].url) && entries[k].imagePath in files
    decreases |lines|
  {
    if lines != [] {
      var init := lines[..|lines| - 1];
      var line := lines[|lines| - 1];
      var before := ParseAll(init, LineParser(home, files)).0;
      ParseAllEntries(init, home, files, before);
      assert LineParser(home, files)(line) == ParseLine(line, home, files);
      match ParseLine(line, home, files)
      case Ok(e) =>
        ParseLineOk(line, home, files);
        assert entries == before + [e];
      case Err(_) =>
        assert entries == before;
    }
  }

  /** The parse loop of batchAdd. */
  method ParseLines(lines: seq<string>, home: string, files: set<string>) returns (entries: seq<Entry>, errors: seq<LineError>)
    ensures (entries, errors) == ParseAll(lines, LineParser(home, files))
  {
    entries := [];
    errors := [];
    var i := 0;
    while i < |lines|
      invariant 0 <= i <= |lines|
      invariant (entries, errors) == ParseAll(lines[..i], LineParser(home, files))
    {
      var line := lines[i];
      assert lines[..i + 1][..i] == lines[..i];
      var parts := TrimAll(Split(line, '|'));
      if |parts| != 3 {
        errors := errors + [LineError(i + 1, line, BadFormat)];
        i := i + 1;
        continue;
      }
      var name := StripNumber(parts[0]);
      var url := parts[1];
      if !ValidateInstagramUrl(url) {
        errors := errors + [LineError(i + 1, line, BadUrl)];
        i := i + 1;
        continue;
      }
      var path := ExpandHome(StripQuotes(parts[2]), home);
      if path !in files {
        errors := errors + [LineError(i + 1, line, MissingImage(path))];
        i := i + 1;
        continue;
      }
      entries := entries + [Entry(name, url, path)];
      i := i + 1;
    }
    assert lines[..i] == lines;
  }

  /** `{success: true, name}` or `{success: false, name, error}`; the
      failure keeps the error, whose `error.message` is `Message(error)`. */
  datatype BatchResult = BatchAdded(name: string) | BatchFailed(name: string, error: AddError)

  function BatchResultOf(e: Entry, r: Result<Album, AddError>): BatchResult
  {
    match r
    case Ok(_) => BatchAdded(e.name)
    case Err(err) => BatchFailed(e.name, err)
  }

  /** How a run ends: the file is missing, it holds no album lines, no line
      is valid, or the valid albums were added, with the errors found. */
  datatype BatchOutcome =
    | FileNotFound
    | NoAlbums
    | NoValidAlbums(errors: seq<LineError>)
    | Finished(errors: seq<LineError>, results: seq<BatchResult>)

  /** batchAdd on a store: the file's text (None when it does not exist),
      the home directory, the existing paths and the images the converter
      fails on. */
  function Batch(st: Store, content: Option<string>, home: string, files: set<string>, broken: map<string, string>): (Store, BatchOutcome)
  {
    match content
    case None => (st, FileNotFound)
    case Some(c) =>
      var lines := BatchLines(c);
      if lines == [] then (st, NoAlbums)
      else
        var (entries, errors) := ParseAll(lines, LineParser(home, files));
        if |errors| > 0 && entries == [] then (st, NoValidAlbums(errors))
        else
          var (st', rs) := AddAll(st, entries, files, broken);
          (st', Finished(errors, Reports(entries, rs, BatchResultOf)))
  }

  /** A run stops before adding anything exactly when the file is missing,
      holds no album lines, or holds no valid line; then the store is
      unchanged. When it finishes, every kept line gives one error or one
      result, the catalog grows by the added albums, in order, numbered on
      from the next number, and the summary counts add up. */
  lemma BatchEffect(st: Store, content: Option<string>, home: string, files: set<string>, broken: map<string, string>)
    ensures var (st', out) := Batch(st, content, home, files, broken);
      && (out == FileNotFound <==> content.None?)
      && (out == NoAlbums <==> content.Some? && BatchLines(content.value) == [])
      && (out.NoValidAlbums? <==> content.Some? && BatchLines(content.value) != []
                                  && ParseAll(BatchLines(content.value), LineParser(home, files)).0 == [])
      && (!out.Finished? ==> st' == st)
  {
  }

  /** What a finished run did to the catalog. */
  lemma BatchFinished(st: Store, c: string, home: string, files: set<string>, broken: map<string, string>)
    requires Batch(st, Some(c), home, files, broken).1.Finished?
    ensures var (st', out) := Batch(st, Some(c), home, files, broken);
      var entries := ParseAll(BatchLines(c), LineParser(home, files)).0;
      var rs := AddAll(st, entries, files, broken).1;
      && |out.errors| + |out.results| == |BatchLines(c)|
      && st'.albums == st.albums + Added(rs)
      && (forall k | 0 <= k < |Added(rs)| :: LeadNumber(Added(rs)[k].name) == NextAlbumNumber(st.albums) + k)
      && |Added(rs)| + |Errors(rs)| == |out.results|
  {
    var entries := ParseAll(BatchLines(c), LineParser(home, files)).0;
    AddAllAppends(st, entries, files, broken);
    OutcomeCounts(AddAll(st, entries, files, broken).1);
  }

  /** The add loop of batchAdd, one result per album in order. */
  method AddEntries(m: AlbumManager, entries: seq<Entry>, files: set<string>, broken: map<string, string>) returns (results: seq<BatchResult>)
    modifies m
    ensures var (st, rs) := AddAll(old(m.State()), entries, files, broken);
      m.State() == st && results == Reports(entries, rs, BatchResultOf)
  {
    results := [];
    ghost var start := m.State();
    ghost var outcomes: seq<Result<Album, AddError>> := [];
    var i := 0;
    while i < |entries|
      invariant 0 <= i <= |entries|
      invariant (m.State(), outcomes) == AddAll(start, entries[..i], files, broken)
      invariant results == Reports(entries[..i], outcomes, BatchResultOf)
    {
      var e := entries[i];
      AddAllStep(start, entries, i, files, broken, BatchResultOf);
      var r := m.AddAlbum(e.name, e.url, e.imagePath, None, files, broken);
      outcomes := outcomes + [r];
      results := results + [BatchResultOf(e, r)];
      i := i + 1;
    }
    assert entries[..i] == entries;
  }

  /** batchAdd(filePath) */
  method RunBatch(m: AlbumManager, content: Option<string>, home: string, files: set<string>, broken: map<string, string>) returns (outcome: BatchOutcome)
    modifies m
    ensures (m.State(), outcome) == Batch(old(m.State()), content, home, files, broken)
  {
    if content.None? {
      return FileNotFound;
    }
    var lines := BatchLines(content.value);
    if |lines| == 0 {
      return NoAlbums;
    }
    var entries, errors := ParseLines(lines, home, files);
    if |errors| > 0 && |entries| == 0 {
      return NoValidAlbums(errors);
    }
    var results := AddEntries(m, entries, files, broken);
    return Finished(errors, results);
  }
}
