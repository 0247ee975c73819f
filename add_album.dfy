/** `AlbumManager` (addAlbum.js): adds one album to the catalog, or many in
    a row. The catalog file and the images directory are the manager's
    state; the outside image files and the converter's failures are
    parameters. */
module AddAlbum {
  import opened Results
  import opened Text
  import opened Urls
  import opened Catalog

  /** Why an album could not be added: the three checks of addAlbum, or the
      converter throwing (with the message it throws). */
  datatype AddError =
    | MissingParameters
    | InvalidUrl
    | ImageNotFound(path: string)
    | ConversionFailed(message: string)

  /** `error.message` of each failure. */
  function Message(e: AddError): string
  {
    match e
    case MissingParameters => "Missing required parameters: albumName, instagramUrl, and imagePath are required"
    case InvalidUrl => "Invalid Instagram URL format"
    case ImageNotFound(path) => "Image file not found: " + path
    case ConversionFailed(message) => message
  }

  /** `${albumNumber}.webp` */
  function ImageFile(n: nat): string
  {
    NatToString(n) + ".webp"
  }

  /** `images/${albumNumber}.webp` */
  function ImagePath(n: nat): string
  {
    "images/" + ImageFile(n)
  }

  /** processImage on the images directory: an existing output file is kept
      and no conversion runs; otherwise the converter writes it, unless it
      throws on this source. `broken` maps each source the converter cannot
      read to the message it throws. */
  function Convert(images: set<string>, source: string, n: nat, broken: map<string, string>): (set<string>, Result<string, AddError>)
  {
    if ImageFile(n) in images then (images, Ok(ImagePath(n)))
    else if source in broken then (images, Err(ConversionFailed(broken[source])))
    else (images + {ImageFile(n)}, Ok(ImagePath(n)))
  }

  /** The record addAlbum builds: `#N. name`, the link as given, the image,
      and the genres only when there are some. */
  function NewAlbum(n: nat, name: string, url: string, image: string, genres: Option<seq<string>>): Album
  {
    var genre := if genres.Some? && |genres.value| > 0 then genres else None;
    Album("#" + NatToString(n) + ". " + name, url, image, genre, None, None, None, None)
  }

  /** addAlbum(albumName, instagramUrl, imagePath, genres) on a store: the
      new store and the added record or the error thrown. `files` are the
      outside paths that exist; an empty string stands for any falsy value.
      The checks come in the order of the source. */
  function Add(st: Store, name: string, url: string, source: string, genres: Option<seq<string>>,
               files: set<string>, broken: map<string, string>): (Store, Result<Album, AddError>)
  {
    if name == "" || url == "" || source == "" then (st, Err(MissingParameters))
    else if !ValidateInstagramUrl(url) then (st, Err(InvalidUrl))
    else if source !in files then (st, Err(ImageNotFound(source)))
    else
      var n := NextAlbumNumber(st.albums);
      var (images, image) := Convert(st.images, source, n, broken);
      match image
      case Err(e) => (Store(st.albums, images), Err(e))
      case Ok(path) =>
        var a := NewAlbum(n, name, url, path, genres);
        (Store(st.albums + [a], images), Ok(a))
  }

  /** What one add does. A missing parameter is reported first, and only
      then. The add succeeds exactly when every check passes and the image
      exists or converts. On success the record `#N. name` is appended and
      nothing else changes in the catalog; it carries the next number, the
      link as given, the image of that number, which is now in the images
      directory, and the genres only when the list is not empty. A failed
      add changes nothing at all. */
  lemma AddOutcome(st: Store, name: string, url: string, source: string, genres: Option<seq<string>>,
                    files: set<string>, broken: map<string, string>)
    ensures var (st', r) := Add(st, name, url, source, genres, files, broken);
      var n := NextAlbumNumber(st.albums);
      && (r == Err(MissingParameters) <==> name == "" || url == "" || source == "")
      && (r.Err? ==> st' == st)
      && (r.Ok? <==> name != "" && url != "" && source != "" && ValidateInstagramUrl(url) && source in files
                     && (ImageFile(n) in st.images || source !in broken))
      && (r.Ok? ==> && st'.albums == st.albums + [r.value]
                    && r.value.name == "#" + NatToString(n) + ". " + name
                    && LeadNumber(r.value.name) == n
                    && r.value.link == url && r.value.image == ImagePath(n)
                    && (r.value.genre.Some? <==> genres.Some? && |genres.value| > 0)
                    && (r.value.genre.Some? ==> r.value.genre == genres)
                    && st'.images == st.images + {ImageFile(n)})
  {
    var n := NextAlbumNumber(st.albums);
    LeadNumberOfName(n, " " + name);
    assert "#" + NatToString(n) + ". " + name == "#" + NatToString(n) + "." + (" " + name);
  }

  /** Which error a failed add throws: the checks run in order, the first
      that fails decides, and a conversion failure carries the converter's
      message. */
  lemma AddFailures(st: Store, name: string, url: string, source: string, genres: Option<seq<string>>,
                    files: set<string>, broken: map<string, string>)
    requires name != "" && url != "" && source != ""
    ensures var r := Add(st, name, url, source, genres, files, broken).1;
      var n := NextAlbumNumber(st.albums);
      && (!ValidateInstagramUrl(url) ==> r == Err(InvalidUrl))
      && (ValidateInstagramUrl(url) && source !in files ==> r == Err(ImageNotFound(source)))
      && ((ValidateInstagramUrl(url) && source in files && ImageFile(n) !in st.images && source in broken)
          ==> r == Err(ConversionFailed(broken[source])))
  {
  }

  /** Each successful add moves the next number up by one, so numbers are
      handed out in sequence. */
  lemma AddAdvancesNumber(st: Store, name: string, url: string, source: string, genres: Option<seq<string>>,
                          files: set<string>, broken: map<string, string>)
    requires Add(st, name, url, source, genres, files, broken).1.Ok?
    ensures NextAlbumNumber(Add(st, name, url, source, genres, files, broken).0.albums) == NextAlbumNumber(st.albums) + 1
  {
    AddOutcome(st, name, url, source, genres, files, broken);
    var a := Add(st, name, url, source, genres, files, broken).1.value;
    NextAfterAppend(st.albums, a);
  }

  /** One entry of a bulk file: `{name, url, imagePath}`. */
  datatype Entry = Entry(name: string, url: string, imagePath: string)

  /** addAlbum on each entry in turn, without genres: the final store and
      one outcome per entry. */
  function AddAll(st: Store, entries: seq<Entry>, files: set<string>, broken: map<string, string>): (r: (Store, seq<Result<Album, AddError>>))
    ensures |r.1| == |entries|
    decreases |entries|
  {
    if entries == [] then (st, [])
    else
      var (st1, rs) := AddAll(st, entries[..|entries| - 1], files, broken);
      var e := entries[|entries| - 1];
      var (st2, r) := Add(st1, e.name, e.url, e.imagePath, None, files, broken);
      (st2, rs + [r])
  }

  /** The records of the successful outcomes, in order. */
  function Added(rs: seq<Result<Album, AddError>>): seq<Album>
  {
    if rs == [] then []
    else Added(rs[..|rs| - 1]) + (if rs[|rs| - 1].Ok? then [rs[|rs| - 1].value] else [])
  }

  /** After adding many entries the catalog is the old one followed by the
      added records, in the order of the entries, and those records are
      numbered consecutively from the next number. */
  lemma {:induction false} AddAllAppends(st: Store, entries: seq<Entry>, files: set<string>, broken: map<string, string>)
    ensures var (st', rs) := AddAll(st, entries, files, broken);
      && st'.albums == st.albums + Added(rs)
      && NextAlbumNumber(st'.albums) == NextAlbumNumber(st.albums) + |Added(rs)|
      && forall k | 0 <= k < |Added(rs)| :: LeadNumber(Added(rs)[k].name) == NextAlbumNumber(st.albums) + k
    decreases |entries|
  {
    if entries != [] {
      var init := entries[..|entries| - 1];
      AddAllAppends(st, init, files, broken);
      var (st1, rs) := AddAll(st, init, files, broken);
      var e := entries[|entries| - 1];
      var (st2, r) := Add(st1, e.name, e.url, e.imagePath, None, files, broken);
      assert (rs + [r])[..|rs + [r]| - 1] == rs;
      AddOutcome(st1, e.name, e.url, e.imagePath, None, files, broken);
      if r.Ok? {
        AddAdvancesNumber(st1, e.name, e.url, e.imagePath, None, files, broken);
      }
    }
  }

  /** The errors of the failed outcomes, in order. */
  function Errors(rs: seq<Result<Album, AddError>>): seq<AddError>
  {
    if rs == [] then []
    else Errors(rs[..|rs| - 1]) + (if rs[|rs| - 1].Err? then [rs[|rs| - 1].error] else [])
  }

  /** The summary counts, `successful` (`|Added(rs)|`) and `failed`
      (`|Errors(rs)|`), add up to the number of entries processed. */
  lemma {:induction false} OutcomeCounts(rs: seq<Result<Album, AddError>>)
    ensures |Added(rs)| + |Errors(rs)| == |rs|
    decreases |rs|
  {
    if rs != [] {
      OutcomeCounts(rs[..|rs| - 1]);
    }
  }

  /** The results pushed for the entries and their outcomes: result `i`
      is the record `report` builds for entry `i` and its outcome. */
  function Reports<R>(entries: seq<Entry>, rs: seq<Result<Album, AddError>>, report: (Entry, Result<Album, AddError>) -> R): seq<R>
    requires |rs| == |entries|
  {
    seq(|entries|, i requires 0 <= i < |entries| => report(entries[i], rs[i]))
  }

  /** One more entry and outcome adds one result at the end. */
  lemma ReportsStep<R>(entries: seq<Entry>, rs: seq<Result<Album, AddError>>, report: (Entry, Result<Album, AddError>) -> R,
                       e: Entry, r: Result<Album, AddError>)
    requires |rs| == |entries|
    ensures Reports(entries + [e], rs + [r], report) == Reports(entries, rs, report) + [report(e, r)]
  {
  }

  /** Processing one more entry is one more addAlbum on the store reached so
      far, and one more result at the end. */
  lemma AddAllStep<R>(st: Store, entries: seq<Entry>, i: nat, files: set<string>, broken: map<string, string>,
                      report: (Entry, Result<Album, AddError>) -> R)
    requires i < |entries|
    ensures var (st1, rs) := AddAll(st, entries[..i], files, broken);
      var e := entries[i];
      var (st2, r) := Add(st1, e.name, e.url, e.imagePath, None, files, broken);
      && AddAll(st, entries[..i + 1], files, broken) == (st2, rs + [r])
      && Reports(entries[..i + 1], rs + [r], report) == Reports(entries[..i], rs, report) + [report(e, r)]
  {
    var (st1, rs) := AddAll(st, entries[..i], files, broken);
    var e := entries[i];
    var r := Add(st1, e.name, e.url, e.imagePath, None, files, broken).1;
    assert entries[..i + 1][..i] == entries[..i];
    assert entries[..i + 1] == entries[..i] + [e];
    ReportsStep(entries[..i], rs, report, e, r);
  }

  /** `{success: true, album}` or `{success: false, error, name}`; the
      failure keeps the error, whose `error.message` is `Message(error)`. */
  datatype BulkResult = BulkAdded(album: Album) | BulkFailed(error: AddError, name: string)

  /** The result record bulkAdd pushes for one entry and its outcome. */
  function BulkResultOf(e: Entry, r: Result<Album, AddError>): BulkResult
  {
    match r
    case Ok(a) => BulkAdded(a)
    case Err(err) => BulkFailed(err, e.name)
  }

  /** The catalog and the images directory. */
  class AlbumManager {
    var albums: seq<Album>
    var images: set<string>

    function State(): Store
      reads this
    {
      Store(albums, images)
    }

    constructor(albums0: seq<Album>, images0: set<string>)
      ensures albums == albums0 && images == images0
    {
      albums := albums0;
      images := images0;
    }

    /** processImage(imagePath, albumNumber) */
    method ProcessImage(source: string, n: nat, broken: map<string, string>) returns (r: Result<string, AddError>)
      modifies this
      ensures albums == old(albums)
      ensures (images, r) == Convert(old(images), source, n, broken)
    {
      var file := ImageFile(n);
      if file in images {
        return Ok(ImagePath(n));
      }
      if source in broken {
        return Err(ConversionFailed(broken[source]));
      }
      images := images + {file};
      return Ok(ImagePath(n));
    }

    /** addAlbum(albumName, instagramUrl, imagePath, genres) */
    method AddAlbum(name: string, url: string, source: string, genres: Option<seq<string>>,
                    files: set<string>, broken: map<string, string>) returns (r: Result<Album, AddError>)
      modifies this
      ensures (State(), r) == Add(old(State()), name, url, source, genres, files, broken)
    {
      if name == "" || url == "" || source == "" {
        return Err(MissingParameters);
      }
      if !ValidateInstagramUrl(url) {
        return Err(InvalidUrl);
      }
      if source !in files {
        return Err(ImageNotFound(source));
      }
      var loaded := albums;
      var n := NextAlbumNumber(loaded);
      var image := ProcessImage(source, n, broken);
      if image.Err? {
        return Err(image.error);
      }
      var a := NewAlbum(n, name, url, image.value, genres);
      loaded := loaded + [a];
      albums := loaded;
      return Ok(a);
    }

    /** bulkAdd(albumsData): one result per entry, in order. */
    method BulkAdd(entries: seq<Entry>, files: set<string>, broken: map<string, string>) returns (results: seq<BulkResult>)
      modifies this
      ensures var (st, rs) := AddAll(old(State()), entries, files, broken);
        State() == st && results == Reports(entries, rs, BulkResultOf)
    {
      results := [];
      ghost var start := State();
      ghost var outcomes: seq<Result<Album, AddError>> := [];
      var i := 0;
      while i < |entries|
        invariant 0 <= i <= |entries|
        invariant (State(), outcomes) == AddAll(start, entries[..i], files, broken)
        invariant results == Reports(entries[..i], outcomes, BulkResultOf)
      {
        var e := entries[i];
        AddAllStep(start, entries, i, files, broken, BulkResultOf);
        var r := AddAlbum(e.name, e.url, e.imagePath, None, files, broken);
        outcomes := outcomes + [r];
        results := results + [BulkResultOf(e, r)];
        i := i + 1;
      }
      assert entries[..i] == entries;
    }
  }
}
