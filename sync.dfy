/** `AlbumSyncManager.sync` (syncFromInstagram.js:175-343): reconcile the
    catalog with a snapshot of the account's posts. Albums whose post is gone
    are deleted, image posts not yet in the catalog are added, and the result
    is saved sorted by number. Fetching, the JSON files and image conversion
    are inputs and fields; the links are compared through
    NormalizeInstagramUrl. */
module Sync {
  import opened Results
  import opened Text
  import opened Urls
  import opened Catalog
  import opened SyncCaption

  /** `post.media_type`: `IMAGE`, `VIDEO` or `CAROUSEL_ALBUM`. */
  datatype MediaType = Image | Video | CarouselAlbum

  /** A fetched post. A caption, timestamp or like count the post does not
      carry is None. */
  datatype Post = Post(
    mediaType: MediaType,
    permalink: string,
    mediaUrl: string,
    shortcode: string,
    caption: Option<string>,
    timestamp: Option<string>,
    likes: Option<int>)

  /** The `dryRun` and `includeComments` options of sync. */
  datatype Options = Options(dryRun: bool, includeComments: bool)

  /** What the network answers: the media URLs whose download or conversion
      throws, and the comments `fetchPostDetails` gives for each shortcode
      (a shortcode that is not a key makes the request throw; a missing
      `details` or `comments` is the empty list). */
  datatype Remote = Remote(failing: set<string>, comments: map<string, seq<string>>)

  /** The value sync returns: `undefined` when nothing was fetched, a thrown
      error, or `{deleted, added, total}`. */
  datatype SyncOutcome =
    | NoPosts
    | Aborted
    | Synced(deleted: seq<Album>, added: seq<Album>, total: nat)

  /** The identity of an album: its normalized link. */
  function UrlKey(a: Album): string
  {
    NormalizeInstagramUrl(a.link)
  }

  /** `existingByUrl`: each normalized link mapped to the last album that has it. */
  function ByUrl(albums: seq<Album>): map<string, Album>
    decreases |albums|
  {
    if albums == [] then map[]
    else
      var a := albums[|albums| - 1];
      ByUrl(albums[..|albums| - 1])[UrlKey(a) := a]
  }

  /** `instagramPostUrls`: the normalized permalinks of the image posts. */
  function PostUrls(posts: seq<Post>): set<string>
  {
    set q | q in posts && q.mediaType == Image :: NormalizeInstagramUrl(q.permalink)
  }

  /** The albums for which `keep` is `present`, in order. */
  function Select(albums: seq<Album>, keep: Album -> bool, present: bool): seq<Album>
    decreases |albums|
  {
    if albums == [] then []
    else
      var a := albums[|albums| - 1];
      Select(albums[..|albums| - 1], keep, present) + (if keep(a) == present then [a] else [])
  }

  /** `instagramPostUrls.has(normalizedUrl)` for an album. */
  function InUrls(urls: set<string>): Album -> bool
  {
    a => UrlKey(a) in urls
  }

  /** `albumsToKeep` */
  function Kept(albums: seq<Album>, urls: set<string>): seq<Album>
  {
    Select(albums, InUrls(urls), true)
  }

  /** `deletedAlbums` */
  function Deleted(albums: seq<Album>, urls: set<string>): seq<Album>
  {
    Select(albums, InUrls(urls), false)
  }

  /** `${albumInfo.number}`: a missing number prints as `null`. */
  function NumText(number: Option<nat>): string
  {
    if number.Some? then NatToString(number.value) else "null"
  }

  /** `${albumNumber}.webp` */
  function ImageFile(number: Option<nat>): string
  {
    NumText(number) + ".webp"
  }

  /** `images/${albumNumber}.webp` */
  function ImagePath(number: Option<nat>): string
  {
    "images/" + ImageFile(number)
  }

  /** `#${albumInfo.number}. ${albumInfo.fullName}` */
  function RecordName(info: AlbumInfo): string
  {
    "#" + NumText(info.number) + ". " + info.fullName
  }

  /** downloadAndProcessImage(imageUrl, albumNumber) on the images
      directory: an existing file is kept without a download; otherwise the
      file is written, unless the download or the conversion throws (None). */
  function Download(images: set<string>, mediaUrl: string, number: Option<nat>, failing: set<string>): (set<string>, Option<string>)
  {
    if ImageFile(number) in images then (images, Some(ImagePath(number)))
    else if mediaUrl in failing then (images, None)
    else (images + {ImageFile(number)}, Some(ImagePath(number)))
  }

  /** The record built for a new post; `comments` only when there are some. */
  function NewRecord(info: AlbumInfo, url: string, image: string, q: Post, comments: Option<seq<string>>): Album
  {
    var kept := if comments.Some? && |comments.value| > 0 then comments else None;
    Album(RecordName(info), url, image, None, q.caption, q.timestamp, q.likes, kept)
  }

  /** The state of the new-post loop: the images directory, `newAlbums`, and
      whether the loop has thrown. */
  datatype Pass = Pass(images: set<string>, added: seq<Album>, aborted: bool)

  /** One turn of the new-post loop. A post is skipped when it is not an
      image, when its link is already known, or when its caption yields no
      album; a caption that is absent makes the log line throw. A dry run
      stops there; otherwise a failing image or comment request drops the
      post. */
  function PostStep(p: Pass, q: Post, known: map<string, Album>, parse: Option<string> -> Option<AlbumInfo>, opts: Options, remote: Remote): Pass
  {
    if p.aborted || q.mediaType != Image then p
    else
      var url := NormalizeInstagramUrl(q.permalink);
      if url in known then p
      else match parse(q.caption)
        case None => if q.caption.None? then Pass(p.images, p.added, true) else p
        case Some(info) =>
          if opts.dryRun then p
          else
            var (images, image) := Download(p.images, q.mediaUrl, info.number, remote.failing);
            if image.None? then Pass(images, p.added, false)
            else if opts.includeComments && q.shortcode !in remote.comments then Pass(images, p.added, false)
            else
              var comments := if opts.includeComments then Some(remote.comments[q.shortcode]) else None;
              Pass(images, p.added + [NewRecord(info, url, image.value, q, comments)], false)
  }

  /** `this.extractAlbumInfo(post.caption)`: sync passes no existing number. */
  function CaptionParser(): Option<string> -> Option<AlbumInfo>
  {
    c => ExtractAlbumInfo(c, None)
  }

  /** The new-post loop over `posts`, from `start`. */
  function NewPosts(start: Pass, posts: seq<Post>, known: map<string, Album>, parse: Option<string> -> Option<AlbumInfo>, opts: Options, remote: Remote): Pass
    decreases |posts|
  {
    if posts == [] then start
    else PostStep(NewPosts(start, posts[..|posts| - 1], known, parse, opts, remote), posts[|posts| - 1], known, parse, opts, remote)
  }

  /** sync({dryRun, includeComments}) on a store, given what fetchPosts
      returned (None for a falsy value). */
  function SyncOf(st: Store, fetched: Option<seq<Post>>, opts: Options, remote: Remote): (Store, SyncOutcome)
  {
    if fetched.None? || fetched.value == [] then (st, NoPosts)
    else
      var posts := fetched.value;
      var p := NewPosts(Pass(st.images, [], false), posts, ByUrl(st.albums), CaptionParser(), opts, remote);
      if p.aborted then (Store(st.albums, p.images), Aborted)
      else
        var urls := PostUrls(posts);
        var kept := Kept(st.albums, urls);
        var albums := if opts.dryRun then st.albums else SortByNumber(kept + p.added);
        (Store(albums, p.images), Synced(Deleted(st.albums, urls), p.added, |kept| + |p.added|))
  }

  // ---------------------------------------------------------------------
  // The lookup map and the deletion phase

  /** A link is a key of `existingByUrl` exactly when some album has it. */
  lemma {:induction false} ByUrlKeys(albums: seq<Album>, url: string)
    ensures url in ByUrl(albums) <==> exists i | 0 <= i < |albums| :: UrlKey(albums[i]) == url
    decreases |albums|
  {
    if albums != [] {
      var init := albums[..|albums| - 1];
      ByUrlKeys(init, url);
      if exists i | 0 <= i < |albums| :: UrlKey(albums[i]) == url {
        var i :| 0 <= i < |albums| && UrlKey(albums[i]) == url;
        if i < |init| {
          assert UrlKey(init[i]) == url;
        }
      }
      if url in ByUrl(init) {
        var i :| 0 <= i < |init| && UrlKey(init[i]) == url;
        assert UrlKey(albums[i]) == url;
      }
    }
  }

  /** Each link maps to an album that has it: the last one. */
  lemma {:induction false} ByUrlValues(albums: seq<Album>, url: string)
    requires url in ByUrl(albums)
    ensures ByUrl(albums)[url] in albums && UrlKey(ByUrl(albums)[url]) == url
    decreases |albums|
  {
    var init := albums[..|albums| - 1];
    var a := albums[|albums| - 1];
    if url != UrlKey(a) {
      ByUrlValues(init, url);
      assert ByUrl(init)[url] in init;
    }
  }

  /** Deletion partitions the albums: each one is kept exactly when its link
      is among the post links, and deleted exactly when it is not. */
  lemma {:induction false} PartitionIff(albums: seq<Album>, keep: Album -> bool, present: bool, a: Album)
    ensures a in Select(albums, keep, present) <==> a in albums && keep(a) == present
    decreases |albums|
  {
    if albums != [] {
      var init := albums[..|albums| - 1];
      PartitionIff(init, keep, present, a);
      assert albums == init + [albums[|albums| - 1]];
    }
  }

  /** Every album lands in exactly one of the two lists, as often as it occurs. */
  lemma {:induction false} PartitionCounts(albums: seq<Album>, keep: Album -> bool)
    ensures multiset(Select(albums, keep, true)) + multiset(Select(albums, keep, false)) == multiset(albums)
    decreases |albums|
  {
    if albums != [] {
      var init := albums[..|albums| - 1];
      PartitionCounts(init, keep);
      assert albums == init + [albums[|albums| - 1]];
    }
  }

  /** The kept albums keep their relative order, and so do the deleted ones:
      selecting distributes over concatenation. */
  lemma {:induction false} PartitionOrder(a: seq<Album>, b: seq<Album>, keep: Album -> bool, present: bool)
    ensures Select(a + b, keep, present) == Select(a, keep, present) + Select(b, keep, present)
    decreases |b|
  {
    if b == [] {
      assert a + b == a;
    } else {
      var init := b[..|b| - 1];
      PartitionOrder(a, init, keep, present);
      var ab := a + b;
      assert ab[..|ab| - 1] == a + init && ab[|ab| - 1] == b[|b| - 1];
    }
  }

  /** When every link is among `urls`, nothing is deleted. */
  lemma {:induction false} NothingDeleted(albums: seq<Album>, urls: set<string>)
    requires forall a | a in albums :: UrlKey(a) in urls
    ensures Deleted(albums, urls) == []
    decreases |albums|
  {
    if albums != [] {
      NothingDeleted(albums[..|albums| - 1], urls);
      assert albums[|albums| - 1] in albums;
    }
  }

  // ---------------------------------------------------------------------
  // The new-post phase

  /** A record that came from post `q`: an image post whose normalized link
      was not known and whose caption parses, named `#N. fullName`, linked
      to the normalized permalink, holding the caption, and carrying
      comments only when there are some. */
  predicate FromPost(a: Album, q: Post, known: map<string, Album>, parse: Option<string> -> Option<AlbumInfo>)
  {
    && q.mediaType == Image
    && a.link == NormalizeInstagramUrl(q.permalink)
    && a.link !in known
    && parse(q.caption).Some?
    && a.name == RecordName(parse(q.caption).value)
    && a.image == ImagePath(parse(q.caption).value.number)
    && a.caption == q.caption
    && (a.comments.Some? ==> |a.comments.value| > 0)
  }

  /** Once the loop has thrown, later posts change nothing. */
  lemma {:induction false} NewPostsAbortedStays(start: Pass, posts: seq<Post>, i: nat, known: map<string, Album>, parse: Option<string> -> Option<AlbumInfo>, opts: Options, remote: Remote)
    requires i <= |posts| && NewPosts(start, posts[..i], known, parse, opts, remote).aborted
    ensures NewPosts(start, posts, known, parse, opts, remote) == NewPosts(start, posts[..i], known, parse, opts, remote)
    decreases |posts| - i
  {
    if i < |posts| {
      assert posts[..i + 1][..i] == posts[..i];
      NewPostsAbortedStays(start, posts, i + 1, known, parse, opts, remote);
    } else {
      assert posts[..i] == posts;
    }
  }

  /** A new image post without a caption: the one kind of post that throws. */
  predicate Throws(q: Post, known: map<string, Album>)
  {
    q.mediaType == Image && NormalizeInstagramUrl(q.permalink) !in known && q.caption.None?
  }

  /** One turn throws exactly on such a post. */
  lemma PostStepAborts(p0: Pass, q: Post, known: map<string, Album>, parse: Option<string> -> Option<AlbumInfo>, opts: Options, remote: Remote)
    requires parse(None).None?
    ensures PostStep(p0, q, known, parse, opts, remote).aborted <==> p0.aborted || Throws(q, known)
  {
  }

  /** With a parser that finds nothing in an absent caption, the loop throws
      exactly when some new image post has no caption. */
  lemma {:induction false} NewPostsAborts(images: set<string>, posts: seq<Post>, known: map<string, Album>, parse: Option<string> -> Option<AlbumInfo>, opts: Options, remote: Remote)
    requires parse(None).None?
    ensures NewPosts(Pass(images, [], false), posts, known, parse, opts, remote).aborted <==>
      exists i | 0 <= i < |posts| :: Throws(posts[i], known)
    decreases |posts|
  {
    if posts != [] {
      var init := posts[..|posts| - 1];
      var p0 := NewPosts(Pass(images, [], false), init, known, parse, opts, remote);
      NewPostsAborts(images, init, known, parse, opts, remote);
      PostStepAborts(p0, posts[|posts| - 1], known, parse, opts, remote);
      if p0.aborted {
        var i :| 0 <= i < |init| && Throws(init[i], known);
        assert posts[i] == init[i];
      }
      if exists i | 0 <= i < |posts| :: Throws(posts[i], known) {
        var i :| 0 <= i < |posts| && Throws(posts[i], known);
        if i < |init| {
          assert Throws(init[i], known);
        }
      }
    }
  }

  /** One turn adds at most one record, made from its post. */
  lemma PostStepAdds(p0: Pass, q: Post, known: map<string, Album>, parse: Option<string> -> Option<AlbumInfo>, opts: Options, remote: Remote, p: Pass)
    requires p == PostStep(p0, q, known, parse, opts, remote)
    ensures p.added == p0.added || (p.added == p0.added + [p.added[|p0.added|]] && FromPost(p.added[|p0.added|], q, known, parse))
  {
    if !p0.aborted && q.mediaType == Image && NormalizeInstagramUrl(q.permalink) !in known {
      match parse(q.caption)
      case None =>
      case Some(info) =>
        if !opts.dryRun {
          var (images, image) := Download(p0.images, q.mediaUrl, info.number, remote.failing);
          if image.Some? && !(opts.includeComments && q.shortcode !in remote.comments) {
            assert image.value == ImagePath(info.number);
            var comments := if opts.includeComments then Some(remote.comments[q.shortcode]) else None;
            var a := NewRecord(info, NormalizeInstagramUrl(q.permalink), image.value, q, comments);
            assert p.added == p0.added + [a];
            assert FromPost(a, q, known, parse);
          }
        }
    }
  }

  /** Every record the loop adds came from one of the posts, and the loop
      adds at most one record per post. */
  lemma {:induction false} NewPostsAdded(images: set<string>, posts: seq<Post>, known: map<string, Album>, parse: Option<string> -> Option<AlbumInfo>, opts: Options, remote: Remote, p: Pass)
    requires p == NewPosts(Pass(images, [], false), posts, known, parse, opts, remote)
    ensures |p.added| <= |posts|
    ensures forall k | 0 <= k < |p.added| :: exists i | 0 <= i < |posts| :: FromPost(p.added[k], posts[i], known, parse)
    decreases |posts|
  {
    if posts != [] {
      var init := posts[..|posts| - 1];
      var p0 := NewPosts(Pass(images, [], false), init, known, parse, opts, remote);
      NewPostsAdded(images, init, known, parse, opts, remote, p0);
      PostStepAdds(p0, posts[|posts| - 1], known, parse, opts, remote, p);
      forall k | 0 <= k < |p.added|
        ensures exists i | 0 <= i < |posts| :: FromPost(p.added[k], posts[i], known, parse)
      {
        if k < |p0.added| {
          var i :| 0 <= i < |init| && FromPost(p0.added[k], init[i], known, parse);
          assert posts[i] == init[i] && p.added[k] == p0.added[k];
        } else {
          assert FromPost(p.added[k], posts[|posts| - 1], known, parse);
        }
      }
    }
  }

  /** The record a post becomes once every check has passed: its image is
      `images/N.webp`, and its comments are fetched only when asked for. */
  function PostRecord(q: Post, info: AlbumInfo, opts: Options, remote: Remote): Album
    requires opts.includeComments ==> q.shortcode in remote.comments
  {
    NewRecord(info, NormalizeInstagramUrl(q.permalink), ImagePath(info.number), q,
              if opts.includeComments then Some(remote.comments[q.shortcode]) else None)
  }

  /** The turn on `q` adds a record: the loop has not thrown, `q` is a new
      image post whose caption parses, the run is real, the image is on disk
      or downloads, and the comments are there when asked for. */
  predicate StepAdds(p0: Pass, q: Post, known: map<string, Album>, parse: Option<string> -> Option<AlbumInfo>, opts: Options, remote: Remote)
  {
    && !p0.aborted && q.mediaType == Image && NormalizeInstagramUrl(q.permalink) !in known
    && parse(q.caption).Some? && !opts.dryRun
    && (ImageFile(parse(q.caption).value.number) in p0.images || q.mediaUrl !in remote.failing)
    && (opts.includeComments ==> q.shortcode in remote.comments)
  }

  /** A turn adds a record exactly when StepAdds holds, and then the record
      is the one built from the post. */
  lemma PostStepAddsWhen(p0: Pass, q: Post, known: map<string, Album>, parse: Option<string> -> Option<AlbumInfo>, opts: Options, remote: Remote)
    ensures var p := PostStep(p0, q, known, parse, opts, remote);
      && (p.added != p0.added <==> StepAdds(p0, q, known, parse, opts, remote))
      && (StepAdds(p0, q, known, parse, opts, remote) ==>
            p.added == p0.added + [PostRecord(q, parse(q.caption).value, opts, remote)] && !p.aborted)
  {
    var p := PostStep(p0, q, known, parse, opts, remote);
    if StepAdds(p0, q, known, parse, opts, remote) {
      assert |p.added| == |p0.added| + 1;
    }
  }

  /** A post sync turns into a record whatever the turns before it did: a
      new image post whose caption parses, in a real run, whose image
      downloads and whose comments are there when asked for. */
  predicate Admitted(q: Post, known: map<string, Album>, parse: Option<string> -> Option<AlbumInfo>, opts: Options, remote: Remote)
  {
    && q.mediaType == Image && NormalizeInstagramUrl(q.permalink) !in known
    && parse(q.caption).Some? && !opts.dryRun && q.mediaUrl !in remote.failing
    && (opts.includeComments ==> q.shortcode in remote.comments)
  }

  /** In a loop that does not throw, every admitted post's record is added. */
  lemma {:induction false} NewPostsComplete(images: set<string>, posts: seq<Post>, known: map<string, Album>, parse: Option<string> -> Option<AlbumInfo>, opts: Options, remote: Remote, p: Pass)
    requires p == NewPosts(Pass(images, [], false), posts, known, parse, opts, remote)
    requires !p.aborted
    ensures forall i | 0 <= i < |posts| && Admitted(posts[i], known, parse, opts, remote) ::
      PostRecord(posts[i], parse(posts[i].caption).value, opts, remote) in p.added
    decreases |posts|
  {
    if posts != [] {
      var init := posts[..|posts| - 1];
      var q := posts[|posts| - 1];
      var p0 := NewPosts(Pass(images, [], false), init, known, parse, opts, remote);
      assert !p0.aborted;
      NewPostsComplete(images, init, known, parse, opts, remote, p0);
      PostStepAdds(p0, q, known, parse, opts, remote, p);
      PostStepAddsWhen(p0, q, known, parse, opts, remote);
      forall i | 0 <= i < |posts| && Admitted(posts[i], known, parse, opts, remote)
        ensures PostRecord(posts[i], parse(posts[i].caption).value, opts, remote) in p.added
      {
        if i < |init| {
          assert posts[i] == init[i];
          assert p0.added <= p.added;
        } else {
          assert StepAdds(p0, q, known, parse, opts, remote);
        }
      }
    }
  }

  /** A dry run processes no image and adds no record. */
  lemma {:induction false} NewPostsDryRun(start: Pass, posts: seq<Post>, known: map<string, Album>, parse: Option<string> -> Option<AlbumInfo>, opts: Options, remote: Remote)
    requires opts.dryRun
    ensures NewPosts(start, posts, known, parse, opts, remote).images == start.images
    ensures NewPosts(start, posts, known, parse, opts, remote).added == start.added
    decreases |posts|
  {
    if posts != [] {
      NewPostsDryRun(start, posts[..|posts| - 1], known, parse, opts, remote);
    }
  }

  // ---------------------------------------------------------------------
  // The whole run

  /** A dry run changes neither the catalog nor the images directory. It
      still reports the albums whose posts are gone, adds none, and counts
      the albums that a real run would keep. */
  lemma SyncDryRun(st: Store, fetched: Option<seq<Post>>, opts: Options, remote: Remote)
    requires opts.dryRun
    ensures SyncOf(st, fetched, opts, remote).0 == st
    ensures var r := SyncOf(st, fetched, opts, remote).1;
      r.Synced? ==>
        && fetched.Some?
        && r.deleted == Deleted(st.albums, PostUrls(fetched.value))
        && r.added == []
        && r.total == |Kept(st.albums, PostUrls(fetched.value))|
  {
    if fetched.Some? && fetched.value != [] {
      NewPostsDryRun(Pass(st.images, [], false), fetched.value, ByUrl(st.albums), CaptionParser(), opts, remote);
    }
  }

  /** The run returns early exactly when nothing was fetched, and throws
      exactly when a new image post has no caption; in both cases the
      catalog is not written. */
  lemma SyncStops(st: Store, fetched: Option<seq<Post>>, opts: Options, remote: Remote, st2: Store, r: SyncOutcome)
    requires (st2, r) == SyncOf(st, fetched, opts, remote)
    ensures r == NoPosts <==> fetched.None? || fetched.value == []
    ensures r == NoPosts ==> st2 == st
    ensures r == Aborted <==> fetched.Some? && exists i | 0 <= i < |fetched.value| ::
      Throws(fetched.value[i], ByUrl(st.albums))
    ensures r == Aborted ==> st2.albums == st.albums
  {
    if fetched.Some? && fetched.value != [] {
      NewPostsAborts(st.images, fetched.value, ByUrl(st.albums), CaptionParser(), opts, remote);
    }
  }

  /** A completed run that is not a dry run saves the kept albums and the new
      ones, sorted by number; its deleted albums are exactly the loaded ones
      whose post is gone; and `total` is the size of the saved catalog. */
  lemma SyncSaved(st: Store, posts: seq<Post>, opts: Options, remote: Remote,
                  st2: Store, deleted: seq<Album>, added: seq<Album>, total: nat)
    requires !opts.dryRun
    requires (st2, Synced(deleted, added, total)) == SyncOf(st, Some(posts), opts, remote)
    ensures SortedBy(st2.albums, Key)
    ensures multiset(st2.albums) + multiset(deleted) == multiset(st.albums) + multiset(added)
    ensures forall a | a in st.albums :: a in deleted <==> UrlKey(a) !in PostUrls(posts)
    ensures total == |st2.albums|
  {
    var urls := PostUrls(posts);
    var kept := Kept(st.albums, urls);
    SortByNumberCorrect(kept + added);
    PartitionCounts(st.albums, InUrls(urls));
    forall a | a in st.albums
      ensures a in deleted <==> UrlKey(a) !in urls
    {
      PartitionIff(st.albums, InUrls(urls), false, a);
    }
  }

  /** Every added record came from an image post of the snapshot whose link
      was not in the catalog, so it never duplicates a loaded album's link. */
  lemma SyncAdded(st: Store, posts: seq<Post>, opts: Options, remote: Remote,
                  st2: Store, deleted: seq<Album>, added: seq<Album>, total: nat)
    requires (st2, Synced(deleted, added, total)) == SyncOf(st, Some(posts), opts, remote)
    ensures forall k | 0 <= k < |added| :: exists i | 0 <= i < |posts| :: FromPost(added[k], posts[i], ByUrl(st.albums), CaptionParser())
    ensures forall k, j | 0 <= k < |added| && 0 <= j < |st.albums| :: UrlKey(added[k]) != UrlKey(st.albums[j])
  {
    var p := NewPosts(Pass(st.images, [], false), posts, ByUrl(st.albums), CaptionParser(), opts, remote);
    NewPostsAdded(st.images, posts, ByUrl(st.albums), CaptionParser(), opts, remote, p);
    forall k, j | 0 <= k < |added| && 0 <= j < |st.albums|
      ensures UrlKey(added[k]) != UrlKey(st.albums[j])
    {
      var i :| 0 <= i < |posts| && FromPost(added[k], posts[i], ByUrl(st.albums), CaptionParser());
      NormalizeIdempotent(posts[i].permalink);
      ByUrlKeys(st.albums, UrlKey(st.albums[j]));
    }
  }

  /** A completed run adds the record of every admitted post of the snapshot
      and saves it in the catalog. */
  lemma SyncAddsAdmitted(st: Store, posts: seq<Post>, opts: Options, remote: Remote,
                         st2: Store, deleted: seq<Album>, added: seq<Album>, total: nat)
    requires (st2, Synced(deleted, added, total)) == SyncOf(st, Some(posts), opts, remote)
    ensures forall i | 0 <= i < |posts| && Admitted(posts[i], ByUrl(st.albums), CaptionParser(), opts, remote) ::
      && PostRecord(posts[i], CaptionParser()(posts[i].caption).value, opts, remote) in added
      && PostRecord(posts[i], CaptionParser()(posts[i].caption).value, opts, remote) in st2.albums
  {
    var p := NewPosts(Pass(st.images, [], false), posts, ByUrl(st.albums), CaptionParser(), opts, remote);
    NewPostsComplete(st.images, posts, ByUrl(st.albums), CaptionParser(), opts, remote, p);
    if !opts.dryRun {
      var kept := Kept(st.albums, PostUrls(posts));
      SortByNumberCorrect(kept + added);
      forall a | a in added ensures a in st2.albums {
        assert a in multiset(kept + added);
      }
    }
  }

  /** Syncing again against the same snapshot deletes nothing: every saved
      album's link belongs to an image post of it. */
  lemma SyncAgainDeletesNothing(st: Store, posts: seq<Post>, opts: Options, remote: Remote,
                                st2: Store, deleted: seq<Album>, added: seq<Album>, total: nat)
    requires !opts.dryRun
    requires (st2, Synced(deleted, added, total)) == SyncOf(st, Some(posts), opts, remote)
    ensures Deleted(st2.albums, PostUrls(posts)) == []
  {
    var urls := PostUrls(posts);
    var kept := Kept(st.albums, urls);
    SortByNumberCorrect(kept + added);
    SyncAdded(st, posts, opts, remote, st2, deleted, added, total);
    forall a | a in st2.albums
      ensures UrlKey(a) in urls
    {
      assert a in multiset(kept + added);
      if a in kept {
        PartitionIff(st.albums, InUrls(urls), true, a);
      } else {
        var k :| 0 <= k < |added| && added[k] == a;
        var i :| 0 <= i < |posts| && FromPost(added[k], posts[i], ByUrl(st.albums), CaptionParser());
        NormalizeIdempotent(posts[i].permalink);
        assert posts[i] in posts;
      }
    }
    NothingDeleted(st2.albums, urls);
  }

  // ---------------------------------------------------------------------
  // The loops

  /** Building `existingByUrl`. */
  method IndexByUrl(albums: seq<Album>) returns (byUrl: map<string, Album>)
    ensures byUrl == ByUrl(albums)
  {
    byUrl := map[];
    for i := 0 to |albums|
      invariant byUrl == ByUrl(albums[..i])
    {
      assert albums[..i + 1][..i] == albums[..i];
      byUrl := byUrl[UrlKey(albums[i]) := albums[i]];
    }
    assert albums[..|albums|] == albums;
  }

  /** The deletion loop: `albumsToKeep` and `deletedAlbums`. */
  method SplitByPosts(albums: seq<Album>, urls: set<string>) returns (kept: seq<Album>, deleted: seq<Album>)
    ensures kept == Kept(albums, urls) && deleted == Deleted(albums, urls)
  {
    kept, deleted := [], [];
    for i := 0 to |albums|
      invariant kept == Kept(albums[..i], urls) && deleted == Deleted(albums[..i], urls)
    {
      assert albums[..i + 1][..i] == albums[..i];
      if UrlKey(albums[i]) in urls {
        kept := kept + [albums[i]];
      } else {
        deleted := deleted + [albums[i]];
      }
    }
    assert albums[..|albums|] == albums;
  }

  /** The catalog file and the images directory of the sync engine. */
  class AlbumSyncManager {
    var albums: seq<Album>
    var images: set<string>

    function State(): Store
      reads this
    {
      Store(albums, images)
    }

    constructor(albums0: seq<Album>, images0: set<string>)
      ensures albums == albums0 && images == images0
    {
      albums := albums0;
      images := images0;
    }

    /** downloadAndProcessImage(imageUrl, albumNumber) */
    method DownloadAndProcessImage(mediaUrl: string, number: Option<nat>, failing: set<string>) returns (image: Option<string>)
      modifies this
      ensures albums == old(albums)
      ensures (images, image) == Download(old(images), mediaUrl, number, failing)
    {
      var file := ImageFile(number);
      if file in images {
        return Some(ImagePath(number));
      }
      if mediaUrl in failing {
        return None;
      }
      images := images + {file};
      return Some(ImagePath(number));
    }

    /** The new-post loop: `newAlbums`, or a throw. */
    method AddNewPosts(posts: seq<Post>, known: map<string, Album>, opts: Options, remote: Remote)
      returns (added: seq<Album>, aborted: bool)
      modifies this
      ensures albums == old(albums)
      ensures Pass(images, added, aborted) == NewPosts(Pass(old(images), [], false), posts, known, CaptionParser(), opts, remote)
    {
      ghost var start := Pass(images, [], false);
      added := [];
      for i := 0 to |posts|
        invariant albums == old(albums)
        invariant Pass(images, added, false) == NewPosts(start, posts[..i], known, CaptionParser(), opts, remote)
      {
        var q := posts[i];
        assert posts[..i + 1][..i] == posts[..i];
        if q.mediaType != Image {
          continue;
        }
        var url := NormalizeInstagramUrl(q.permalink);
        if url in known {
          continue;
        }
        var info := ExtractAlbumInfo(q.caption, None);
        assert CaptionParser()(q.caption) == info;
        if info.None? {
          if q.caption.None? {
            NewPostsAbortedStays(start, posts, i + 1, known, CaptionParser(), opts, remote);
            return added, true;
          }
          continue;
        }
        if opts.dryRun {
          continue;
        }
        var image := DownloadAndProcessImage(q.mediaUrl, info.value.number, remote.failing);
        if image.None? {
          continue;
        }
        var comments := None;
        if opts.includeComments {
          if q.shortcode !in remote.comments {
            continue;
          }
          comments := Some(remote.comments[q.shortcode]);
        }
        added := added + [NewRecord(info.value, url, image.value, q, comments)];
      }
      assert posts[..|posts|] == posts;
      aborted := false;
    }

    /** sync({dryRun, includeComments}) */
    method Sync(fetched: Option<seq<Post>>, opts: Options, remote: Remote) returns (r: SyncOutcome)
      modifies this
      ensures (State(), r) == SyncOf(old(State()), fetched, opts, remote)
    {
      if fetched.None? || |fetched.value| == 0 {
        return NoPosts;
      }
      var posts := fetched.value;
      var existing := albums;
      var byUrl := IndexByUrl(existing);
      var urls := PostUrls(posts);
      var kept, deleted := SplitByPosts(existing, urls);
      var added, aborted := AddNewPosts(posts, byUrl, opts, remote);
      if aborted {
        return Aborted;
      }
      if !opts.dryRun {
        albums := SortByNumber(kept + added);
      }
      return Synced(deleted, added, |kept| + |added|);
    }
  }
}
