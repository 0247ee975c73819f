/** `InstagramAlbumSync.syncNewPosts` (instagramSync.js:146-259): import the
    image posts that are not yet in the catalog. Each selected post's caption
    is read by ExtractAlbumFromCaption; in a dry run the album is only
    reported, otherwise the post's image is downloaded to a temporary file
    and handed to addAlbum. The fetched posts and the outcome of each
    download are inputs. */
module InstagramSync {
  import opened Results
  import opened Text
  import opened Catalog
  import opened AddAlbum
  import opened Caption
  import opened Urls
  import Sync

  /** `existingLinks`: the links of the loaded albums, compared as stored. */
  function Links(albums: seq<Album>): set<string>
  {
    set a | a in albums :: a.link
  }

  /** The filter on the fetched posts: an image post whose link is not in
      the catalog and whose caption holds more than white space. */
  predicate Wanted(q: Sync.Post, links: set<string>)
  {
    && q.mediaType == Sync.Image
    && q.permalink !in links
    && q.caption.Some? && |Trim(q.caption.value)| > 0
  }

  /** `newPosts`: the wanted posts, in feed order. */
  function NewPosts(posts: seq<Sync.Post>, links: set<string>): seq<Sync.Post>
    decreases |posts|
  {
    if posts == [] then []
    else
      var init := NewPosts(posts[..|posts| - 1], links);
      if Wanted(posts[|posts| - 1], links) then init + [posts[|posts| - 1]] else init
  }

  /** A post is selected exactly when it was fetched and passes the filter. */
  lemma {:induction false} NewPostsIff(posts: seq<Sync.Post>, links: set<string>, q: Sync.Post)
    ensures q in NewPosts(posts, links) <==> q in posts && Wanted(q, links)
    decreases |posts|
  {
    if posts != [] {
      var init := posts[..|posts| - 1];
      NewPostsIff(init, links, q);
      assert posts == init + [posts[|posts| - 1]];
    }
  }

  /** Selection keeps the feed order: selecting from one run of posts after
      another is selecting from each in turn. */
  lemma {:induction false} NewPostsOrder(a: seq<Sync.Post>, b: seq<Sync.Post>, links: set<string>)
    ensures NewPosts(a + b, links) == NewPosts(a, links) + NewPosts(b, links)
    decreases |b|
  {
    if b != [] {
      var init := b[..|b| - 1];
      NewPostsOrder(a, init, links);
      var q := b[|b| - 1];
      assert (a + b)[..|a + b| - 1] == a + init;
      assert (a + b)[|a + b| - 1] == q;
      if Wanted(q, links) {
        assert NewPosts(a + b, links) == NewPosts(a + init, links) + [q];
        assert NewPosts(b, links) == NewPosts(init, links) + [q];
      } else {
        assert NewPosts(a + b, links) == NewPosts(a + init, links);
        assert NewPosts(b, links) == NewPosts(init, links);
      }
    } else {
      assert a + b == a;
    }
  }

  /** What the outside world does for one run: the temporary file each
      media URL downloads to (a URL that is not a key makes the download
      throw), and the sources whose conversion throws. */
  datatype Downloads = Downloads(saved: map<string, string>, broken: map<string, string>)

  /** Why a post whose caption was read was not added: the download threw,
      or addAlbum did. */
  datatype PostError = DownloadFailed | AddFailed(error: AddError)

  /** One entry of the returned list:
      `{success: false, reason}` for a caption that could not be read,
      `{success: true, dryRun: true, albumInfo}` in a dry run,
      `{success: true, album, albumInfo}` for an added album, and
      `{success: false, error, albumInfo}` for a failure. */
  datatype PostResult =
    | NoAlbumInfo(post: Sync.Post)
    | WouldAdd(info: CaptionInfo, post: Sync.Post)
    | AddedAlbum(album: Album, info: CaptionInfo, post: Sync.Post)
    | Failed(error: PostError, info: CaptionInfo, post: Sync.Post)

  /** The caption reader the sync uses. */
  function CaptionParser(): Option<string> -> Option<CaptionInfo>
  {
    c => ExtractAlbumFromCaption(c)
  }

  /** One pass of the loop over the selected posts, with `parse` as the
      caption reader: the new store and the result pushed. */
  function PostStep(st: Store, q: Sync.Post, parse: Option<string> -> Option<CaptionInfo>, dryRun: bool,
                    env: Downloads): (Store, PostResult)
  {
    match parse(q.caption)
    case None => (st, NoAlbumInfo(q))
    case Some(info) =>
      if dryRun then (st, WouldAdd(info, q))
      else if q.mediaUrl !in env.saved then (st, Failed(DownloadFailed, info, q))
      else
        var temp := env.saved[q.mediaUrl];
        var (st', r) := Add(st, info.fullName, q.permalink, temp, None, {temp}, env.broken);
        match r
        case Ok(a) => (st', AddedAlbum(a, info, q))
        case Err(e) => (st', Failed(AddFailed(e), info, q))
  }

  /** The loop over the selected posts: the final store and the results,
      one per post. */
  function SyncPosts(st: Store, posts: seq<Sync.Post>, parse: Option<string> -> Option<CaptionInfo>, dryRun: bool,
                     env: Downloads): (Store, seq<PostResult>)
    decreases |posts|
  {
    if posts == [] then (st, [])
    else
      var (st1, rs) := SyncPosts(st, posts[..|posts| - 1], parse, dryRun, env);
      var (st2, r) := PostStep(st1, posts[|posts| - 1], parse, dryRun, env);
      (st2, rs + [r])
  }

  /** syncNewPosts(accessToken, dryRun) on a store, with `fetched` the posts
      getInstagramPosts returned: the new store and the results. */
  function SyncNewPostsOf(st: Store, fetched: seq<Sync.Post>, dryRun: bool, env: Downloads): (Store, seq<PostResult>)
  {
    var selected := NewPosts(fetched, Links(st.albums));
    if selected == [] then (st, [])
    else SyncPosts(st, selected, CaptionParser(), dryRun, env)
  }

  /** The albums of the `AddedAlbum` results, in order. */
  function AddedAlbums(rs: seq<PostResult>): seq<Album>
  {
    if rs == [] then []
    else AddedAlbums(rs[..|rs| - 1]) + (if rs[|rs| - 1].AddedAlbum? then [rs[|rs| - 1].album] else [])
  }

  /** One post: the result is about that post; it lacks album information
      exactly when the caption cannot be read, and otherwise carries what
      was read; a dry run changes nothing and neither adds nor fails. */
  lemma PostStepResult(st: Store, q: Sync.Post, parse: Option<string> -> Option<CaptionInfo>, dryRun: bool,
                       env: Downloads, st': Store, r: PostResult)
    requires (st', r) == PostStep(st, q, parse, dryRun, env)
    ensures r.post == q
    ensures r.NoAlbumInfo? <==> parse(q.caption).None?
    ensures !r.NoAlbumInfo? ==> parse(q.caption) == Some(r.info)
    ensures dryRun ==> st' == st && (r.NoAlbumInfo? || r.WouldAdd?)
    ensures !dryRun ==> !r.WouldAdd?
    ensures r.Failed? && r.error == DownloadFailed <==> !dryRun && parse(q.caption).Some? && q.mediaUrl !in env.saved
  {
  }

  /** One post: an added album is appended to the catalog, links to the
      post and takes the next number; any other result leaves the catalog
      as it was. */
  lemma PostStepAlbums(st: Store, q: Sync.Post, parse: Option<string> -> Option<CaptionInfo>, dryRun: bool,
                       env: Downloads, st': Store, r: PostResult)
    requires (st', r) == PostStep(st, q, parse, dryRun, env)
    ensures st'.albums == st.albums + (if r.AddedAlbum? then [r.album] else [])
    ensures r.AddedAlbum? ==> r.album.link == q.permalink && LeadNumber(r.album.name) == NextAlbumNumber(st.albums)
    ensures NextAlbumNumber(st'.albums) == NextAlbumNumber(st.albums) + (if r.AddedAlbum? then 1 else 0)
  {
    var info := parse(q.caption);
    if info.Some? && !dryRun && q.mediaUrl in env.saved {
      var temp := env.saved[q.mediaUrl];
      var name := info.value.fullName;
      AddOutcome(st, name, q.permalink, temp, None, {temp}, env.broken);
      if Add(st, name, q.permalink, temp, None, {temp}, env.broken).1.Ok? {
        AddAdvancesNumber(st, name, q.permalink, temp, None, {temp}, env.broken);
      }
    }
  }

  /** One post whose caption was read: addAlbum adds it exactly when the run
      is real, the image was downloaded, the name, link and temporary path
      are not empty, the link is valid and the image is on disk or converts.
      The album is then `#N. fullName` with the next number N, links to the
      post and has image `images/N.webp` and no genre. */
  lemma PostStepAdded(st: Store, q: Sync.Post, parse: Option<string> -> Option<CaptionInfo>, dryRun: bool,
                      env: Downloads, info: CaptionInfo)
    requires parse(q.caption) == Some(info)
    ensures var r := PostStep(st, q, parse, dryRun, env).1; var n := NextAlbumNumber(st.albums);
      && (r.AddedAlbum? <==>
            && !dryRun && q.mediaUrl in env.saved
            && info.fullName != "" && q.permalink != "" && env.saved[q.mediaUrl] != ""
            && ValidateInstagramUrl(q.permalink)
            && (ImageFile(n) in st.images || env.saved[q.mediaUrl] !in env.broken))
      && (r.AddedAlbum? ==>
            && r.album.name == "#" + NatToString(n) + ". " + info.fullName
            && r.album.link == q.permalink && r.album.image == ImagePath(n) && r.album.genre == None)
  {
    if !dryRun && q.mediaUrl in env.saved {
      var temp := env.saved[q.mediaUrl];
      AddOutcome(st, info.fullName, q.permalink, temp, None, {temp}, env.broken);
    }
  }

  /** The loop: one result per selected post, in order, each about its post
      and carrying what its caption gave; a dry run leaves the store as it
      was and only reports. */
  lemma {:induction false} SyncPostsResults(st: Store, posts: seq<Sync.Post>, parse: Option<string> -> Option<CaptionInfo>,
                                            dryRun: bool, env: Downloads, st': Store, rs: seq<PostResult>)
    requires (st', rs) == SyncPosts(st, posts, parse, dryRun, env)
    ensures |rs| == |posts|
    ensures forall i | 0 <= i < |rs| ::
      && rs[i].post == posts[i]
      && (rs[i].NoAlbumInfo? <==> parse(posts[i].caption).None?)
      && (!rs[i].NoAlbumInfo? ==> parse(posts[i].caption) == Some(rs[i].info))
      && (dryRun ==> rs[i].NoAlbumInfo? || rs[i].WouldAdd?)
      && (!dryRun ==> !rs[i].WouldAdd?)
    ensures dryRun ==> st' == st
    decreases |posts|
  {
    if posts != [] {
      var init := posts[..|posts| - 1];
      var (st1, rs1) := SyncPosts(st, init, parse, dryRun, env);
      SyncPostsResults(st, init, parse, dryRun, env, st1, rs1);
      var (st2, r) := PostStep(st1, posts[|posts| - 1], parse, dryRun, env);
      PostStepResult(st1, posts[|posts| - 1], parse, dryRun, env, st2, r);
    }
  }

  /** The loop: the catalog ends as the old one followed by the added
      albums, in the order of their posts, numbered consecutively from the
      next number. */
  lemma {:induction false} SyncPostsAlbums(st: Store, posts: seq<Sync.Post>, parse: Option<string> -> Option<CaptionInfo>,
                                           dryRun: bool, env: Downloads, st': Store, rs: seq<PostResult>)
    requires (st', rs) == SyncPosts(st, posts, parse, dryRun, env)
    ensures st'.albums == st.albums + AddedAlbums(rs)
    ensures NextAlbumNumber(st'.albums) == NextAlbumNumber(st.albums) + |AddedAlbums(rs)|
    ensures forall k | 0 <= k < |AddedAlbums(rs)| :: LeadNumber(AddedAlbums(rs)[k].name) == NextAlbumNumber(st.albums) + k
    decreases |posts|
  {
    if posts != [] {
      var init := posts[..|posts| - 1];
      var (st1, rs1) := SyncPosts(st, init, parse, dryRun, env);
      SyncPostsAlbums(st, init, parse, dryRun, env, st1, rs1);
      var (st2, r) := PostStep(st1, posts[|posts| - 1], parse, dryRun, env);
      PostStepAlbums(st1, posts[|posts| - 1], parse, dryRun, env, st2, r);
      assert (rs1 + [r])[..|rs1 + [r]| - 1] == rs1;
    }
  }

  /** Every added album comes from an `AddedAlbum` result, and links to
      that result's post. */
  lemma {:induction false} AddedAlbumsFrom(rs: seq<PostResult>, a: Album)
    requires a in AddedAlbums(rs)
    ensures exists i | 0 <= i < |rs| :: rs[i].AddedAlbum? && rs[i].album == a
    decreases |rs|
  {
    var init := rs[..|rs| - 1];
    if a in AddedAlbums(init) {
      AddedAlbumsFrom(init, a);
      var i :| 0 <= i < |init| && init[i].AddedAlbum? && init[i].album == a;
      assert rs[i] == init[i];
    } else {
      assert rs[|rs| - 1].AddedAlbum? && rs[|rs| - 1].album == a;
    }
  }

  /** syncNewPosts: the results follow the selected posts one by one; the
      catalog grows by the added albums only; and no added album repeats a
      link that was already in the catalog. */
  lemma SyncNewPostsOutcome(st: Store, fetched: seq<Sync.Post>, dryRun: bool, env: Downloads, st': Store, rs: seq<PostResult>)
    requires (st', rs) == SyncNewPostsOf(st, fetched, dryRun, env)
    ensures |rs| == |NewPosts(fetched, Links(st.albums))|
    ensures forall i | 0 <= i < |rs| :: rs[i].post == NewPosts(fetched, Links(st.albums))[i]
    ensures st'.albums == st.albums + AddedAlbums(rs)
    ensures forall a | a in AddedAlbums(rs) :: a.link !in Links(st.albums)
  {
    var selected := NewPosts(fetched, Links(st.albums));
    if selected != [] {
      SyncPostsResults(st, selected, CaptionParser(), dryRun, env, st', rs);
      SyncPostsAlbums(st, selected, CaptionParser(), dryRun, env, st', rs);
      forall a | a in AddedAlbums(rs)
        ensures a.link !in Links(st.albums)
      {
        AddedAlbumsFrom(rs, a);
        var i :| 0 <= i < |rs| && rs[i].AddedAlbum? && rs[i].album == a;
        AddedLinkIsPost(st, selected, dryRun, env, i);
        NewPostsIff(fetched, Links(st.albums), selected[i]);
      }
    }
  }

  /** The album added for a selected post links to that post. */
  lemma AddedLinkIsPost(st: Store, selected: seq<Sync.Post>, dryRun: bool, env: Downloads, i: nat)
    requires i < |selected|
    ensures var rs := SyncPosts(st, selected, CaptionParser(), dryRun, env).1;
      i < |rs| && (rs[i].AddedAlbum? ==> rs[i].album.link == selected[i].permalink)
  {
    SyncPostsLinks(st, selected, CaptionParser(), dryRun, env);
  }

  /** The loop: each added album links to the post it was added for. */
  lemma {:induction false} SyncPostsLinks(st: Store, posts: seq<Sync.Post>, parse: Option<string> -> Option<CaptionInfo>,
                                          dryRun: bool, env: Downloads)
    ensures var rs := SyncPosts(st, posts, parse, dryRun, env).1;
      |rs| == |posts| && forall i | 0 <= i < |rs| :: rs[i].AddedAlbum? ==> rs[i].album.link == posts[i].permalink
    decreases |posts|
  {
    if posts != [] {
      var init := posts[..|posts| - 1];
      SyncPostsLinks(st, init, parse, dryRun, env);
      var (st1, rs1) := SyncPosts(st, init, parse, dryRun, env);
      var (st2, r) := PostStep(st1, posts[|posts| - 1], parse, dryRun, env);
      PostStepAlbums(st1, posts[|posts| - 1], parse, dryRun, env, st2, r);
    }
  }

  /** One more selected post is one more pass of the loop body. */
  lemma SyncPostsStep(st: Store, posts: seq<Sync.Post>, i: nat, parse: Option<string> -> Option<CaptionInfo>,
                      dryRun: bool, env: Downloads)
    requires i < |posts|
    ensures var (st1, rs) := SyncPosts(st, posts[..i], parse, dryRun, env);
      var (st2, r) := PostStep(st1, posts[i], parse, dryRun, env);
      SyncPosts(st, posts[..i + 1], parse, dryRun, env) == (st2, rs + [r])
  {
    assert posts[..i + 1][..i] == posts[..i];
  }

  /** The syncing service, over the album manager it adds through. */
  class InstagramAlbumSync {
    const albumManager: AlbumManager

    constructor(manager: AlbumManager)
      ensures albumManager == manager
    {
      albumManager := manager;
    }

    /** syncNewPosts(accessToken, dryRun), with `fetched` the posts
        getInstagramPosts returned. */
    method SyncNewPosts(fetched: seq<Sync.Post>, dryRun: bool, env: Downloads) returns (results: seq<PostResult>)
      modifies albumManager
      ensures (albumManager.State(), results) == SyncNewPostsOf(old(albumManager.State()), fetched, dryRun, env)
    {
      var existingLinks := Links(albumManager.albums);
      var newPosts := NewPosts(fetched, existingLinks);
      if |newPosts| == 0 {
        return [];
      }
      results := [];
      ghost var start := albumManager.State();
      for i := 0 to |newPosts|
        invariant (albumManager.State(), results) == SyncPosts(start, newPosts[..i], CaptionParser(), dryRun, env)
      {
        var post := newPosts[i];
        SyncPostsStep(start, newPosts, i, CaptionParser(), dryRun, env);
        var albumInfo := ExtractAlbumFromCaption(post.caption);
        assert CaptionParser()(post.caption) == albumInfo;
        if albumInfo.None? {
          results := results + [NoAlbumInfo(post)];
          continue;
        }
        var info := albumInfo.value;
        if dryRun {
          results := results + [WouldAdd(info, post)];
          continue;
        }
        if post.mediaUrl !in env.saved {
          results := results + [Failed(DownloadFailed, info, post)];
          continue;
        }
        var imagePath := env.saved[post.mediaUrl];
        var r := albumManager.AddAlbum(info.fullName, post.permalink, imagePath, None, {imagePath}, env.broken);
        match r
        case Ok(album) =>
          results := results + [AddedAlbum(album, info, post)];
        case Err(e) =>
          results := results + [Failed(AddFailed(e), info, post)];
      }
      assert newPosts[..|newPosts|] == newPosts;
    }
  }
}
