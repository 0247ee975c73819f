# Album catalog of a music-review Instagram account, in Dafny

The site lists album reviews posted on an Instagram account. Its catalog is
`albums.json`: records named `#N. Album by Artist`, each with the post's link
and a square WebP cover in `images/N.webp`. Four scripts keep the catalog.
This project models the logic of those scripts and proves properties of it.

- **addAlbum.js (`AlbumManager`)** adds one album or many.
  - It checks the arguments and validates the Instagram URL.
  - It hands out the next album number, which is one more than the largest `#N.` prefix.
  - It converts the image unless `images/N.webp` already exists, then appends the record.
  - `extractAlbumInfo` splits a name into album and artist.
- **batchAdd.js** reads a text file of `Album Name | URL | Image Path` lines.
  - It drops blank lines and comment lines, and reports each malformed line with its number.
  - It strips a `#N.` prefix from the name and quotes from the path, and expands `~`.
  - It adds the valid entries one by one.
- **syncFromInstagram.js (`AlbumSyncManager.sync`)** reconciles the catalog with a snapshot of the account.
  - Links are compared after `normalizeInstagramUrl`.
  - Albums whose post has gone are deleted.
  - New image posts whose first caption line reads `#N. Album by Artist`, `#N. Title` or `Album by Artist` become records.
  - Unless it is a dry run, the result is saved sorted by the `#N.` number.
- **instagramSync.js (`InstagramAlbumSync`)** imports new image posts.
  - It reads album, artist and number from the whole caption. Five patterns are tried in order; the caption may end in a music emoji. A fallback follows.
  - Each new post's album is then added through `AlbumManager.addAlbum`, or only reported in a dry run.

Regular expressions are modelled as matchers that try alternatives in the
order JavaScript's backtracking engine does: lazy groups shortest first,
`\s*`/`\s+` longest first, unanchored patterns leftmost first (module
`Patterns`). The character classes `\s`, `.` and `\d`, `trim`, `split` and
the `i` flag follow JavaScript's definitions (module `Text`).

Files and directories are inputs, not I/O:
- The catalog and the names in `images/` are the fields of the manager classes, or a `Store` value.
- Outside paths that exist are a set.
- Image conversions that throw are a map from source path to error message.
- Downloads are a map from media URL to saved file.
- Fetched posts are a parameter.

A thrown error becomes an `Err` value or an outcome constructor.

Modules:
- `Results` and `Text`: shared basics.
- `Patterns` and `ByWords`: the regex machinery, and the `x by y` shape.
- `Urls`: `normalizeInstagramUrl` and `validateInstagramUrl`.
- `Catalog`: records, the two readings of `#N.`, and the saved order.
- `AlbumName`: `extractAlbumInfo` of addAlbum.js.
- `SyncCaption`: `extractAlbumInfo` of syncFromInstagram.js.
- `Caption`: `extractAlbumFromCaption` of instagramSync.js.
- `AddAlbum`, `BatchAdd`, `Sync` and `InstagramSync`: the four scripts' operations.

## Model

| member | source | states |
|---|---|---|
| Catalog.NextAlbumNumber | addAlbum.js:37-47 | the next album number is at least 1 |
| Catalog.MaxLeadIsMax | addAlbum.js:41-46 | `Math.max` of the leading numbers bounds every album's number and is some album's number |
| Catalog.NextAlbumNumberAbove | addAlbum.js:37-47 | the next number exceeds every album's `#N.` number; it is 1 for an empty catalog and otherwise one more than some album's number |
| Catalog.LeadNumberOfName | addAlbum.js:41-44 | a name built as `#n.` followed by anything reads back as number n |
| Catalog.NextAfterAppend | addAlbum.js:37-47 | appending a record numbered with the next number moves the next number up by exactly one |
| Catalog.SortKeyOfLead | syncFromInstagram.js:312-316 | for a name that starts with `#N.`, the sort key equals the number getNextAlbumNumber reads |
| Catalog.SortKeyUnanchored | syncFromInstagram.js:313-314 | the sort's pattern is unanchored, unlike getNextAlbumNumber's: a name `p#ds.r` whose non-empty prefix `p` holds no `#` has next-number reading 0 but sort key ds |
| Catalog.InsertPermutes | syncFromInstagram.js:312-316 | inserting one record into the sorted prefix adds exactly that record (multiset) |
| Catalog.InsertSorted | syncFromInstagram.js:312-316 | inserting into a sequence sorted by key keeps it sorted |
| Catalog.SortBySorted | syncFromInstagram.js:312-316 | the sort's result is sorted by key and is a permutation of its input |
| Catalog.WithKeyInsert | syncFromInstagram.js:312-316 | inserting a record puts it before, not after, the records with its key, so equal keys keep their order |
| Catalog.SortByStable | syncFromInstagram.js:312-316 | the sort is stable: the records of each key keep their relative order |
| Catalog.SortByNumberCorrect | syncFromInstagram.js:312-316 | the saved order is sorted by `#N.` number, a permutation of the records, and stable |
| Urls.FindPostMark | syncFromInstagram.js:165 | finds the leftmost `/p/` followed by a shortcode character, or reports that there is none |
| Urls.Shortcode | syncFromInstagram.js:165 | a shortcode found is non-empty and made of `[A-Za-z0-9_-]` |
| Urls.NormalizeInstagramUrl | syncFromInstagram.js:163-170 | a URL without `/p/<code>` is returned unchanged; otherwise the result is `https://www.instagram.com/p/<code>/` |
| Urls.CanonicalShortcode | syncFromInstagram.js:165-167 | the canonical URL of a shortcode yields that same shortcode back |
| Urls.NormalizeIdempotent | syncFromInstagram.js:163-170 | normalizing twice is normalizing once |
| Urls.NormalizeCanonical | syncFromInstagram.js:163-170 | any URL whose first `/p/` is followed by a full shortcode run normalizes to that shortcode's canonical URL, whatever precedes or follows it |
| Urls.ShortcodeRunEndAt | syncFromInstagram.js:165 | the greedy `[A-Za-z0-9_-]+` run ends exactly at the first character outside the class |
| Urls.ValidateHttp | addAlbum.js:76-79 | for an `http://` URL, validity is exactly a host and post path after the scheme, and it cannot match the https shapes |
| Urls.ValidateHttps | addAlbum.js:76-79 | for an `https://` URL, validity is exactly a host and post path after the scheme, and it cannot match the http shapes |
| Urls.ValidateStarts | addAlbum.js:76-79 | a valid URL starts with `http://` or `https://` |
| Urls.ValidateMatchesShape | addAlbum.js:76-79 | validateInstagramUrl holds exactly for URLs of the shape scheme, optional `www.`, `instagram.com/p/`, at least one shortcode character |
| AlbumName.ListNumberEnd | addAlbum.js:84 | a list number `#?\d+` found is followed by a `.` |
| AlbumName.NumberedSplit | addAlbum.js:84 | the groups of the numbered pattern lie within the name |
| AlbumName.ExtractAlbumInfo | addAlbum.js:81-104 | the album and artist returned have no white space at either end |
| AlbumName.NoListNumber | addAlbum.js:84 | a name that starts with neither `#` nor a digit never matches the numbered pattern |
| AlbumName.NoByNumbered | addAlbum.js:84 | a name without a `by` word never matches the numbered pattern |
| AlbumName.Fallback | addAlbum.js:99-103 | a name with neither a `by` word nor ` - ` gives its trimmed self as album and `Unknown Artist` |
| AlbumName.NoDashSplit | addAlbum.js:86 | without a spaced dash the dash pattern does not match |
| AlbumName.ByNameSplit | addAlbum.js:85 | in `x by y` the lazy album group stops at the first `by` and the artist runs to the end |
| AlbumName.ByName | addAlbum.js:85 | `x by y`, not starting with `#` or a digit, splits into album x and artist y |
| AlbumName.NumberedName | addAlbum.js:84 | `#n. x by y` and `n. x by y` split into album x and artist y |
| AlbumName.DashNameSplit | addAlbum.js:86 | in `x - y` the split falls at the first spaced dash |
| AlbumName.DashName | addAlbum.js:86 | `x - y` without a `by` word splits into album x and artist y |
| SyncCaption.FirstNumberedTitle | syncFromInstagram.js:79 | the leftmost `#N.` title found lies in the line, after its number |
| SyncCaption.NumberedByInfo | syncFromInstagram.js:86-92 | the numbered-by pattern yields a number and an artist |
| SyncCaption.NumberedTitleInfo | syncFromInstagram.js:93-99 | the numbered-title pattern yields a number, no artist, and the album as full name |
| SyncCaption.ByInfo | syncFromInstagram.js:100-106 | the leading-by pattern yields the existing number passed in, and an artist |
| SyncCaption.FirstNumberedTitleNoHash | syncFromInstagram.js:79 | a line without `#` has no numbered title |
| SyncCaption.ExtractFirstLineOnly | syncFromInstagram.js:73-74 | only the caption's first line matters: whatever follows the first line feed changes nothing |
| SyncCaption.FirstLineIs | syncFromInstagram.js:74 | the first line of `s` followed by a line-feed tail is `s` |
| SyncCaption.ExtractOfFirstLine | syncFromInstagram.js:70-112 | a present caption is read through its trimmed first line |
| SyncCaption.NumberedByLine | syncFromInstagram.js:78-92 | `#ds. x by y` yields number ds (as a decimal), album x, artist y and full name `x by y` |
| SyncCaption.RoundTripNumbered | syncFromInstagram.js:70-112 | a caption whose first line is `#ds. x by y` reads back as number ds, album x and artist y, whatever lines follow |
| SyncCaption.NumberedTitleNoBy | syncFromInstagram.js:78 | on `#ds. x` with no `by` word after a space past the number, the numbered-by pattern matches nowhere, even at a later `#` inside x |
| SyncCaption.NumberedTitleMatch | syncFromInstagram.js:79-99 | the numbered-title pattern reads `#ds. x` as number ds, album and full name x, and no artist |
| SyncCaption.NumberedTitleLine | syncFromInstagram.js:77-99 | on the line `#ds. x` the first pattern fails and the second gives number ds, album x and no artist |
| SyncCaption.RoundTripNumberedTitle | syncFromInstagram.js:70-112 | a caption whose first line is `#ds. x`, with no `by` word in x, reads back as number ds, album and full name x, and no artist, whatever lines follow |
| SyncCaption.ByLine | syncFromInstagram.js:100-106 | the leading-by pattern reads `x by y` as album x and artist y, with the existing number |
| SyncCaption.UnnumberedLine | syncFromInstagram.js:78-79 | a line without `#` matches neither numbered pattern |
| SyncCaption.RoundTripUnnumbered | syncFromInstagram.js:70-112 | a caption whose first line is `x by y`, with no `#`, reads back as album x and artist y, with the existing number |
| Caption.NumberedBy | instagramSync.js:70 | a match of the numbered pattern carries a non-empty run of digits as number |
| Caption.KeywordAt | instagramSync.js:82 | a keyword (`album`, `record`, `ep`, `lp`) found at a position ends after it, within the caption |
| Caption.AfterColon | instagramSync.js:82 | the groups found after the keyword's colon lie within the caption |
| Caption.PatternMatch | instagramSync.js:85-100 | of the five patterns tried in order, only the numbered one yields a number, and it is digits |
| Caption.AlbumWordEnd | instagramSync.js:103 | a leading `album` word with its spaces ends past the word |
| Caption.AlbumPrefixEnd | instagramSync.js:103 | a leading `(the )album ` prefix ends within the text and is not empty |
| Caption.CutRunEnd | instagramSync.js:104 | the run of emoji and line ends stops at the first other character |
| Caption.ExtractAlbumFromCaption | instagramSync.js:64-126 | any result has trimmed album and artist, full name `album by artist`, and a number that is a non-empty run of digits when present |
| Caption.AlbumWordEndIs | instagramSync.js:103 | `album` followed by a run of spaces is cut exactly at the end of the run |
| Caption.StripAlbumLead | instagramSync.js:103 | a text that starts with the word `album` and spaces loses exactly that prefix |
| Caption.StripTheAlbumLead | instagramSync.js:103 | a text that starts with `the album` and spaces loses exactly that prefix |
| Caption.CutArtistKeeps | instagramSync.js:104 | an artist without music emoji or line ends is kept as is |
| Caption.CutArtistAtNote | instagramSync.js:104 | the artist is cut at the first music emoji, dropping the rest of the line |
| Caption.CleanKeeps | instagramSync.js:102-111 | clean album and artist texts pass the clean-up unchanged, and the full name is `album by artist` |
| Caption.NumberedMatch | instagramSync.js:70 | in `#ds. x by y` the numbered pattern finds number ds, album x and artist y |
| Caption.NumberedPattern | instagramSync.js:85-93 | the first pattern that matches `#ds. x by y` is the numbered one, with ds, x and y |
| Caption.NumberedCaption | instagramSync.js:64-126 | the caption `#ds. x by y` reads as album x, artist y, number ds and full name `x by y` |
| Caption.NumberedByNoHash | instagramSync.js:70 | a caption without `#` does not match the numbered pattern |
| Caption.LeadingByMatch | instagramSync.js:73 | `x by y` matches the leading-by pattern with album x and artist y |
| Caption.ByCaption | instagramSync.js:64-126 | the caption `x by y`, without `#`, reads as album x, artist y, no number and full name `x by y` |
| Caption.DashSplit | instagramSync.js:76 | in `a - b` the dash pattern splits at the dash |
| Caption.ArtistDashMatch | instagramSync.js:94-96 | `a - b` matches the dash pattern with artist a and album b |
| Caption.DashCaption | instagramSync.js:64-126 | the caption `a - b`, without a `by` word, reads as album b by artist a: the dash pattern swaps the parts |
| Caption.NoByNumbered | instagramSync.js:70 | without a `by` word the numbered pattern does not match |
| Caption.NoDashNone | instagramSync.js:76 | without a `-` the dash pattern does not match |
| Caption.NoByQuoted | instagramSync.js:79 | without a `by` word the quoted pattern does not match |
| Caption.NoByKeyword | instagramSync.js:82 | without a `by` word the keyword pattern does not match |
| Caption.NoByFallback | instagramSync.js:116 | without a `by` word the fallback does not match |
| Caption.NoMatchCaption | instagramSync.js:64-126 | a caption with neither a `by` word nor a `-` yields null |
| AddAlbum.AddOutcome | addAlbum.js:106-161 | addAlbum fails with missing parameters exactly when an argument is empty, and succeeds exactly when all are present, the URL is valid, the image exists and the conversion is skipped or does not throw. On success the record is appended with name `#N. albumName` for the next number N, the URL as link and `images/N.webp` as image; it carries the genre list exactly when one with at least one entry is given; and the images gain exactly `N.webp`. On any failure neither the catalog nor the images change |
| AddAlbum.AddFailures | addAlbum.js:108-126 | with all arguments present, an invalid URL fails with the invalid-URL error, a missing image file with image-not-found naming the path, and a conversion that throws with its message |
| AddAlbum.AddAdvancesNumber | addAlbum.js:121-144 | a successful add moves the next album number up by one |
| AddAlbum.AddAll | addAlbum.js:163-179 | bulk adding gives one outcome per entry |
| AddAlbum.AddAllAppends | addAlbum.js:163-179 | after a bulk add the catalog is the old one followed by the added records, in entry order, numbered consecutively from the next number |
| AddAlbum.OutcomeCounts | addAlbum.js:181-183 | the successful and failed counts add up to the number of entries |
| AddAlbum.ReportsStep | addAlbum.js:171-176 | one more entry pushes one more result at the end |
| AddAlbum.AddAllStep | addAlbum.js:167-179 | one more entry is one more addAlbum on the store reached so far |
| AddAlbum.AlbumManager.ProcessImage | addAlbum.js:49-74 | the conversion leaves the catalog alone, skips an existing `N.webp`, and otherwise writes it or throws |
| AddAlbum.AlbumManager.AddAlbum | addAlbum.js:106-161 | the manager's new state and the returned record or error are those of Add on the old state |
| AddAlbum.AlbumManager.BulkAdd | addAlbum.js:163-197 | the manager ends in the state of AddAll, and returns one result per entry built from its outcome |
| BatchAdd.KeepLinesIn | batchAdd.js:35-41 | a line is kept exactly when it occurs and is neither empty nor a comment (`#` not followed by `\d+.`) |
| BatchAdd.KeepLinesAll | batchAdd.js:35-41 | when no line is skipped, the filter keeps all lines in order |
| BatchAdd.TrimAllIn | batchAdd.js:34 | the trimmed lines are exactly the trims of the file's lines |
| BatchAdd.BatchLinesAre | batchAdd.js:31-41 | a line is kept exactly when it is the trim of some line of the file and is not skipped; a kept line is non-empty and trimmed, and starts with `#` only before a list number |
| BatchAdd.BatchLinesOf | batchAdd.js:31-41 | a file written as trimmed, kept lines joined by line feeds reads back as those lines |
| BatchAdd.StripNumberSuffix | batchAdd.js:69-73 | stripping the number prefix leaves a suffix of the name |
| BatchAdd.StripNumberOf | batchAdd.js:69-73 | `#n.` then spaces then x becomes x |
| BatchAdd.StripQuotesOf | batchAdd.js:84-85 | one optional quote at each end is removed and nothing else |
| BatchAdd.ParseFormat | batchAdd.js:56-65 | a line is rejected as malformed exactly when it does not hold exactly two pipe characters |
| BatchAdd.ParseFields | batchAdd.js:56 | a line of three pipe-separated fields, each trimmed and free of pipes, splits and trims into those fields |
| BatchAdd.ParseLineOf | batchAdd.js:54-102 | a line of the three fields name, URL and path is rejected for its URL, then for a missing image, and otherwise gives the entry with the number prefix stripped and the path cleaned |
| BatchAdd.ParseLineOk | batchAdd.js:75-101 | an accepted entry has a valid URL and an existing image path |
| BatchAdd.ParseAll | batchAdd.js:54-102 | every kept line gives exactly one entry or one error |
| BatchAdd.ParseAllErrors | batchAdd.js:54-102 | each error names a kept line by its 1-based number, holds that line's text and the reason it was rejected, and errors come in line order |
| BatchAdd.ParseAllEntries | batchAdd.js:54-102 | every parsed entry has a valid URL and an existing image |
| BatchAdd.ParseLines | batchAdd.js:54-102 | the parse loop returns the entries and errors of ParseAll |
| BatchAdd.BatchEffect | batchAdd.js:22-118 | the run stops with file-not-found exactly when there is no file, with no-albums exactly when no line is kept, and with no-valid-albums exactly when no line parses; the catalog is unchanged whenever it stops |
| BatchAdd.BatchFinished | batchAdd.js:123-140 | a finished run reports one error or result per kept line, appends the added records numbered consecutively, and its counts add up |
| BatchAdd.AddEntries | batchAdd.js:123-136 | the add loop leaves the manager in the state of AddAll and returns one result per entry |
| BatchAdd.RunBatch | batchAdd.js:18-155 | running the batch leaves the manager in the state Batch computes, and returns its outcome |
| Sync.ByUrlKeys | syncFromInstagram.js:197-202 | a normalized link is a key of the map exactly when some album has it |
| Sync.ByUrlValues | syncFromInstagram.js:197-202 | the album stored under a link is an album of the catalog with that link |
| Sync.PartitionIff | syncFromInstagram.js:213-225 | an album is kept (deleted) exactly when it is in the catalog and its link is (is not) among the posts' links |
| Sync.PartitionCounts | syncFromInstagram.js:213-225 | the kept and deleted albums together are the catalog (multiset) |
| Sync.PartitionOrder | syncFromInstagram.js:213-225 | the partition keeps catalog order |
| Sync.NothingDeleted | syncFromInstagram.js:216-225 | when every album's link is among the posts', nothing is deleted |
| Sync.NewPostsAbortedStays | syncFromInstagram.js:237-301 | once the loop has thrown, later posts change nothing |
| Sync.PostStepAborts | syncFromInstagram.js:250-257 | one turn throws exactly on a new image post without a caption |
| Sync.NewPostsAborts | syncFromInstagram.js:237-301 | the loop throws exactly when some post is a new image post without a caption |
| Sync.PostStepAdds | syncFromInstagram.js:268-296 | a turn adds nothing, or adds one record that comes from the post |
| Sync.NewPostsAdded | syncFromInstagram.js:237-301 | at most one record per post, each from an image post with a new normalized link and a readable caption, named `#N. fullName` |
| Sync.PostStepAddsWhen | syncFromInstagram.js:237-296 | a turn adds a record exactly when the loop has not thrown, the post is a new image post whose caption parses, the run is real, the image is on disk or downloads, and the comments are there when asked for; the record is then `#N. fullName` with the normalized link, `images/N.webp`, the post's caption, timestamp and likes, and its comments when there are some |
| Sync.NewPostsComplete | syncFromInstagram.js:237-296 | in a loop that does not throw, the record of every admitted post is added: a new image post whose caption parses, in a real run, whose image downloads and whose comments are there when asked for |
| Sync.NewPostsDryRun | syncFromInstagram.js:263-266 | a dry run neither downloads nor adds |
| Sync.SyncDryRun | syncFromInstagram.js:303-337 | a dry run leaves the catalog and images as they were; its result still lists the albums whose posts are gone as deleted, adds none, and gives as total the number of albums a real run would keep |
| Sync.SyncStops | syncFromInstagram.js:186-191 | sync returns nothing exactly when no posts were fetched, and throws exactly when a new image post lacks a caption; neither changes the catalog |
| Sync.SyncSaved | syncFromInstagram.js:307-337 | the saved catalog is sorted by number, equals the old one minus the deleted plus the added (multiset), deletes exactly the albums whose post is gone, and `total` is its size |
| Sync.SyncAdded | syncFromInstagram.js:237-301 | every added record comes from a fetched post, and its link differs from every existing album's |
| Sync.SyncAddsAdmitted | syncFromInstagram.js:237-320 | a completed run adds the record of every admitted post of the snapshot, and that record is in the saved catalog |
| Sync.SyncAgainDeletesNothing | syncFromInstagram.js:211-319 | syncing the saved catalog against the same posts deletes nothing |
| Sync.IndexByUrl | syncFromInstagram.js:197-202 | the loop builds the map of ByUrl |
| Sync.SplitByPosts | syncFromInstagram.js:211-225 | the loop returns the kept and deleted albums |
| Sync.AlbumSyncManager.DownloadAndProcessImage | syncFromInstagram.js:117-158 | the catalog is untouched; an existing `N.webp` is reused, and otherwise the file is written or the call throws |
| Sync.AlbumSyncManager.AddNewPosts | syncFromInstagram.js:233-301 | the loop over the posts computes NewPosts and leaves the catalog alone |
| Sync.AlbumSyncManager.Sync | syncFromInstagram.js:175-343 | the manager's new state and the result are those of SyncOf |
| InstagramSync.NewPostsIff | instagramSync.js:155-164 | a post is selected exactly when it was fetched, is an image, has a link not in the catalog and has a caption that is not blank |
| InstagramSync.NewPostsOrder | instagramSync.js:155-164 | selection keeps feed order: selecting from a + b is selecting from a, then from b |
| InstagramSync.PostStepResult | instagramSync.js:176-243 | each result is about its post; it says "no album info" exactly when the caption cannot be read, and otherwise carries what was read. A dry run changes nothing and only reports. A download failure is reported exactly when the media URL cannot be downloaded |
| InstagramSync.PostStepAlbums | instagramSync.js:208-242 | an added album is appended to the catalog, links to the post's permalink and takes the next number; any other result leaves the catalog unchanged |
| InstagramSync.PostStepAdded | instagramSync.js:208-230 | for a post whose caption was read, an album is added exactly when the run is real, the image downloaded, the name, link and temporary path are not empty, the link is valid, and the image is on disk or converts; the album is then `#N. fullName` with the next number N, links to the permalink, has image `images/N.webp` and no genre |
| InstagramSync.SyncPostsResults | instagramSync.js:174-243 | one result per selected post, in order, each about its post; none reports an album exactly when the caption cannot be read; a dry run leaves the store unchanged and only reports |
| InstagramSync.SyncPostsAlbums | instagramSync.js:174-243 | the catalog ends as the old one followed by the added albums, in post order, numbered consecutively from the next number |
| InstagramSync.SyncPostsLinks | instagramSync.js:214-230 | each added album links to the post it was added for |
| InstagramSync.SyncNewPostsOutcome | instagramSync.js:146-259 | the results follow the selected posts one by one; the catalog grows by the added albums only; no added album repeats a link already in the catalog |
| InstagramSync.InstagramAlbumSync.SyncNewPosts | instagramSync.js:146-259 | the album manager's new state and the returned results are those of SyncNewPostsOf |

## Left out

- Reading and writing `albums.json`, the images directory and the batch file are left out. Their contents are fields or parameters. A `saveAlbums` that throws is not modelled.
- Image conversion with `sharp` (resize, WebP quality) is left out. It is a map from source path to the error it throws.
- The network is left out: `fetch`, `fetchPosts`, `fetchPostDetails`, `getInstagramPosts` and `downloadImage`. Fetched posts, failing media URLs, comments and saved downloads are parameters, and a fetch that throws is not modelled.
- Console output is left out, including the summary counts instagramSync.js:246-248 computes only to print them. The Dafny `Message` function gives the text of addAlbum's errors. Download error messages are not modelled.
- Timestamps and the `Date.now()` temporary file names are left out. A download's file name is whatever the download map says.
- Deleting the temporary file is left out. That includes the file that is not deleted when addAlbum throws.
- `process.exit` in batchAdd.js and the CLI entry points (`main`, argument handling, `setupAuth`, the config file) are left out. Each exit is an outcome constructor of `BatchOutcome`.
- Falsy arguments to addAlbum are modelled by the empty string only, and absent genres by None. JavaScript's other falsy values are not modelled.
- `parseInt` and JavaScript number precision are left out: numbers are unbounded naturals.
- `replace('~', process.env.HOME)` is left out when HOME is unset, and so are `$` patterns in HOME.
- The emoji class of the caption patterns is a class of code points. JavaScript's non-unicode regular expressions match the UTF-16 halves of these emoji instead, and that difference is not modelled.
- The in-place `Array.prototype.sort` is a stable insertion sort on a sequence (`Catalog.SortByNumber`). The class saves its result.
- `Caption.ExtractAlbumFromCaption`: its lemmas state the result for numbered captions, `x by y` captions, `a - b` captions and captions with neither a `by` word nor a dash. The quoted pattern, the keyword pattern and the fallback are defined in full, but only their failure on captions without a `by` word is proved.
- `SyncCaption` models the name `#null. …` that sync builds for a caption without a number exactly as the code builds it.
