/** Post URLs: the normalization that serves as the catalog's identity key
    (syncFromInstagram.js) and the validation of user-supplied links (addAlbum.js). */
module Urls {
  import opened Results
  import opened Text

  /** `[A-Za-z0-9_-]` */
  predicate IsShortcodeChar(c: char)
  {
    ('A' <= c <= 'Z') || ('a' <= c <= 'z') || ('0' <= c <= '9') || c == '_' || c == '-'
  }

  predicate AllShortcode(s: string)
  {
    forall k | 0 <= k < |s| :: IsShortcodeChar(s[k])
  }

  /** End of the longest run of shortcode characters starting at `i`. */
  function ShortcodeRunEnd(s: string, i: nat): (j: nat)
    requires i <= |s|
    ensures i <= j <= |s| && AllShortcode(s[i..j])
    ensures j == |s| || !IsShortcodeChar(s[j])
    decreases |s| - i
  {
    if i < |s| && IsShortcodeChar(s[i]) then ShortcodeRunEnd(s, i + 1) else i
  }

  /** `lit` occurs at position `i` of `s`. */
  predicate LitAt(s: string, i: nat, lit: string)
  {
    i + |lit| <= |s| && s[i..i + |lit|] == lit
  }

  /** `\/p\/[A-Za-z0-9_-]` matches at `p`. */
  predicate PostMarkAt(s: string, p: nat)
  {
    p + 4 <= |s| && s[p] == '/' && s[p + 1] == 'p' && s[p + 2] == '/' && IsShortcodeChar(s[p + 3])
  }

  /** Leftmost position at or after `p` where `\/p\/([A-Za-z0-9_-]+)` matches. */
  function FindPostMark(s: string, p: nat): (r: Option<nat>)
    requires p <= |s|
    ensures r.Some? ==> p <= r.value && PostMarkAt(s, r.value)
    ensures r.Some? ==> forall q | p <= q < r.value :: !PostMarkAt(s, q)
    ensures r.None? ==> forall q | p <= q :: !PostMarkAt(s, q)
    decreases |s| - p
  {
    if p + 4 > |s| then None
    else if PostMarkAt(s, p) then Some(p)
    else FindPostMark(s, p + 1)
  }

  /** The shortcode the normalization extracts: the greedy group after the first `/p/`. */
  function Shortcode(url: string): (r: Option<string>)
    ensures r.Some? ==> |r.value| > 0 && AllShortcode(r.value)
  {
    match FindPostMark(url, 0)
    case None => None
    case Some(p) => Some(url[p + 3..ShortcodeRunEnd(url, p + 3)])
  }

  const CanonicalPrefix: string := "https://www.instagram.com/p/"

  /** normalizeInstagramUrl (syncFromInstagram.js:163-170). */
  function NormalizeInstagramUrl(url: string): (r: string)
    ensures Shortcode(url).None? ==> r == url
    ensures Shortcode(url).Some? ==> r == CanonicalPrefix + Shortcode(url).value + "/"
  {
    match Shortcode(url)
    case None => url
    case Some(code) => CanonicalPrefix + code + "/"
  }

  /** The longest run of shortcode characters is determined by where it stops. */
  lemma {:induction false} ShortcodeRunEndAt(s: string, i: nat, j: nat)
    requires i <= j <= |s| && AllShortcode(s[i..j])
    requires j == |s| || !IsShortcodeChar(s[j])
    ensures ShortcodeRunEnd(s, i) == j
    decreases j - i
  {
    if i < j {
      assert s[i] == s[i..j][0];
      assert s[i + 1..j] == s[i..j][1..];
      ShortcodeRunEndAt(s, i + 1, j);
    }
  }

  /** The only `/p/` in a canonical URL is the one before the shortcode. */
  lemma CanonicalShortcode(code: string)
    requires |code| > 0 && AllShortcode(code)
    ensures Shortcode(CanonicalPrefix + code + "/") == Some(code)
  {
    var u := CanonicalPrefix + code + "/";
    assert |CanonicalPrefix| == 28;
    forall q | 0 <= q < 25
      ensures !PostMarkAt(u, q)
    {
      assert u[q] == CanonicalPrefix[q];
      assert u[q + 1] == CanonicalPrefix[q + 1];
    }
    assert u[25] == '/' && u[26] == 'p' && u[27] == '/' && u[28] == code[0];
    assert PostMarkAt(u, 25);
    assert FindPostMark(u, 0) == Some(25);
    assert u[28 + |code|] == '/';
    assert u[28..28 + |code|] == code;
    ShortcodeRunEndAt(u, 28, 28 + |code|);
  }

  /** Normalizing twice is normalizing once, so the key is stable across syncs. */
  lemma {:induction false} NormalizeIdempotent(url: string)
    ensures NormalizeInstagramUrl(NormalizeInstagramUrl(url)) == NormalizeInstagramUrl(url)
  {
    match Shortcode(url)
    case None =>
    case Some(code) => CanonicalShortcode(code);
  }

  /** Any URL whose first `/p/` is followed by the shortcode and then a
      non-shortcode character (or nothing) normalizes to the canonical form:
      tracking parameters, the missing `www.` and the missing trailing slash
      do not change the key. */
  lemma NormalizeCanonical(pre: string, code: string, post: string)
    requires |code| > 0 && AllShortcode(code)
    requires post == [] || !IsShortcodeChar(post[0])
    requires forall q | 0 <= q < |pre| :: !PostMarkAt(pre + "/p/" + code + post, q)
    ensures NormalizeInstagramUrl(pre + "/p/" + code + post) == CanonicalPrefix + code + "/"
  {
    var u := pre + "/p/" + code + post;
    var p := |pre|;
    assert u[p] == '/' && u[p + 1] == 'p' && u[p + 2] == '/' && u[p + 3] == code[0];
    assert PostMarkAt(u, p);
    assert FindPostMark(u, 0) == Some(p);
    assert u[p + 3..p + 3 + |code|] == code;
    assert post != [] ==> u[p + 3 + |code|] == post[0];
    ShortcodeRunEndAt(u, p + 3, p + 3 + |code|);
  }

  /** `instagram.com/p/` at `j`, then at least one shortcode character. */
  predicate PostPathAt(url: string, j: nat)
  {
    LitAt(url, j, "instagram.com/p/") && j + 16 < |url| && IsShortcodeChar(url[j + 16])
  }

  /** Reference reading of `/^https?:\/\/(www\.)?instagram\.com\/p\/[A-Za-z0-9_-]+\/?/`:
      one of four literal prefixes, then the post path; anything may follow. */
  predicate ShapeWith(url: string, prefix: string)
  {
    LitAt(url, 0, prefix) && PostPathAt(url, |prefix|)
  }

  predicate UrlShape(url: string)
  {
    ShapeWith(url, "http://") || ShapeWith(url, "https://")
    || ShapeWith(url, "http://www.") || ShapeWith(url, "https://www.")
  }

  /** After `://` at `k`: `(www\.)?` is tried with the `www.` first and then
      without it, followed by the post path. */
  predicate HostPathAt(url: string, k: nat)
  {
    (LitAt(url, k, "www.") && PostPathAt(url, k + 4)) || PostPathAt(url, k)
  }

  /** validateInstagramUrl (addAlbum.js:76-79), matched from the start: `http`,
      an optional `s` (giving it back cannot help, since `:` must come next),
      `://` and the host and path. The trailing `\/?` always matches. */
  function ValidateInstagramUrl(url: string): bool
  {
    if !LitAt(url, 0, "http") then false
    else
      var i := if 4 < |url| && url[4] == 's' then 5 else 4;
      LitAt(url, i, "://") && HostPathAt(url, i + 3)
  }

  /** A literal made of two parts occurs where its parts occur one after the other. */
  lemma LitJoin(s: string, i: nat, a: string, b: string)
    ensures LitAt(s, i, a + b) <==> LitAt(s, i, a) && LitAt(s, i + |a|, b)
  {
    if i + |a| + |b| <= |s| {
      assert s[i..i + |a| + |b|] == s[i..i + |a|] + s[i + |a|..i + |a| + |b|];
      if LitAt(s, i, a + b) {
        assert s[i..i + |a|] == (a + b)[..|a|];
        assert s[i + |a|..i + |a| + |b|] == (a + b)[|a|..];
      }
    }
  }

  /** Two literals that differ at `k` do not both occur at `i`. */
  lemma LitClash(s: string, i: nat, a: string, b: string, k: nat)
    requires LitAt(s, i, a) && k < |a| && k < |b| && a[k] != b[k]
    ensures !LitAt(s, i, b)
  {
    assert s[i..i + |a|][k] == a[k];
    if i + |b| <= |s| {
      assert s[i..i + |b|][k] != b[k];
    }
  }

  /** Where `www.` stands, the host cannot start. */
  lemma WwwIsNotHost(url: string, k: nat)
    requires LitAt(url, k, "www.")
    ensures !PostPathAt(url, k)
  {
    LitClash(url, k, "www.", "instagram.com/p/", 0);
  }

  /** A `www.` prefix is the scheme followed by `www.`. */
  lemma ShapeWithWww(url: string, scheme: string)
    ensures ShapeWith(url, scheme + "www.") <==> LitAt(url, 0, scheme) && LitAt(url, |scheme|, "www.") && PostPathAt(url, |scheme| + 4)
  {
    LitJoin(url, 0, scheme, "www.");
  }

  /** The two readings agree after the scheme `scheme` (either `http://` or `https://`). */
  lemma ShapeAfterScheme(url: string, scheme: string)
    requires LitAt(url, 0, scheme)
    ensures HostPathAt(url, |scheme|) <==> ShapeWith(url, scheme) || ShapeWith(url, scheme + "www.")
  {
    ShapeWithWww(url, scheme);
    if LitAt(url, |scheme|, "www.") {
      WwwIsNotHost(url, |scheme|);
    }
  }

  lemma ValidateHttp(url: string)
    requires LitAt(url, 0, "http://")
    ensures ValidateInstagramUrl(url) <==> HostPathAt(url, 7)
    ensures !ShapeWith(url, "https://") && !ShapeWith(url, "https://www.")
  {
    LitJoin(url, 0, "http", "://");
    assert url[4] == "http://"[4];
    LitClash(url, 0, "http://", "https://", 4);
    LitClash(url, 0, "http://", "https://www.", 4);
  }

  lemma ValidateHttps(url: string)
    requires LitAt(url, 0, "https://")
    ensures ValidateInstagramUrl(url) <==> HostPathAt(url, 8)
    ensures !ShapeWith(url, "http://") && !ShapeWith(url, "http://www.")
  {
    LitJoin(url, 0, "http", "s://");
    assert url[4] == "https://"[4];
    LitJoin(url, 5, "s", "://");
    LitClash(url, 0, "https://", "http://", 4);
    LitClash(url, 0, "https://", "http://www.", 4);
  }

  /** Accepted URLs start with `http://` or `https://`. */
  lemma ValidateStarts(url: string)
    requires ValidateInstagramUrl(url)
    ensures LitAt(url, 0, "http://") || LitAt(url, 0, "https://")
  {
    if 4 < |url| && url[4] == 's' {
      LitJoin(url, 0, "http", "s");
      LitJoin(url, 0, "https", "://");
    } else {
      LitJoin(url, 0, "http", "://");
    }
  }

  /** Every URL of the reference shape starts with `http://` or `https://`. */
  lemma ShapeStarts(url: string)
    requires UrlShape(url)
    ensures LitAt(url, 0, "http://") || LitAt(url, 0, "https://")
  {
    ShapeWithWww(url, "http://");
    ShapeWithWww(url, "https://");
  }

  /** The validation accepts exactly the URLs of the reference shape. */
  lemma ValidateMatchesShape(url: string)
    ensures ValidateInstagramUrl(url) <==> UrlShape(url)
  {
    if LitAt(url, 0, "https://") {
      ValidateHttps(url);
      ShapeAfterScheme(url, "https://");
    } else if LitAt(url, 0, "http://") {
      ValidateHttp(url);
      ShapeAfterScheme(url, "http://");
    } else {
      if ValidateInstagramUrl(url) {
        ValidateStarts(url);
      }
      if UrlShape(url) {
        ShapeStarts(url);
      }
    }
  }
}
