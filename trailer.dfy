/**
 * The add-movie form's trailer handling: the regular expression a trailer
 * URL must match, `^(https?:\/\/)?(www\.)?(youtube\.com\/watch\?v=|youtu\.be\/|vimeo\.com\/).+`,
 * and `getTrailerThumbnail`, which picks a preview image for a trailer URL.
 */
module Trailer {
  import opened Wrappers
  import opened Strings

  const YouTubeWatch: string := "youtube.com/watch?v="
  const YouTuBe: string := "youtu.be/"
  const Vimeo: string := "vimeo.com/"

  /** `u` starts with `p` and at least one character that `.` matches follows. */
  predicate PrefixThenChar(u: string, p: string) {
    StartsWith(u, p) && |u| > |p| && !IsLineTerminator(u[|p|])
  }

  /** `(youtube\.com\/watch\?v=|youtu\.be\/|vimeo\.com\/).+` at the start of `x`; there is no `$`. */
  predicate HostPattern(x: string) {
    PrefixThenChar(x, YouTubeWatch) || PrefixThenChar(x, YouTuBe) || PrefixThenChar(x, Vimeo)
  }

  /** `(www\.)?` followed by the host part: the group either absent or consumed. */
  predicate SubdomainPattern(v: string) {
    HostPattern(v) || (StartsWith(v, "www.") && HostPattern(v[4..]))
  }

  /** The whole expression, anchored at the start: `(https?:\/\/)?` absent, `http://` or `https://`. */
  predicate TrailerPattern(u: string) {
    || SubdomainPattern(u)
    || (StartsWith(u, "http://") && SubdomainPattern(u[7..]))
    || (StartsWith(u, "https://") && SubdomainPattern(u[8..]))
  }

  /** The optional scheme group, taken when present. */
  function AfterScheme(u: string): string {
    if StartsWith(u, "https://") then u[8..]
    else if StartsWith(u, "http://") then u[7..]
    else u
  }

  /** The optional `www.` group, taken when present. */
  function AfterSubdomain(u: string): string {
    if StartsWith(u, "www.") then u[4..] else u
  }

  /** The host alternation: what follows the first host that `u` starts with. */
  function AfterHost(u: string): Option<string> {
    if StartsWith(u, YouTubeWatch) then Some(u[|YouTubeWatch|..])
    else if StartsWith(u, YouTuBe) then Some(u[|YouTuBe|..])
    else if StartsWith(u, Vimeo) then Some(u[|Vimeo|..])
    else None
  }

  /** The regular expression's `test`, taking each optional group whenever it is present. */
  predicate TrailerTest(u: string) {
    match AfterHost(AfterSubdomain(AfterScheme(u)))
    case None => false
    case Some(rest) => |rest| > 0 && !IsLineTerminator(rest[0])
  }

  /** A host part starts with `y` or `v`: nothing starting with another character matches it. */
  lemma NoHostPatternAt(x: string)
    requires |x| > 0 && x[0] != 'y' && x[0] != 'v'
    ensures !HostPattern(x)
  {
  }

  lemma HostTestIffPattern(x: string)
    ensures (match AfterHost(x) case None => false case Some(rest) => |rest| > 0 && !IsLineTerminator(rest[0]))
      <==> HostPattern(x)
  {
    if StartsWith(x, YouTubeWatch) {
      assert !StartsWith(x, YouTuBe) by { assert x[5] != YouTuBe[5]; }
      assert !StartsWith(x, Vimeo) by { assert x[0] != Vimeo[0]; }
    } else if StartsWith(x, YouTuBe) {
      assert !StartsWith(x, Vimeo) by { assert x[0] != Vimeo[0]; }
    }
  }

  lemma SubdomainIffHost(v: string)
    ensures SubdomainPattern(v) <==> HostPattern(AfterSubdomain(v))
  {
    if StartsWith(v, "www.") {
      assert v[0] == 'w';
      NoHostPatternAt(v);
    }
  }

  /** The subdomain part starts with `w`, `y` or `v`: nothing starting with `h` matches it. */
  lemma NoSubdomainPatternAtH(v: string)
    requires |v| > 0 && v[0] == 'h'
    ensures !SubdomainPattern(v)
  {
    NoHostPatternAt(v);
  }

  lemma SchemeIffSubdomain(u: string)
    ensures TrailerPattern(u) <==> SubdomainPattern(AfterScheme(u))
  {
    if StartsWith(u, "https://") {
      assert !StartsWith(u, "http://") by { assert u[4] == 's'; }
      assert u[0] == 'h';
      NoSubdomainPatternAtH(u);
    } else if StartsWith(u, "http://") {
      assert u[0] == 'h';
      NoSubdomainPatternAtH(u);
    }
  }

  /** Taking each optional group greedily decides exactly the regular expression's language. */
  lemma TrailerTestIffPattern(u: string)
    ensures TrailerTest(u) <==> TrailerPattern(u)
  {
    SchemeIffSubdomain(u);
    SubdomainIffHost(AfterScheme(u));
    HostTestIffPattern(AfterSubdomain(AfterScheme(u)));
  }

  const YouTubeImagePrefix: string := "https://img.youtube.com/vi/"
  const VimeoThumbnail: string := "https://via.placeholder.com/300x169?text=Vimeo+Thumbnail"
  const InvalidThumbnail: string := "https://via.placeholder.com/300x169?text=Invalid+Trailer+URL"

  /** The preview image YouTube serves for a video id. */
  function YouTubeImage(id: string): string {
    YouTubeImagePrefix + id + "/hqdefault.jpg"
  }

  /** `new URL(url).searchParams.get('v')`: the constructor throws, or the `v` parameter (null when absent). */
  datatype UrlQuery = UrlThrows | QueryV(v: Option<string>)

  /** The first part of a split: a separator-free prefix, followed by nothing or by the separator. */
  lemma SplitFirstPart(s: string, sep: string)
    requires |sep| > 0
    ensures var p := Split(s, sep)[0];
      && StartsWith(s, p) && !Contains(p, sep)
      && (|p| == |s| || StartsWith(s[|p|..], sep))
  {
    SplitPartsFree(s, sep);
    match IndexOf(s, sep)
    case None =>
    case Some(i) =>
      assert Split(s, sep)[0] == s[..i];
  }

  /** A prefix of a string free of `pat` is free of `pat` too. */
  lemma PrefixFree(s: string, p: string, pat: string)
    requires StartsWith(s, p) && !Contains(s, pat)
    ensures !Contains(p, pat)
  {
    if Contains(p, pat) {
      var j := IndexOf(p, pat).value;
      assert p == s[..|p|];
      OccursAtPrefix(s, pat, |p|, j);
      ContainsAt(s, pat, j);
    }
  }

  /**
   * `url.split('youtu.be/')[1]?.split('?')[0]`: present exactly when
   * `youtu.be/` occurs; then the text right after its first occurrence, up
   * to the first `?` or the next `youtu.be/`, whichever comes first.
   */
  function YoutuBeId(url: string): (id: Option<string>)
    ensures id.Some? <==> Contains(url, YouTuBe)
    ensures id.Some? ==>
      var rest := url[IndexOf(url, YouTuBe).value + |YouTuBe|..];
      var n := |id.value|;
      && StartsWith(rest, id.value)
      && !Contains(id.value, "?") && !Contains(id.value, YouTuBe)
      && (n == |rest| || rest[n] == '?' || StartsWith(rest[n..], YouTuBe))
  {
    var parts := Split(url, YouTuBe);
    SplitSinglePart(url, YouTuBe);
    if |parts| < 2 then None
    else
      var i := IndexOf(url, YouTuBe).value;
      var rest := url[i + |YouTuBe|..];
      assert parts[1] == Split(rest, YouTuBe)[0] by {
        assert parts == [url[..i]] + Split(rest, YouTuBe);
      }
      var p := parts[1];
      var v := Split(p, "?")[0];
      SplitFirstPart(rest, YouTuBe);
      SplitFirstPart(p, "?");
      PrefixFree(p, v, YouTuBe);
      assert StartsWith(rest, v) by {
        assert rest[..|v|] == rest[..|p|][..|v|];
      }
      assert |v| < |p| ==> rest[|v|] == '?' by {
        if |v| < |p| {
          assert p[|v|..][0] == p[|v|];
          assert rest[|v|] == p[|v|];
        }
      }
      Some(v)
  }

  /**
   * The video id the thumbnail is built from: for a `youtube.com/watch` URL
   * the `v` query parameter (or the thrown error, caught as invalid), for a
   * `youtu.be` URL the path segment, and no id otherwise.
   */
  function VideoId(url: string, query: string -> UrlQuery): (r: Result<Option<string>, ()>)
    ensures r.Err? <==> Contains(url, "youtube.com/watch") && query(url).UrlThrows?
    ensures Contains(url, "youtube.com/watch") && query(url).QueryV? ==> r == Ok(query(url).v)
    ensures !Contains(url, "youtube.com/watch") && Contains(url, "youtu.be") ==> r == Ok(YoutuBeId(url))
    ensures !Contains(url, "youtube.com/watch") && !Contains(url, "youtu.be") ==> r == Ok(None)
  {
    if Contains(url, "youtube.com/watch") then
      match query(url)
      case UrlThrows => Err(())
      case QueryV(v) => Ok(v)
    else if Contains(url, "youtu.be") then Ok(YoutuBeId(url))
    else Ok(None)
  }

  /**
   * `getTrailerThumbnail`: YouTube's image for a non-empty video id, else the
   * Vimeo placeholder for a Vimeo URL, else (or when the URL cannot be
   * parsed) the invalid-URL placeholder.
   */
  function Thumbnail(url: string, query: string -> UrlQuery): (r: string)
    ensures VideoId(url, query).Err? ==> r == InvalidThumbnail
    ensures VideoId(url, query).Ok? && Truthy(VideoId(url, query).value) ==>
      r == YouTubeImage(VideoId(url, query).value.value)
    ensures VideoId(url, query).Ok? && !Truthy(VideoId(url, query).value) ==>
      r == (if Contains(url, "vimeo.com") then VimeoThumbnail else InvalidThumbnail)
    ensures r == InvalidThumbnail || r == VimeoThumbnail || StartsWith(r, YouTubeImagePrefix)
  {
    match VideoId(url, query)
    case Err(_) => InvalidThumbnail
    case Ok(id) =>
      if Truthy(id) then YouTubeImage(id.value)
      else if Contains(url, "vimeo.com") then VimeoThumbnail
      else InvalidThumbnail
  }

  /** A `youtu.be/` URL that is not a watch URL gets YouTube's image for its non-empty path segment. */
  lemma YoutuBeThumbnail(url: string, query: string -> UrlQuery)
    requires !Contains(url, "youtube.com/watch") && Contains(url, YouTuBe)
    ensures var id := YoutuBeId(url).value;
      Thumbnail(url, query) ==
        if id != "" then YouTubeImage(id)
        else if Contains(url, "vimeo.com") then VimeoThumbnail
        else InvalidThumbnail
  {
    var i := IndexOf(url, YouTuBe).value;
    assert OccursAt(url, "youtu.be", i) by {
      assert url[i..i + 8] == url[i..i + 9][..8];
    }
    ContainsAt(url, "youtu.be", i);
  }
}
