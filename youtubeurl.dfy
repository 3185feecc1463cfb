/** Video-id extraction from a YouTube URL (parse_youtube_url, index.py:72-77):
    the leftmost match of
      (?:youtube\.com\/.*?[?&]v=|youtu\.be\/)([^"&?\/\s]{11})
    found by re.search, as an explicit scanner. */
module YoutubeUrl {
  import opened Wrappers
  import opened Chars

  const IdLength: nat := 11

  /** `[^"&?\/\s]` */
  predicate IsIdChar(c: char) {
    c != '"' && c != '&' && c != '?' && c != '/' && !IsSpace(c)
  }

  /** The literal `lit` occurs in `url` at position p. */
  predicate HasAt(url: string, p: int, lit: string) {
    0 <= p && p + |lit| <= |url| && url[p..p + |lit|] == lit
  }

  /** `([^"&?\/\s]{11})` matches at position k. */
  predicate IdAt(url: string, k: int) {
    0 <= k && k + IdLength <= |url| && forall i :: k <= i < k + IdLength ==> IsIdChar(url[i])
  }

  /** The pattern matches starting at p with its group starting at k: either
      `youtu.be/` at p and the id right after it, or `youtube.com/` at p, then a
      run of characters other than newline (what `.*?` may consume), then `?v=`
      or `&v=`, then the id. */
  predicate MatchesAt(url: string, p: int, k: int) {
    IdAt(url, k) &&
    ((HasAt(url, p, "youtu.be/") && k == p + 9)
     || (HasAt(url, p, "youtube.com/") && p + 12 <= k - 3
         && (url[k - 3] == '?' || url[k - 3] == '&') && url[k - 2] == 'v' && url[k - 1] == '='
         && forall i :: p + 12 <= i < k - 3 ==> url[i] != '\n'))
  }

  /** The match re.search reports: no match starts further left, and among the
      matches starting at p the lazy `.*?` takes the shortest. */
  ghost predicate IsLeftmost(url: string, p: int, k: int) {
    (forall p', k' :: p' < p ==> !MatchesAt(url, p', k'))
    && forall k' :: k' < k ==> !MatchesAt(url, p, k')
  }

  /** The two literals of the alternation cannot both occur at one position. */
  lemma AlternativesExclusive(url: string, p: int)
    ensures !(HasAt(url, p, "youtu.be/") && HasAt(url, p, "youtube.com/"))
  {
    if HasAt(url, p, "youtube.com/") {
      assert url[p + 5] == url[p..p + 12][5] == 'b';
    }
  }

  /** The lazy `.*?[?&]v=` after `youtube.com/` at p, once `.*?` has consumed
      url[p + 12..j]: first try `[?&]v=` and the id at j, and only then let `.*?`
      take one more character, which must not be a newline. */
  function LazyScan(url: string, p: nat, j: nat): (k: Option<nat>)
    requires HasAt(url, p, "youtube.com/") && p + 12 <= j <= |url|
    requires forall i :: p + 12 <= i < j ==> url[i] != '\n'
    ensures k.Some? ==> j + 3 <= k.value && MatchesAt(url, p, k.value)
    ensures k.Some? ==> forall k' :: j + 3 <= k' < k.value ==> !MatchesAt(url, p, k')
    ensures k.None? ==> forall k' :: j + 3 <= k' ==> !MatchesAt(url, p, k')
    decreases |url| - j
  {
    AlternativesExclusive(url, p);
    if j == |url| then None
    else if (url[j] == '?' || url[j] == '&') && j + 2 < |url| && url[j + 1] == 'v' && url[j + 2] == '='
            && IdAt(url, j + 3) then
      Some(j + 3)
    else if url[j] == '\n' then None
    else LazyScan(url, p, j + 1)
  }

  /** The match of the pattern that starts at p, if any. */
  function MatchStartingAt(url: string, p: nat): (k: Option<nat>)
    requires p <= |url|
    ensures k.Some? ==> MatchesAt(url, p, k.value)
    ensures k.Some? ==> forall k' :: k' < k.value ==> !MatchesAt(url, p, k')
    ensures k.None? ==> forall k' :: !MatchesAt(url, p, k')
  {
    AlternativesExclusive(url, p);
    if HasAt(url, p, "youtube.com/") then LazyScan(url, p, p + 12)
    else if HasAt(url, p, "youtu.be/") && IdAt(url, p + 9) then Some(p + 9)
    else None
  }

  /** re.search: try every start position from p rightwards. */
  function SearchFrom(url: string, p: nat): (m: Option<(nat, nat)>)
    requires p <= |url|
    ensures m.Some? ==> p <= m.value.0 && MatchesAt(url, m.value.0, m.value.1)
    ensures m.Some? ==> forall p', k' :: p <= p' < m.value.0 ==> !MatchesAt(url, p', k')
    ensures m.Some? ==> forall k' :: k' < m.value.1 ==> !MatchesAt(url, m.value.0, k')
    ensures m.None? ==> forall p', k' :: p <= p' ==> !MatchesAt(url, p', k')
    decreases |url| - p
  {
    match MatchStartingAt(url, p)
    case Some(k) => Some((p, k))
    case None => if p == |url| then None else SearchFrom(url, p + 1)
  }

  /** ValueError('Invalid YouTube URL') */
  datatype UrlError = InvalidYoutubeUrl

  /** The video id: group 1 of the leftmost match, or the error when the pattern
      matches nowhere. */
  function ParseYoutubeUrl(url: string): (r: Result<string, UrlError>)
    ensures r.Ok? ==> |r.value| == IdLength && forall i :: 0 <= i < |r.value| ==> IsIdChar(r.value[i])
    ensures r.Ok? ==> exists p, k :: MatchesAt(url, p, k) && IsLeftmost(url, p, k) && r.value == url[k..k + IdLength]
    ensures r.Err? <==> forall p, k :: !MatchesAt(url, p, k)
  {
    match SearchFrom(url, 0)
    case Some((p, k)) => Ok(url[k..k + IdLength])
    case None => Err(InvalidYoutubeUrl)
  }

  /** A position where a match can start holds the letter 'y'. */
  lemma MatchStartsWithY(url: string, p: int, k: int)
    requires MatchesAt(url, p, k)
    ensures 0 <= p < |url| && url[p] == 'y'
  {
  }

  lemma LiteralAt(a: string, lit: string, b: string)
    ensures HasAt(a + lit + b, |a|, lit)
  {
  }

  const ShortUrl: string := "https://youtu.be/dQw4w9WgXcQ?t=42"

  lemma ShortUrlParts(url: string)
    requires url == ShortUrl
    ensures url == "https://" + "youtu.be/" + "dQw4w9WgXcQ" + "?t=42"
    ensures url[..8] == "https://"
  {
  }

  lemma ShortUrlMatch(url: string)
    requires url == ShortUrl
    ensures MatchesAt(url, 8, 17) && url[17..28] == "dQw4w9WgXcQ"
    ensures 'y' !in url[..8]
  {
    ShortUrlParts(url);
    LiteralAt("https://", "youtu.be/", "dQw4w9WgXcQ?t=42");
    LiteralAt("https://youtu.be/", "dQw4w9WgXcQ", "?t=42");
  }

  /** A short link: the id follows `youtu.be/`, and a query string after it is
      ignored. */
  lemma ShortLinkExample()
    ensures ParseYoutubeUrl(ShortUrl) == Ok("dQw4w9WgXcQ")
  {
    var url := ShortUrl;
    ShortUrlMatch(url);
    var r := ParseYoutubeUrl(url);
    var p, k :| MatchesAt(url, p, k) && IsLeftmost(url, p, k) && r.value == url[k..k + IdLength];
    MatchStartsWithY(url, p, k);
    AlternativesExclusive(url, 8);
    assert p == 8 && k == 17;
  }

  const WatchUrl: string := "https://www.youtube.com/watch?v=dQw4w9WgXcQ&t=42"

  lemma WatchUrlParts(url: string)
    requires url == WatchUrl
    ensures url == "https://www." + "youtube.com/" + "watch" + "?v=" + "dQw4w9WgXcQ" + "&t=42"
    ensures url[..12] == "https://www." && url[24..29] == "watch"
  {
  }

  lemma WatchUrlLiterals(url: string)
    requires url == WatchUrl
    ensures HasAt(url, 12, "youtube.com/")
    ensures 'y' !in url[..12]
  {
    WatchUrlParts(url);
    LiteralAt("https://www.", "youtube.com/", "watch?v=dQw4w9WgXcQ&t=42");
  }

  lemma WatchUrlQuery(url: string)
    requires url == WatchUrl
    ensures IdAt(url, 32) && url[32..43] == "dQw4w9WgXcQ"
    ensures url[29] == '?' && url[30] == 'v' && url[31] == '='
    ensures forall i :: 24 <= i < 29 ==> url[i] == url[24..29][i - 24]
    ensures '?' !in url[24..29] && '&' !in url[24..29] && '\n' !in url[24..29]
  {
    WatchUrlParts(url);
    LiteralAt("https://www.youtube.com/watch?v=", "dQw4w9WgXcQ", "&t=42");
  }

  lemma WatchUrlMatch(url: string)
    requires url == WatchUrl
    ensures MatchesAt(url, 12, 32) && url[32..43] == "dQw4w9WgXcQ"
    ensures 'y' !in url[..12] && forall i :: 24 <= i < 29 ==> url[i] != '?' && url[i] != '&'
  {
    WatchUrlLiterals(url);
    WatchUrlQuery(url);
  }

  /** A watch link: the id follows `?v=` after `youtube.com/`. */
  lemma WatchLinkExample()
    ensures ParseYoutubeUrl(WatchUrl) == Ok("dQw4w9WgXcQ")
  {
    var url := WatchUrl;
    WatchUrlMatch(url);
    var r := ParseYoutubeUrl(url);
    var p, k :| MatchesAt(url, p, k) && IsLeftmost(url, p, k) && r.value == url[k..k + IdLength];
    MatchStartsWithY(url, p, k);
    assert p == 12;
    AlternativesExclusive(url, 12);
    assert k == 32;
  }

  const TrendingUrl: string := "https://www.youtube.com/feed/trending"

  lemma TrendingUrlNoQuery(url: string)
    requires url == TrendingUrl
    ensures '?' !in url && '&' !in url && url[17] == 'b'
  {
  }

  lemma TrendingUrlOneY(url: string)
    requires url == TrendingUrl
    ensures 'y' !in url[..12] && 'y' !in url[13..]
  {
    assert url == "https://www." + "y" + "outube.com/feed/trending";
    assert url[..12] == "https://www.";
    assert url[13..] == "outube.com/feed/trending";
  }

  lemma TrendingUrlNoMatch(url: string, p: int, k: int)
    requires url == TrendingUrl
    ensures !MatchesAt(url, p, k)
  {
    TrendingUrlNoQuery(url);
    TrendingUrlOneY(url);
    if MatchesAt(url, p, k) {
      MatchStartsWithY(url, p, k);
    }
  }

  /** A URL that names no video raises the error. */
  lemma NoVideoExample()
    ensures ParseYoutubeUrl(TrendingUrl) == Err(InvalidYoutubeUrl)
  {
    forall p, k ensures !MatchesAt(TrendingUrl, p, k) {
      TrendingUrlNoMatch(TrendingUrl, p, k);
    }
  }
}
