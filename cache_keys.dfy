/**
 * The Redis key under which a finished download is remembered: the request's
 * URL, format and quality joined by colons behind a "video:" prefix.
 */
module CacheKeys {
  import opened Wrappers
  import opened Text

  const KeyPrefix: string := "video:"

  /** The key for one (url, format, quality) request. */
  function CacheKey(url: string, format: string, quality: string): (r: string)
    ensures KeyPrefix <= r
    ensures |r| == |KeyPrefix| + |url| + |format| + |quality| + 2
  {
    KeyPrefix + url + ":" + format + ":" + quality
  }

  /** Splits a text at its last colon. */
  function SplitLast(s: string): (r: Option<(string, string)>)
    ensures r.None? <==> ':' !in s
    ensures r.Some? ==> s == r.value.0 + ":" + r.value.1 && ':' !in r.value.1
  {
    match LastIndex(s, ':')
    case None => None
    case Some(j) =>
      assert s == s[..j] + ":" + s[j + 1..];
      Some((s[..j], s[j + 1..]))
  }

  /** The colon SplitLast finds is the one placed before a colon-free tail. */
  lemma SplitLastJoin(a: string, b: string)
    requires ':' !in b
    ensures SplitLast(a + ":" + b) == Some((a, b))
  {
    var s := a + ":" + b;
    LastIndexOfJoin(a, ':', b);
    assert s[..|a|] == a;
    assert s[|a| + 1..] == b;
  }

  /**
   * Reads a key back into its request, taking the last two colons as the
   * separators: URLs routinely contain colons, formats and qualities do not.
   */
  function ParseKey(key: string): (r: Option<(string, string, string)>)
  {
    if !(KeyPrefix <= key) then None
    else
      match SplitLast(key[|KeyPrefix|..])
      case None => None
      case Some((front, quality)) =>
        match SplitLast(front)
        case None => None
        case Some((url, format)) => Some((url, format, quality))
  }

  /** A request whose format and quality hold no colon is recovered from its key. */
  lemma KeyRoundTrip(url: string, format: string, quality: string)
    requires ':' !in format && ':' !in quality
    ensures ParseKey(CacheKey(url, format, quality)) == Some((url, format, quality))
  {
    var key := CacheKey(url, format, quality);
    var front := url + ":" + format;
    assert key == KeyPrefix + (front + ":" + quality);
    assert key[|KeyPrefix|..] == front + ":" + quality;
    SplitLastJoin(front, quality);
    SplitLastJoin(url, format);
  }

  /** Every key that parses is the key of the request it parses to. */
  lemma ParseKeyInverse(key: string)
    ensures ParseKey(key).Some? ==>
              var (url, format, quality) := ParseKey(key).value;
              CacheKey(url, format, quality) == key && ':' !in format && ':' !in quality
  {
    if ParseKey(key).Some? {
      var rest := key[|KeyPrefix|..];
      var (front, quality) := SplitLast(rest).value;
      var (url, format) := SplitLast(front).value;
      assert ParseKey(key).value == (url, format, quality);
      PrefixThenRest(KeyPrefix, key);
      Regroup(KeyPrefix, url, format, quality);
    }
  }

  lemma PrefixThenRest(p: string, s: string)
    requires p <= s
    ensures s == p + s[|p|..]
  {
  }

  lemma Regroup(p: string, a: string, b: string, c: string)
    ensures p + (a + ":" + b + ":" + c) == p + a + ":" + b + ":" + c
  {
  }

  /** Distinct requests get distinct keys as long as formats and qualities hold no colon. */
  lemma KeyInjective(url1: string, format1: string, quality1: string,
                     url2: string, format2: string, quality2: string)
    requires ':' !in format1 && ':' !in quality1
    requires ':' !in format2 && ':' !in quality2
    requires CacheKey(url1, format1, quality1) == CacheKey(url2, format2, quality2)
    ensures url1 == url2 && format1 == format2 && quality1 == quality2
  {
    KeyRoundTrip(url1, format1, quality1);
    KeyRoundTrip(url2, format2, quality2);
  }

  /**
   * The key is not injective in general: a colon moved from the URL into the
   * format gives a different request with the same key, so the second
   * request is answered with the file cached for the first.
   */
  lemma KeyCollision()
    ensures ("u:mp4", "720p", "best") != ("u", "mp4:720p", "best")
    ensures CacheKey("u:mp4", "720p", "best") == CacheKey("u", "mp4:720p", "best")
  {
    assert "u:mp4" != "u" by { assert |"u:mp4"| != |"u"|; }
  }
}
