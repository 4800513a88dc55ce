/** Turning a request URL into the absolute URL used as cache and de-duplication key. */
module Urls {

  /** ASCII lower-casing, the folding a case-insensitive non-Unicode regular expression applies to letters. */
  function LowerChar(c: char): (l: char)
  {
    if 'A' <= c <= 'Z' then (c as int + 32) as char else c
  }

  /** `s` starts with the lower-case `prefix`, letters compared without regard to case. */
  predicate StartsWithIgnoringCase(s: string, prefix: string)
  {
    |prefix| <= |s| && forall i :: 0 <= i < |prefix| ==> LowerChar(s[i]) == prefix[i]
  }

  /** The test `/^https?:\/\//i`: only the http and https schemes count as absolute. */
  predicate IsAbsolute(url: string)
  {
    StartsWithIgnoringCase(url, "http://") || StartsWithIgnoringCase(url, "https://")
  }

  predicate StartsWithSlash(url: string)
  {
    |url| > 0 && url[0] == '/'
  }

  /**
   * An absolute URL is kept as it is; anything else is placed under the
   * page origin, with exactly one '/' between the origin and the URL
   * unless the URL already starts with one.
   */
  function ResolveURL(origin: string, url: string): (r: string)
    ensures IsAbsolute(url) ==> r == url
    ensures !IsAbsolute(url) ==>
      |r| > |origin| && r[..|origin|] == origin && r[|origin|] == '/' &&
      (StartsWithSlash(url) ==> r[|origin|..] == url) &&
      (!StartsWithSlash(url) ==> r[|origin| + 1..] == url)
    ensures |url| <= |r|
  {
    if IsAbsolute(url) then url
    else if StartsWithSlash(url) then origin + url
    else origin + "/" + url
  }

  /** A root-relative and a path-relative spelling of the same path name the same resource. */
  lemma LeadingSlashIrrelevant(origin: string, path: string)
    requires !IsAbsolute(path) && !StartsWithSlash(path)
    ensures ResolveURL(origin, "/" + path) == ResolveURL(origin, path)
  {
  }

  /** Resolving is idempotent when the origin is itself an http(s) URL: a key resolves to itself. */
  lemma ResolveIdempotent(origin: string, url: string)
    requires IsAbsolute(origin)
    ensures ResolveURL(origin, ResolveURL(origin, url)) == ResolveURL(origin, url)
  {
  }

  /** The worked example: "/api/x" and "api/x" both resolve to the origin followed by "/api/x". */
  lemma ExampleRelativePaths()
    ensures ResolveURL("https://example.com", "/api/x") == "https://example.com/api/x"
    ensures ResolveURL("https://example.com", "api/x") == "https://example.com/api/x"
  {
  }

  /** The scheme test ignores letter case. */
  lemma ExampleUpperCaseScheme()
    ensures ResolveURL("https://example.com", "HTTP://a") == "HTTP://a"
  {
  }

  /** No scheme other than http and https counts as absolute. */
  lemma ExampleOtherScheme()
    ensures ResolveURL("https://example.com", "ftp://a") == "https://example.com/ftp://a"
  {
    assert !IsAbsolute("ftp://a") by {
      assert "ftp://a"[0] == 'f' && LowerChar('f') != 'h';
    }
  }
}
