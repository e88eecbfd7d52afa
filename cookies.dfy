/**
 Cookies and the per-cookie transform: the path prefix (`prefixPath`) and the
 fixed order in which the response writer prefixes the path, rewrites the path
 and rewrites the domain of each cookie it re-emits.
 */
module Cookies {
  import opened Rewrites

  /** The SameSite attribute of a Go cookie; `SameSiteUnset` is its zero value. */
  datatype SameSite =
    | SameSiteUnset
    | SameSiteDefaultMode
    | SameSiteLaxMode
    | SameSiteStrictMode
    | SameSiteNoneMode

  /** A parsed cookie, with the attributes of Go's `http.Cookie`. `expires` is an
      instant the middleware never looks at. */
  datatype Cookie = Cookie(
    name: string,
    value: string,
    quoted: bool,
    path: string,
    domain: string,
    expires: int,
    rawExpires: string,
    maxAge: int,
    secure: bool,
    httpOnly: bool,
    sameSite: SameSite,
    partitioned: bool,
    raw: string,
    unparsed: seq<string>)

  /** What the plugin was configured to do to a cookie's Path and Domain: the
      path prefix and the two rule chains (empty when not configured). */
  datatype CookieRewriter = CookieRewriter(
    pathPrefix: string,
    pathRewrites: seq<Rewrite>,
    domainRewrites: seq<Rewrite>)

  /** Recovers the path from a prefixed path: the inverse of `PrefixPath` on
      every path but the empty one. */
  function StripPrefix(prefixed: string, prefix: string): string
    requires |prefixed| > |prefix|
  {
    if prefixed == "/" + prefix then "/" else prefixed[|prefix| + 1..]
  }

  /** `prefixPath`: puts "/" + prefix in front of the path; the root path adds
      nothing after the prefix, so no trailing "/" appears. */
  function PrefixPath(path: string, prefix: string): (r: string)
    ensures |r| > |prefix| && r[..|prefix| + 1] == "/" + prefix
    ensures path == "/" ==> |r| == |prefix| + 1
    ensures path != "" ==> StripPrefix(r, prefix) == path
  {
    if path == "/" then
      // prevent trailing /
      "/" + prefix
    else
      "/" + prefix + path
  }

  /** For a prefix that does not end in "/", the root path gets no trailing "/". */
  lemma PrefixPathRootNoTrailingSlash(prefix: string)
    requires prefix != [] && prefix[|prefix| - 1] != '/'
    ensures var r := PrefixPath("/", prefix); r[|r| - 1] != '/'
  {
  }

  /** A cookie without a Path attribute (the empty path) gets the same path as
      one scoped to the root: the only two paths prefixing does not keep apart. */
  lemma PrefixPathUnsetPath(prefix: string)
    ensures PrefixPath("", prefix) == PrefixPath("/", prefix)
  {
  }

  /** The path after the prefix step: prefixed only when a prefix is set. */
  function PrefixedPath(prefix: string, path: string): string {
    if |prefix| > 0 then PrefixPath(path, prefix) else path
  }

  /** The per-cookie transform of `WriteHeader`: prefix the path if a prefix is
      set, then rewrite the path if path rules are set, then rewrite the domain
      if domain rules are set. */
  function Transform(engine: RegexEngine, rewriter: CookieRewriter, c: Cookie): (r: Cookie)
    // every attribute but Path and Domain is carried over unchanged
    ensures r.(path := c.path, domain := c.domain) == c
    // the path is prefixed first, then run through the path chain
    ensures r.path == ApplyRewrites(engine, rewriter.pathRewrites, PrefixedPath(rewriter.pathPrefix, c.path))
    // the domain is run through the domain chain, whatever the path settings
    ensures r.domain == ApplyRewrites(engine, rewriter.domainRewrites, c.domain)
  {
    var prefixed :=
      if |rewriter.pathPrefix| > 0 then c.(path := PrefixPath(c.path, rewriter.pathPrefix)) else c;
    var pathRewritten :=
      if |rewriter.pathRewrites| > 0
      then prefixed.(path := ApplyRewrites(engine, rewriter.pathRewrites, prefixed.path))
      else prefixed;
    if |rewriter.domainRewrites| > 0
    then pathRewritten.(domain := ApplyRewrites(engine, rewriter.domainRewrites, pathRewritten.domain))
    else pathRewritten
  }

  /** With no prefix and no rules configured, a cookie comes out as it went in. */
  lemma TransformUnconfigured(engine: RegexEngine, c: Cookie)
    ensures Transform(engine, CookieRewriter("", [], []), c) == c
  {
  }
}
