# proxy_cookie — a Dafny model of cookie rewriting in a Traefik middleware

The middleware brings nginx's `proxy_cookie_path` and `proxy_cookie_domain` to
Traefik. It wraps the response writer of every request. When the upstream
handler commits the status code, the wrapper:

1. takes the cookies parsed from the response's `Set-Cookie` values;
2. deletes every `Set-Cookie` value;
3. re-adds each cookie, in order, after three steps:
   - prefixing its Path with a configured prefix;
   - rewriting its Path with a chain of regular-expression rules;
   - rewriting its Domain with a second chain.
4. forwards the status code.

Each step runs only when it is configured. The rules are compiled once, when
the plugin is built. Building fails on the first pattern that does not compile.

The model has five modules, one file each:

- `Wrappers` (`wrappers.dfy`): the `Result` type for Go's `(value, error)` returns.
- `Rewrites` (`rewrites.dfy`): configured and compiled rules, and the chain
  `ApplyRewrites`. `HandleRewrites` is the loop that runs the chain;
  `ConvertRewrites` is the loop that compiles a rule list.
- `Cookies` (`cookies.dfy`): the cookie record, `PrefixPath`, and the
  per-cookie `Transform`.
- `Plugin` (`plugin.dfy`): the configuration and `New`.
- `ResponseWriters` (`response_writer.dfy`): the header map and `CommitHeader`,
  the header map a commit leaves behind. It also holds the class
  `ResponseWriter`, whose `WriteHeader` edits the wrapped writer's header in
  place and is proved to leave `CommitHeader` of the old header.

Three collaborators are parameters rather than code:

- The regular-expression engine is `RegexEngine`. It says which pattern texts
  compile and what `ReplaceAllString` returns.
- The cookie wire format is `CookieCodec`. `readSetCookies` is what
  `Response.Cookies` makes of the `Set-Cookie` values; a value that fails to
  parse yields no cookie. `format` is a cookie's `Set-Cookie` value.
- The wrapped writer is the class `Writer`, a recording stand-in. It keeps its
  header map, each status code it receives together with the header in effect
  at that moment, and the body bytes.

`http.SetCookie` adds nothing for a cookie that formats to the empty string,
and the model keeps that rule (`SetCookie`). So "one `Set-Cookie` value per
parsed cookie" is a lemma, and it holds when every transformed cookie formats
to a value.

Behaviour of the code that the model follows as written:

- There is no record of an earlier commit. Every `WriteHeader` call reads the
  `Set-Cookie` values again and transforms them again. A second call therefore
  prefixes an already prefixed path once more.
- `Write` forwards body bytes and touches no header. If a handler writes the
  body without calling `WriteHeader` first, its cookies are not rewritten.
- A prefix is configured exactly when it is non-empty. An empty prefix cannot
  be told apart from no prefix.
- The compile error names the pattern but not the rule list it came from.
  Domain rules are compiled first, so a bad domain rule is the one reported.
- A cookie without a Path attribute ends up with the same path as a cookie
  scoped to `/`: `"/" + prefix` (`PrefixPathUnsetPath`).

## Model

| member | source | states |
|---|---|---|
| `Rewrites.ApplyRewritesSnoc` | proxy_cookie.go:177-182 | The empty chain is the identity. A rule appended to a chain is applied to that chain's output, so rules run in declared order and each feeds the next. |
| `Rewrites.ApplyRewritesAppend` | proxy_cookie.go:177-182 | Running one chain and then another is the same as running the chain made of both. |
| `Rewrites.HandleRewrites` | proxy_cookie.go:177-182 | The loop returns the value after the whole chain, applied left to right. |
| `Rewrites.ConvertRewrites` | proxy_cookie.go:76-90 | Succeeds exactly when every pattern compiles. On success the list has one compiled rule per configured rule, at the same index, with that rule's pattern and replacement. On failure it holds no rules, and the error names the first pattern that does not compile. |
| `Rewrites.FirstInvalidUnique` | proxy_cookie.go:79-83 | There is only one first failing rule, so the error returned is determined. |
| `Cookies.PrefixPath` | proxy_cookie.go:169-175 | The result starts with `"/" + prefix`. For the root path nothing follows, so no trailing `/` is added. Stripping the prefix gives back every non-empty path. |
| `Cookies.PrefixPathRootNoTrailingSlash` | proxy_cookie.go:170-172 | For a non-empty prefix that does not end in `/`, the prefixed root path does not end in `/`. |
| `Cookies.PrefixPathUnsetPath` | proxy_cookie.go:169-175 | The empty path and `/` get the same prefixed path. By `PrefixPath`'s contract, every other pair of paths stays apart. |
| `Cookies.Transform` | proxy_cookie.go:136-155 | Only Path and Domain change; every other attribute is carried over. The path is prefixed (when a prefix is set) before the path chain runs. The domain goes through the domain chain whatever the path settings are. Skipping an empty chain is the same as running it. |
| `Cookies.TransformUnconfigured` | proxy_cookie.go:140-155 | With no prefix and no rules, a cookie is unchanged. |
| `Plugin.New` | proxy_cookie.go:56-74 | Succeeds exactly when both rule lists compile. A bad domain rule is reported before any bad path rule. A bad path rule is reported only when every domain rule compiles. On success the name and prefix are kept as given, and both lists are compiled entry by entry. |
| `ResponseWriters.SetCookieAppends` | proxy_cookie.go:160-161 | Setting a cookie appends its formatted value after the `Set-Cookie` values already there. An empty value adds nothing. |
| `ResponseWriters.CommitHeader` | proxy_cookie.go:123-162 | Every header other than `Set-Cookie` is untouched. The `Set-Cookie` values are exactly those emitted for the parsed cookies after the transform, in order. The key is present only when there is at least one such value. |
| `ResponseWriters.EmittedFromTransformed` | proxy_cookie.go:131-162 | There are no more values than parsed cookies. Each value is the formatted form of some transformed cookie, so no original value survives as such. |
| `ResponseWriters.EmittedOnePerCookie` | proxy_cookie.go:136-162 | When every transformed cookie formats to a value, there is exactly one value per parsed cookie. Value `i` is cookie `i` after the transform. |
| `ResponseWriters.ResponseWriter.constructor` | proxy_cookie.go:92-98 | A response writer wraps the given writer and carries the plugin's prefix and both compiled chains. |
| `ResponseWriters.ResponseWriter.Write` | proxy_cookie.go:114-116 | Body bytes are appended to the wrapped writer. The header and the status commits stay unchanged, so no cookie is rewritten. |
| `ResponseWriters.ResponseWriter.RewriteCookie` | proxy_cookie.go:136-155 | The loop body's three guarded steps, run in place on one cookie, give exactly `Transform` of that cookie. |
| `ResponseWriters.ResponseWriter.WriteHeader` | proxy_cookie.go:118-167 | The wrapped writer's header becomes `CommitHeader` of the old header. The wrapped writer then receives the same status code, once, with the edited header in effect. The body is unchanged. Nothing guards against a second call. |

## Left out

- Regular-expression semantics (`regexp.Compile`, `ReplaceAllString`, capture-group templates): foreign library code, modelled by the `RegexEngine` parameter. The compiler's own error text, which the source wraps into its error, is not modelled.
- `Set-Cookie` parsing and serialisation (`Response.Cookies`, `cookie.String()`): net/http wire-format code, modelled by the `CookieCodec` parameter.
- Header key canonicalisation: the model uses the literal key `Set-Cookie`, the canonical form that `Del`, `Add` and `Response.Cookies` all use.
- What the real wrapped writer does beyond recording: an implicit 200 commit on its first `Write`, and ignoring a repeated status. This is net/http behaviour outside the middleware.
- `Hijack` and `Flush` (proxy_cookie.go:184-197): runtime capability probes on the connection. This is I/O plumbing.
- `Header()` passthrough (proxy_cookie.go:110-112): the model's `ResponseWriter` works on the wrapped writer's header map directly.
- `ServeHTTP` (proxy_cookie.go:92-101): only building the wrapper is modelled, by the constructor. The call to the next handler is left out, and so is the next handler stored by `New`.
- `CreateConfig` (proxy_cookie.go:41-44): it only returns an empty configuration.
- The `fmt.Printf` diagnostic output in `WriteHeader`: it is output only and has no effect on state.
