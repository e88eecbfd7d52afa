/**
 The response writer that wraps the real one for the duration of a request: at
 `WriteHeader` it takes the cookies parsed from the `Set-Cookie` values, deletes
 every `Set-Cookie` value, re-adds each cookie after the per-cookie transform,
 in order, and then forwards the status code.

 Parsing `Set-Cookie` values and formatting a cookie are net/http's wire format
 and are parameters here (`CookieCodec`). The wrapped writer is a recording
 stand-in (`Writer`) that keeps its header map, the status codes it received
 together with the header in effect at that moment, and the body bytes.
 */
module ResponseWriters {
  import opened Rewrites
  import opened Cookies
  import opened Plugin

  /** A header map: each key with its values, in the order they were added. */
  type Header = map<string, seq<string>>

  const SetCookieHeader: string := "Set-Cookie"

  /** The values of a key; none when the key is absent. */
  function Values(h: Header, key: string): seq<string> {
    if key in h then h[key] else []
  }

  /** Deleting a key removes all of its values. */
  function Del(h: Header, key: string): Header {
    h - {key}
  }

  /** Adding a value appends it after the key's existing values. */
  function Add(h: Header, key: string, value: string): Header {
    h[key := Values(h, key) + [value]]
  }

  /** The cookie wire format: `readSetCookies` turns the `Set-Cookie` values into
      the cookies that parse (a value that does not parse yields no cookie), and
      `format` is the `Set-Cookie` value of a cookie ("" for one it cannot
      serialise). */
  datatype CookieCodec = CookieCodec(
    readSetCookies: seq<string> -> seq<Cookie>,
    format: Cookie -> string)

  /** `http.SetCookie`: adds the cookie's `Set-Cookie` value unless it is empty. */
  function SetCookie(codec: CookieCodec, h: Header, c: Cookie): Header {
    var v := codec.format(c);
    if v != "" then Add(h, SetCookieHeader, v) else h
  }

  /** The `Set-Cookie` values emitted for `cookies`, one per transformed cookie
      that formats to a non-empty value, in order. */
  function Emitted(engine: RegexEngine, codec: CookieCodec, rewriter: CookieRewriter, cookies: seq<Cookie>): seq<string>
    decreases |cookies|
  {
    if cookies == [] then []
    else
      var v := codec.format(Transform(engine, rewriter, cookies[|cookies| - 1]));
      Emitted(engine, codec, rewriter, cookies[..|cookies| - 1]) + (if v != "" then [v] else [])
  }

  /** `h` with `values` as its `Set-Cookie` values; the key is absent when there
      are none. */
  function WithSetCookies(h: Header, values: seq<string>): Header {
    if values == [] then h - {SetCookieHeader} else h[SetCookieHeader := values]
  }

  /** Setting one more cookie appends its value to the `Set-Cookie` values. */
  lemma SetCookieAppends(codec: CookieCodec, rest: Header, values: seq<string>, c: Cookie)
    requires SetCookieHeader !in rest
    ensures var v := codec.format(c);
      SetCookie(codec, WithSetCookies(rest, values), c)
      == WithSetCookies(rest, values + (if v != "" then [v] else []))
  {
    var v := codec.format(c);
    if v != "" {
      assert Values(WithSetCookies(rest, values), SetCookieHeader) == values;
    } else {
      assert values + [] == values;
    }
  }

  /** The header map `WriteHeader` leaves behind. */
  function CommitHeader(engine: RegexEngine, codec: CookieCodec, rewriter: CookieRewriter, h: Header): (r: Header)
    // every other header is untouched
    ensures r - {SetCookieHeader} == h - {SetCookieHeader}
    // the Set-Cookie values are exactly those emitted for the parsed cookies
    ensures Values(r, SetCookieHeader)
         == Emitted(engine, codec, rewriter, codec.readSetCookies(Values(h, SetCookieHeader)))
    ensures SetCookieHeader in r <==> Values(r, SetCookieHeader) != []
  {
    WithSetCookies(h, Emitted(engine, codec, rewriter, codec.readSetCookies(Values(h, SetCookieHeader))))
  }

  /** Every emitted value is the formatted form of one of the cookies after the
      transform: none of the values that were there before survives as such. */
  lemma {:induction false} EmittedFromTransformed(engine: RegexEngine, codec: CookieCodec, rewriter: CookieRewriter, cookies: seq<Cookie>)
    ensures |Emitted(engine, codec, rewriter, cookies)| <= |cookies|
    ensures forall j :: 0 <= j < |Emitted(engine, codec, rewriter, cookies)| ==>
      exists i :: 0 <= i < |cookies|
        && Emitted(engine, codec, rewriter, cookies)[j] == codec.format(Transform(engine, rewriter, cookies[i]))
    decreases |cookies|
  {
    if cookies != [] {
      var init := cookies[..|cookies| - 1];
      EmittedFromTransformed(engine, codec, rewriter, init);
      var e := Emitted(engine, codec, rewriter, cookies);
      var e0 := Emitted(engine, codec, rewriter, init);
      forall j | 0 <= j < |e|
        ensures exists i :: 0 <= i < |cookies| && e[j] == codec.format(Transform(engine, rewriter, cookies[i]))
      {
        if j < |e0| {
          var i :| 0 <= i < |init| && e0[j] == codec.format(Transform(engine, rewriter, init[i]));
          assert cookies[i] == init[i];
        } else {
          assert e[j] == codec.format(Transform(engine, rewriter, cookies[|cookies| - 1]));
        }
      }
    }
  }

  /** When every transformed cookie formats to a value, there is exactly one
      value per parsed cookie, in the order the cookies were parsed. */
  lemma {:induction false} EmittedOnePerCookie(engine: RegexEngine, codec: CookieCodec, rewriter: CookieRewriter, cookies: seq<Cookie>)
    requires forall i :: 0 <= i < |cookies| ==> codec.format(Transform(engine, rewriter, cookies[i])) != ""
    ensures |Emitted(engine, codec, rewriter, cookies)| == |cookies|
    ensures forall i :: 0 <= i < |cookies| ==>
      Emitted(engine, codec, rewriter, cookies)[i] == codec.format(Transform(engine, rewriter, cookies[i]))
    decreases |cookies|
  {
    if cookies != [] {
      var init := cookies[..|cookies| - 1];
      assert forall i :: 0 <= i < |init| ==> init[i] == cookies[i];
      EmittedOnePerCookie(engine, codec, rewriter, init);
    }
  }

  /** The wrapped response writer, recording what reaches it. */
  datatype Commit = Commit(status: int, header: Header)

  class Writer {
    var header: Header
    var commits: seq<Commit>
    var body: seq<bv8>

    constructor (header: Header)
      ensures this.header == header && commits == [] && body == []
    {
      this.header := header;
      commits := [];
      body := [];
    }

    /** Receives a status code; the header in effect is what gets sent. */
    method WriteHeader(status: int)
      modifies this
      ensures header == old(header) && body == old(body)
      ensures commits == old(commits) + [Commit(status, header)]
    {
      commits := commits + [Commit(status, header)];
    }

    /** Receives body bytes. */
    method Write(bytes: seq<bv8>) returns (n: int)
      modifies this
      ensures n == |bytes|
      ensures header == old(header) && commits == old(commits)
      ensures body == old(body) + bytes
    {
      body := body + bytes;
      n := |bytes|;
    }
  }

  /** The writer handed to the next handler in place of the real one. */
  class ResponseWriter {
    const writer: Writer
    const engine: RegexEngine
    const codec: CookieCodec
    const rewriter: CookieRewriter

    /** Built per request from the plugin's compiled settings. */
    constructor (writer: Writer, plugin: ProxyCookiePlugin, engine: RegexEngine, codec: CookieCodec)
      ensures this.writer == writer && this.rewriter == plugin.rewriter
      ensures this.engine == engine && this.codec == codec
    {
      this.writer := writer;
      this.rewriter := plugin.rewriter;
      this.engine := engine;
      this.codec := codec;
    }

    /** Body bytes go straight to the wrapped writer; no cookie is rewritten. */
    method Write(bytes: seq<bv8>) returns (n: int)
      modifies writer
      ensures n == |bytes|
      ensures writer.header == old(writer.header) && writer.commits == old(writer.commits)
      ensures writer.body == old(writer.body) + bytes
    {
      n := writer.Write(bytes);
    }

    /** The body of the cookie loop: prefix the path, rewrite the path, rewrite
        the domain, each step only when it is configured. */
    method RewriteCookie(original: Cookie) returns (cookie: Cookie)
      ensures cookie == Transform(engine, rewriter, original)
    {
      cookie := original;
      if |rewriter.pathPrefix| > 0 {
        cookie := cookie.(path := PrefixPath(cookie.path, rewriter.pathPrefix));
      }
      if |rewriter.pathRewrites| > 0 {
        var path := HandleRewrites(engine, cookie.path, rewriter.pathRewrites);
        cookie := cookie.(path := path);
      }
      if |rewriter.domainRewrites| > 0 {
        var domain := HandleRewrites(engine, cookie.domain, rewriter.domainRewrites);
        cookie := cookie.(domain := domain);
      }
    }

    /** Replaces the `Set-Cookie` values by the transformed cookies, then
        forwards the status code. Every call does so: there is no record of an
        earlier call. */
    method WriteHeader(status: int)
      modifies writer
      ensures writer.header == CommitHeader(engine, codec, rewriter, old(writer.header))
      ensures writer.commits == old(writer.commits) + [Commit(status, writer.header)]
      ensures writer.body == old(writer.body)
    {
      var cookies := codec.readSetCookies(Values(writer.header, SetCookieHeader));
      writer.header := Del(writer.header, SetCookieHeader);
      ghost var rest := writer.header;
      for i := 0 to |cookies|
        invariant SetCookieHeader !in rest
        invariant writer.header == WithSetCookies(rest, Emitted(engine, codec, rewriter, cookies[..i]))
        invariant writer.commits == old(writer.commits) && writer.body == old(writer.body)
      {
        var cookie := RewriteCookie(cookies[i]);
        assert cookies[..i + 1][..i] == cookies[..i];
        SetCookieAppends(codec, rest, Emitted(engine, codec, rewriter, cookies[..i]), cookie);
        writer.header := SetCookie(codec, writer.header, cookie);
      }
      assert cookies[..|cookies|] == cookies;
      writer.WriteHeader(status);
    }
  }
}
