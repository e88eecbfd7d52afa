/**
 The plugin's configuration and its construction (`New`): both rule lists are
 compiled once, domain rules first, and construction fails on the first pattern
 that does not compile.
 */
module Plugin {
  import opened Wrappers
  import opened Rewrites
  import opened Cookies

  /** The `path` section of the configuration. */
  datatype PathConfig = PathConfig(prefix: string, rewrites: seq<RewriteConfig>)

  /** The `domain` section of the configuration. */
  datatype DomainConfig = DomainConfig(rewrites: seq<RewriteConfig>)

  datatype Config = Config(pathConfig: PathConfig, domainConfig: DomainConfig)

  /** The constructed plugin: its name and the compiled settings it hands to
      every response writer. The next handler is not part of this model. */
  datatype ProxyCookiePlugin = ProxyCookiePlugin(name: string, rewriter: CookieRewriter)

  /** `New`: compiles the domain rules, then the path rules, and keeps the path
      prefix as configured. */
  method New(engine: RegexEngine, config: Config, name: string) returns (r: Result<ProxyCookiePlugin, Error>)
    ensures r.Success? <==>
      AllCompile(engine, config.domainConfig.rewrites) && AllCompile(engine, config.pathConfig.rewrites)
    // a bad domain rule is reported even when a path rule is bad too
    ensures !AllCompile(engine, config.domainConfig.rewrites) ==>
      exists k :: FirstInvalidAt(engine, config.domainConfig.rewrites, k)
        && r == Failure(CompileError(config.domainConfig.rewrites[k].regex))
    ensures AllCompile(engine, config.domainConfig.rewrites) && !AllCompile(engine, config.pathConfig.rewrites) ==>
      exists k :: FirstInvalidAt(engine, config.pathConfig.rewrites, k)
        && r == Failure(CompileError(config.pathConfig.rewrites[k].regex))
    ensures r.Success? ==>
      && r.value.name == name
      && r.value.rewriter.pathPrefix == config.pathConfig.prefix
      && CompiledFrom(r.value.rewriter.pathRewrites, config.pathConfig.rewrites)
      && CompiledFrom(r.value.rewriter.domainRewrites, config.domainConfig.rewrites)
  {
    var domainRewrites := ConvertRewrites(engine, config.domainConfig.rewrites);
    if domainRewrites.Failure? {
      return Failure(domainRewrites.error);
    }
    var pathRewrites := ConvertRewrites(engine, config.pathConfig.rewrites);
    if pathRewrites.Failure? {
      return Failure(pathRewrites.error);
    }
    return Success(ProxyCookiePlugin(
      name,
      CookieRewriter(config.pathConfig.prefix, pathRewrites.value, domainRewrites.value)));
  }
}
