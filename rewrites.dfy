/**
 Regular-expression rewrite rules of the proxy-cookie middleware: the configured
 rule (`Rewrite`), the compiled rule (`rewrite`), the compilation of a rule list
 (`convertRewrites`) and the application of a rule chain to one value
 (`handleRewrites`).

 The regular-expression engine itself (Go's regexp package) is not modelled: it
 is a parameter that says which patterns compile and what ReplaceAllString
 returns.
 */
module Rewrites {
  import opened Wrappers

  /** What the middleware uses of the regexp package: whether a pattern text
      compiles, and `ReplaceAllString` of a compiled pattern (given by its text)
      over an input with a replacement template. */
  datatype RegexEngine = RegexEngine(
    compiles: string -> bool,
    replaceAll: (string, string, string) -> string)  // (pattern, input, template)

  /** A rule as configured: a pattern text and a replacement template. */
  datatype RewriteConfig = RewriteConfig(regex: string, replacement: string)

  /** A compiled pattern. Compilation is deterministic, so a compiled pattern is
      determined by the text it was compiled from. */
  datatype Regexp = Regexp(expr: string)

  /** A compiled rule. */
  datatype Rewrite = Rewrite(regex: Regexp, replacement: string)

  /** The error `convertRewrites` returns: it names the pattern that failed. */
  datatype Error = CompileError(pattern: string)

  /** The compiled rule for a configured rule whose pattern compiles. */
  function Compile(config: RewriteConfig): Rewrite {
    Rewrite(Regexp(config.regex), config.replacement)
  }

  /** One rule applied to a value: every match of its pattern replaced. */
  function ReplaceAll(engine: RegexEngine, rule: Rewrite, value: string): string {
    engine.replaceAll(rule.regex.expr, value, rule.replacement)
  }

  /** A rule chain applied to a value: the first rule to the value, each later
      rule to the output of the one before it. */
  function ApplyRewrites(engine: RegexEngine, rules: seq<Rewrite>, value: string): string
    decreases |rules|
  {
    if rules == [] then value
    else ApplyRewrites(engine, rules[1..], ReplaceAll(engine, rules[0], value))
  }

  /** The empty chain leaves a value alone, and a rule added at the end of a
      chain is applied to what the chain before it produced. */
  lemma {:induction false} ApplyRewritesSnoc(engine: RegexEngine, rules: seq<Rewrite>, rule: Rewrite, value: string)
    ensures ApplyRewrites(engine, [], value) == value
    ensures ApplyRewrites(engine, rules + [rule], value)
         == ReplaceAll(engine, rule, ApplyRewrites(engine, rules, value))
    decreases |rules|
  {
    if rules != [] {
      assert (rules + [rule])[1..] == rules[1..] + [rule];
      ApplyRewritesSnoc(engine, rules[1..], rule, ReplaceAll(engine, rules[0], value));
    }
  }

  /** Two chains run one after the other are the chain made of both. */
  lemma {:induction false} ApplyRewritesAppend(engine: RegexEngine, first: seq<Rewrite>, second: seq<Rewrite>, value: string)
    ensures ApplyRewrites(engine, first + second, value)
         == ApplyRewrites(engine, second, ApplyRewrites(engine, first, value))
    decreases |first|
  {
    if first == [] {
      assert first + second == second;
    } else {
      assert (first + second)[1..] == first[1..] + second;
      ApplyRewritesAppend(engine, first[1..], second, ReplaceAll(engine, first[0], value));
    }
  }

  /** `handleRewrites`: runs the chain over the value, rule by rule. */
  method HandleRewrites(engine: RegexEngine, value: string, rewrites: seq<Rewrite>) returns (r: string)
    ensures r == ApplyRewrites(engine, rewrites, value)
  {
    r := value;
    for i := 0 to |rewrites|
      invariant r == ApplyRewrites(engine, rewrites[..i], value)
    {
      ApplyRewritesSnoc(engine, rewrites[..i], rewrites[i], value);
      assert rewrites[..i + 1] == rewrites[..i] + [rewrites[i]];
      r := ReplaceAll(engine, rewrites[i], r);
    }
    assert rewrites[..|rewrites|] == rewrites;
  }

  /** Every pattern of a rule list compiles. */
  ghost predicate AllCompile(engine: RegexEngine, configs: seq<RewriteConfig>) {
    forall k :: 0 <= k < |configs| ==> engine.compiles(configs[k].regex)
  }

  /** Rule `k` is the first one whose pattern does not compile. */
  ghost predicate FirstInvalidAt(engine: RegexEngine, configs: seq<RewriteConfig>, k: int) {
    && 0 <= k < |configs|
    && !engine.compiles(configs[k].regex)
    && forall j :: 0 <= j < k ==> engine.compiles(configs[j].regex)
  }

  /** `rewrites` is `configs` compiled entry by entry, in the same order. */
  ghost predicate CompiledFrom(rewrites: seq<Rewrite>, configs: seq<RewriteConfig>) {
    && |rewrites| == |configs|
    && forall i :: 0 <= i < |configs| ==> rewrites[i] == Compile(configs[i])
  }

  /** There is at most one first failing rule, so the error is determined. */
  lemma FirstInvalidUnique(engine: RegexEngine, configs: seq<RewriteConfig>, k1: int, k2: int)
    requires FirstInvalidAt(engine, configs, k1) && FirstInvalidAt(engine, configs, k2)
    ensures k1 == k2
  {
  }

  /** `convertRewrites`: compiles a rule list into a list of the same length,
      or stops at the first pattern that does not compile and reports it. */
  method ConvertRewrites(engine: RegexEngine, configs: seq<RewriteConfig>) returns (r: Result<seq<Rewrite>, Error>)
    ensures r.Success? <==> AllCompile(engine, configs)
    ensures r.Success? ==> CompiledFrom(r.value, configs)
    ensures r.Failure? ==>
      exists k :: FirstInvalidAt(engine, configs, k) && r.error == CompileError(configs[k].regex)
  {
    var rewrites := new Rewrite[|configs|];
    for i := 0 to |configs|
      invariant forall j :: 0 <= j < i ==> engine.compiles(configs[j].regex)
      invariant forall j :: 0 <= j < i ==> rewrites[j] == Compile(configs[j])
    {
      if !engine.compiles(configs[i].regex) {
        assert FirstInvalidAt(engine, configs, i);
        return Failure(CompileError(configs[i].regex));
      }
      rewrites[i] := Compile(configs[i]);
    }
    return Success(rewrites[..]);
  }
}
