/**
 * `parseCommandLineArguments`: `node index.js <rules-path> <email> [update-certs]`.
 * `argv` is `process.argv` (its first two entries are the node binary and the
 * script), `cwd` is `process.cwd()`, and `load` stands for `require`: it gives
 * the rules object exported at a path, or None when `require` throws.
 */
module Cli {
  import opened Optional
  import opened Text
  import opened Routing

  /** Why the parser called `process.exit()`. */
  datatype ExitReason = MissingRulesPath | MissingEmail | BadArgument(arg: string)

  datatype Config = Config(rules: Rules, domains: seq<string>, email: string, updateCertsManually: bool)

  datatype ParseResult =
    | Parsed(config: Config)
    | Exit(reason: ExitReason)
    /** `require(rulesPath)` threw; nothing catches it. */
    | LoadFailed(rulesPath: string)

  const UpdateCertsFlag := "update-certs"

  predicate IsAbsolute(path: string) {
    |path| > 0 && path[0] == '/'
  }

  /**
   * An absolute rules path is kept; any other (the empty one included, since
   * `""[0]` is undefined) is taken relative to the working directory.
   */
  function ResolveRulesPath(path: string, cwd: string): (r: string)
    ensures IsAbsolute(path) ==> r == path
    ensures !IsAbsolute(path) ==> r == cwd + "/" + path
    ensures IsAbsolute(cwd) ==> IsAbsolute(r)
  {
    if !IsAbsolute(path) then cwd + "/" + path else path
  }

  /** With an absolute working directory, resolving twice is resolving once. */
  lemma ResolveIdempotent(path: string, cwd: string)
    requires IsAbsolute(cwd)
    ensures ResolveRulesPath(ResolveRulesPath(path, cwd), cwd) == ResolveRulesPath(path, cwd)
  {
  }

  /**
   * The checks run in the source's order: the rules path, then loading the
   * rules, then the email, then the optional fifth entry.
   */
  function ParseCommandLine(argv: seq<string>, cwd: string, load: string -> Option<Rules>): (r: ParseResult)
    ensures r == Exit(MissingRulesPath) <==> |argv| < 3
    ensures r.LoadFailed? <==> |argv| >= 3 && load(ResolveRulesPath(argv[2], cwd)).None?
    ensures r.LoadFailed? ==> r.rulesPath == ResolveRulesPath(argv[2], cwd)
    ensures r == Exit(MissingEmail) <==> |argv| == 3 && load(ResolveRulesPath(argv[2], cwd)).Some?
    ensures r.Exit? && r.reason.BadArgument? <==>
              |argv| > 4 && load(ResolveRulesPath(argv[2], cwd)).Some? && argv[4] != UpdateCertsFlag
    ensures r.Exit? && r.reason.BadArgument? ==> r.reason.arg == argv[4]
    ensures r.Parsed? <==>
              |argv| >= 4 && load(ResolveRulesPath(argv[2], cwd)).Some? && (|argv| == 4 || argv[4] == UpdateCertsFlag)
    ensures r.Parsed? ==>
              && Some(r.config.rules) == load(ResolveRulesPath(argv[2], cwd))
              && r.config.domains == Domains(r.config.rules)
              && r.config.email == argv[3]
              && r.config.updateCertsManually == (|argv| > 4)
  {
    if |argv| < 3 then Exit(MissingRulesPath)
    else
      var rulesPath := ResolveRulesPath(argv[2], cwd);
      match load(rulesPath)
      case None => LoadFailed(rulesPath)
      case Some(rules) =>
        if |argv| < 4 then Exit(MissingEmail)
        else if |argv| > 4 && argv[4] != UpdateCertsFlag then Exit(BadArgument(argv[4]))
        else Parsed(Config(rules, Domains(rules), argv[3], |argv| > 4))
  }

  /** Entries after the fifth are never looked at. */
  lemma ExtraArgumentsIgnored(argv: seq<string>, extra: seq<string>, cwd: string, load: string -> Option<Rules>)
    requires |argv| >= 5
    ensures ParseCommandLine(argv + extra, cwd, load) == ParseCommandLine(argv, cwd, load)
  {
  }
}
