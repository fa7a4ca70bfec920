/**
 * `main`: which servers start, and whether certbot runs at once or on a
 * timer, for each way the command line and the certificate directory can
 * turn out. The program's environment is a set of inputs: the arguments, the
 * working directory, what `require` loads, the program's own directory, the
 * listing of `live/` (None when it cannot be read) and the result of running
 * certbot.
 */
module Startup {
  import opened Optional
  import opened Routing
  import opened Layout
  import opened Cli
  import opened Certs
  import opened Renewal

  /** `2 ** 31 - 1` milliseconds, the largest period `setInterval` accepts (about 24.8 days). */
  const RenewalPeriodMs: nat := 2147483647

  datatype Listener =
    /** The manual-mode server on port 80 that only answers challenges. */
    | CertbotChallengeServer(port: nat)
    /** The serving-mode server on port 80 that answers challenges and redirects the rest. */
    | RedirectServer(port: nat)
    /** The TLS server on port 443 that forwards by Host, with the certificate files it read. */
    | HttpsProxyServer(port: nat, certPath: string, keyPath: string)

  /** Why the process ended before anything listened. */
  datatype HaltReason =
    | ArgumentError(reason: ExitReason)
    /** `require` threw for this path. */
    | RulesNotLoaded(rulesPath: string)
    /** `fs.readdirSync` threw for the `live/` directory, for instance because it does not exist yet. */
    | CertDirUnreadable(path: string)
    | NoCertificates(message: string)

  datatype StartupOutcome =
    | Halted(reason: HaltReason)
    /**
     * The servers listening, the renewal run at start-up if any, and the
     * renewal timer if one was set.
     */
    | Running(listeners: seq<Listener>, renewalNow: Option<Renewal>, timer: Option<Timer>)

  /** A repeating timer: its period and what each tick does. */
  datatype Timer = Timer(periodMs: nat, tick: TickOutcome)

  /**
   * A command-line or loading failure halts first. In manual mode only the
   * challenge server starts and certbot runs at once, in manual mode. In
   * serving mode an unreadable or empty `live/` halts; otherwise the TLS server on 443
   * with the first certificate set and the redirect server on 80 start, and
   * certbot is left to the timer, whose every tick, as written, crashes.
   */
  function Main(argv: seq<string>, cwd: string, load: string -> Option<Rules>, dirname: string,
                listing: Option<seq<string>>, exec: string -> ExecResult): (r: StartupOutcome)
    ensures var p := ParseCommandLine(argv, cwd, load);
            && (p.Exit? <==> r.Halted? && r.reason.ArgumentError?)
            && (p.Exit? ==> r == Halted(ArgumentError(p.reason)))
            && (p.LoadFailed? <==> r.Halted? && r.reason.RulesNotLoaded?)
            && (p.LoadFailed? ==> r == Halted(RulesNotLoaded(p.rulesPath)))
    ensures var p := ParseCommandLine(argv, cwd, load);
            p.Parsed? && p.config.updateCertsManually ==>
              && r.Running?
              && r.listeners == [CertbotChallengeServer(80)]
              && r.renewalNow.Some?
              && r.renewalNow.value.command == CertbotCommand(dirname, p.config.domains, p.config.email)
              && r.renewalNow.value.outcome == ClassifyRenewal(exec(r.renewalNow.value.command), true)
              && r.timer.None?
    ensures var p := ParseCommandLine(argv, cwd, load);
            p.Parsed? && !p.config.updateCertsManually ==>
              && (r.Halted? <==> listing.None? || |listing.value| == 0)
              && (listing.None? ==> r == Halted(CertDirUnreadable(LiveDir(dirname))))
              && (listing.Some? && |listing.value| == 0 ==>
                    r == Halted(NoCertificates("There are no certs in " + LiveDir(dirname))))
              && (r.Running? ==>
                    && r.listeners == [HttpsProxyServer(443, FullchainPath(dirname, listing.value[0]),
                                                        PrivkeyPath(dirname, listing.value[0])),
                                       RedirectServer(80)]
                    && r.renewalNow.None?
                    && r.timer == Some(Timer(RenewalPeriodMs, ScheduledTickAsWritten(dirname, exec)))
                    && r.timer.value.tick.TickCrashes?)
  {
    match ParseCommandLine(argv, cwd, load)
    case Exit(reason) => Halted(ArgumentError(reason))
    case LoadFailed(path) => Halted(RulesNotLoaded(path))
    case Parsed(config) =>
      if config.updateCertsManually then
        Running([CertbotChallengeServer(80)], Some(UpdateCerts(dirname, config.domains, config.email, true, exec)), None)
      else
        match listing
        case None => Halted(CertDirUnreadable(LiveDir(dirname)))
        case Some(entries) =>
          match SelectCert(dirname, entries)
          case NoCerts(message) => Halted(NoCertificates(message))
          case Selected(_, _, certPath, keyPath) =>
            Running([HttpsProxyServer(443, certPath, keyPath), RedirectServer(80)], None,
                    Some(Timer(RenewalPeriodMs, ScheduledTickAsWritten(dirname, exec))))
  }

  /**
   * Whatever the inputs, port 80 is taken by exactly one server once the
   * program runs, and the TLS server is started only in serving mode.
   */
  lemma OneServerOnPort80(argv: seq<string>, cwd: string, load: string -> Option<Rules>, dirname: string,
                          listing: Option<seq<string>>, exec: string -> ExecResult)
    ensures var r := Main(argv, cwd, load, dirname, listing, exec);
            r.Running? ==>
              && |set i | 0 <= i < |r.listeners| && r.listeners[i].port == 80| == 1
              && (exists i :: 0 <= i < |r.listeners| && r.listeners[i].HttpsProxyServer?) ==
                   r.timer.Some?
  {
    var r := Main(argv, cwd, load, dirname, listing, exec);
    if r.Running? {
      if |r.listeners| == 1 {
        assert (set i | 0 <= i < |r.listeners| && r.listeners[i].port == 80) == {0};
      } else {
        assert r.listeners[1] == RedirectServer(80);
        assert (set i | 0 <= i < |r.listeners| && r.listeners[i].port == 80) == {1};
        assert r.listeners[0].HttpsProxyServer?;
      }
    }
  }

  /** In manual mode the certificate directory is never looked at. */
  lemma ManualModeIgnoresListing(argv: seq<string>, cwd: string, load: string -> Option<Rules>, dirname: string,
                                 listing1: Option<seq<string>>, listing2: Option<seq<string>>, exec: string -> ExecResult)
    requires |argv| > 4 && argv[4] == UpdateCertsFlag
    ensures Main(argv, cwd, load, dirname, listing1, exec) == Main(argv, cwd, load, dirname, listing2, exec)
  {
  }

  /** What the timer's call of `updateCerts` does. */
  datatype TickOutcome =
    /** An exception nothing catches: the process ends. */
    | TickCrashes(error: string)
    | TickRenews(renewal: Renewal)

  /**
   * `updateCerts` as written, for callers that may leave `domains` undefined:
   * its first line calls `domains.join`, which throws on `undefined`.
   */
  function UpdateCertsAsWritten(dirname: string, domains: Option<seq<string>>, email: string, manual: bool,
                                exec: string -> ExecResult): (r: TickOutcome)
    ensures r.TickCrashes? <==> domains.None?
    ensures r.TickCrashes? ==> r.error == "Cannot read properties of undefined (reading 'join')"
    ensures r.TickRenews? ==> r.renewal == UpdateCerts(dirname, domains.value, email, manual, exec)
  {
    match domains
    case None => TickCrashes("Cannot read properties of undefined (reading 'join')")
    case Some(ds) => TickRenews(UpdateCerts(dirname, ds, email, manual, exec))
  }

  /** `setInterval(updateCerts, …)` calls `updateCerts` with no arguments. */
  function ScheduledTickAsWritten(dirname: string, exec: string -> ExecResult): (r: TickOutcome)
    ensures r == TickCrashes("Cannot read properties of undefined (reading 'join')")
  {
    UpdateCertsAsWritten(dirname, None, "undefined", false, exec)
  }

  /**
   * Every tick of the renewal timer as written crashes the process instead of
   * renewing, whatever certbot would have done; the start-up call in manual
   * mode passes its arguments and renews.
   */
  lemma ScheduledTickCrashes(dirname: string, domains: seq<string>, email: string, exec: string -> ExecResult)
    ensures ScheduledTickAsWritten(dirname, exec).TickCrashes?
    ensures UpdateCertsAsWritten(dirname, Some(domains), email, true, exec) ==
              TickRenews(UpdateCerts(dirname, domains, email, true, exec))
  {
  }

  /**
   * The tick as evidently intended: a scheduled renewal for the configured
   * domains and email, whose result, failure included, never ends the
   * process that is serving traffic.
   */
  function ScheduledTick(dirname: string, config: Config, exec: string -> ExecResult): (r: Renewal)
    ensures r.command == CertbotCommand(dirname, config.domains, config.email)
    ensures r.outcome == KeepRunning
  {
    var cmd := CertbotCommand(dirname, config.domains, config.email);
    Renewal(cmd, ClassifyRenewalIntended(exec(cmd), false))
  }
}
