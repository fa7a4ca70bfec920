/**
 * `updateCerts`: the certbot command line it builds, and how it reads the
 * result of running it. Running the command (`exec`) is outside the model;
 * its result is an input.
 */
module Renewal {
  import opened Text
  import opened Layout
  import opened Challenge

  /** The line certbot prints when it had nothing to renew. */
  const NotDueMarker := "Certificate not yet due for renewal; no action taken."

  /** A value in double quotes, as the command line writes the directories. */
  function Quoted(s: string): string { "\"" + s + "\"" }

  /** `domains.map(domain => `-d ${domain}`)` */
  function DomainArgs(domains: seq<string>): seq<string> {
    if |domains| == 0 then [] else ["-d " + domains[0]] + DomainArgs(domains[1..])
  }

  /** The domain flags as they appear in the command, joined by single spaces. */
  function DomainFlags(domains: seq<string>): string {
    Join(DomainArgs(domains), " ")
  }

  /**
   * The words the domain flags consist of: each domain, in list order,
   * preceded by its own `-d`, and nothing else.
   */
  function FlagWords(domains: seq<string>): (r: seq<string>)
    ensures |r| == 2 * |domains|
    ensures forall i :: 0 <= i < |domains| ==> r[2 * i] == "-d" && r[2 * i + 1] == domains[i]
  {
    if |domains| == 0 then []
    else
      var rest := FlagWords(domains[1..]);
      var r := ["-d", domains[0]] + rest;
      assert forall i :: 1 <= i < |domains| ==> r[2 * i] == "-d" && r[2 * i + 1] == domains[i] by {
        forall i | 1 <= i < |domains|
          ensures r[2 * i] == "-d" && r[2 * i + 1] == domains[i]
        {
          var k := i - 1;
          assert r[2 * i] == rest[2 * k] && r[2 * i + 1] == rest[2 * k + 1];
          assert domains[1..][k] == domains[i];
        }
      }
      r
  }

  /** The words before the domain flags: certbot in webroot mode, with the challenge directory. */
  function Opening(dirname: string): seq<string> {
    ["certbot", "certonly", "--force-renewal", "--webroot", "-w", Quoted(Webroot(dirname))]
  }

  /** The words between the domain flags and the email. */
  function Options(dirname: string): seq<string> {
    [ "--config-dir", Quoted(ConfigDir(dirname)),
      "--work-dir", Quoted(WorkDir(dirname)),
      "--logs-dir", Quoted(LogsDir(dirname)),
      "--noninteractive", "--agree-tos" ]
  }

  /**
   * The parts of the template literal, which its line continuations join with
   * single spaces.
   */
  function CommandParts(dirname: string, domains: seq<string>, email: string): seq<string> {
    Opening(dirname) + [DomainFlags(domains)] + Options(dirname) + ["--email", email]
  }

  /**
   * The opening words, joined by single spaces: the fixed start of every
   * command line, `certbot certonly --force-renewal --webroot -w "<webroot>"`.
   */
  lemma OpeningJoined(dirname: string)
    ensures Join(Opening(dirname), " ") ==
              "certbot" + " " + ("certonly" + " " + ("--force-renewal" + " " + ("--webroot" + " " + ("-w" + " " + Quoted(Webroot(dirname))))))
  {
    var q := Quoted(Webroot(dirname));
    assert Join(["-w", q], " ") == "-w" + " " + q by { JoinConcat(["-w"], [q], " "); }
    JoinConcat(["--webroot"], ["-w", q], " ");
    JoinConcat(["--force-renewal"], ["--webroot", "-w", q], " ");
    JoinConcat(["certonly"], ["--force-renewal", "--webroot", "-w", q], " ");
    JoinConcat(["certbot"], ["certonly", "--force-renewal", "--webroot", "-w", q], " ");
  }

  /**
   * The command line `updateCerts` hands to the shell. Whatever the inputs, it
   * opens with the opening words and a space (certbot in forced webroot mode
   * and `-w` with the quoted challenge directory, see `OpeningJoined`), before
   * anything taken from the rules or the email.
   */
  function CertbotCommand(dirname: string, domains: seq<string>, email: string): (r: string)
    ensures StartsWith(r, Join(Opening(dirname), " ") + " ")
  {
    var parts := CommandParts(dirname, domains, email);
    var rest := [DomainFlags(domains)] + Options(dirname) + ["--email", email];
    assert parts == Opening(dirname) + rest;
    JoinConcat(Opening(dirname), rest, " ");
    Join(parts, " ")
  }

  /** Splitting `-d <domain>` for each domain at spaces gives `-d` and the domain, in order. */
  lemma {:induction false} DomainArgsWords(domains: seq<string>)
    requires forall i :: 0 <= i < |domains| ==> ' ' !in domains[i]
    ensures SplitEach(DomainArgs(domains), ' ') == FlagWords(domains)
  {
    if |domains| > 0 {
      var args := DomainArgs(domains);
      assert args[0] == "-d" + [' '] + domains[0];
      SplitConcat("-d", domains[0], ' ');
      SplitWithoutSeparator("-d", ' ');
      SplitWithoutSeparator(domains[0], ' ');
      DomainArgsWords(domains[1..]);
    }
  }

  /**
   * The domain flags, split at spaces, are `-d` and a domain for each domain
   * in turn; with no domains they are the empty string, a single empty word.
   */
  lemma DomainFlagWords(domains: seq<string>)
    requires forall i :: 0 <= i < |domains| ==> ' ' !in domains[i]
    ensures |domains| > 0 ==> Split(DomainFlags(domains), ' ') == FlagWords(domains)
    ensures |domains| == 0 ==> Split(DomainFlags(domains), ' ') == [""]
  {
    if |domains| > 0 {
      SplitJoin(DomainArgs(domains), ' ');
      DomainArgsWords(domains);
    }
  }

  /**
   * When no directory name, domain or email holds a space, the command's
   * words are the opening with the webroot, a `-d` flag per domain in list
   * order, the certbot directories, and the email as the very last word.
   * With no domains, two spaces meet where the flags would be, which splits
   * as one empty word.
   */
  lemma CommandWords(dirname: string, domains: seq<string>, email: string)
    requires ' ' !in dirname && ' ' !in email
    requires forall i :: 0 <= i < |domains| ==> ' ' !in domains[i]
    ensures |domains| > 0 ==>
              Split(CertbotCommand(dirname, domains, email), ' ') ==
                Opening(dirname) + FlagWords(domains) + (Options(dirname) + ["--email", email])
    ensures |domains| == 0 ==>
              Split(CertbotCommand(dirname, domains, email), ' ') ==
                Opening(dirname) + [""] + (Options(dirname) + ["--email", email])
  {
    CommandJoinsParts(dirname, domains, email);
    OpeningWords(dirname);
    ClosingWords(dirname, email);
    SplitAround(Opening(dirname), DomainFlags(domains), Options(dirname) + ["--email", email], ' ');
    DomainFlagWords(domains);
  }

  /** The command is its three groups of parts joined with single spaces. */
  lemma CommandJoinsParts(dirname: string, domains: seq<string>, email: string)
    ensures CertbotCommand(dirname, domains, email) ==
              Join(Opening(dirname) + [DomainFlags(domains)] + (Options(dirname) + ["--email", email]), [' '])
  {
    assert CommandParts(dirname, domains, email) ==
             Opening(dirname) + [DomainFlags(domains)] + (Options(dirname) + ["--email", email]);
  }

  /** Splitting a join whose parts around `middle` are single words splits `middle` alone. */
  lemma SplitAround(before: seq<string>, middle: string, after: seq<string>, c: char)
    requires SplitEach(before, c) == before && SplitEach(after, c) == after
    ensures Split(Join(before + [middle] + after, [c]), c) == before + Split(middle, c) + after
  {
    var parts := before + [middle] + after;
    SplitJoin(parts, c);
    assert Split(Join(parts, [c]), c) == SplitEach(parts, c);
    SplitEachConcat(before + [middle], after, c);
    assert SplitEach(parts, c) == SplitEach(before + [middle], c) + after;
    SplitEachConcat(before, [middle], c);
    assert SplitEach([middle], c) == Split(middle, c);
    assert SplitEach(before + [middle], c) == before + Split(middle, c);
  }

  /** No word of the opening holds a space when the directory name does not. */
  lemma OpeningWords(dirname: string)
    requires ' ' !in dirname
    ensures SplitEach(Opening(dirname), ' ') == Opening(dirname)
  {
    assert ' ' !in Quoted(Webroot(dirname));
    SplitEachWords(Opening(dirname), ' ');
  }

  /** No word after the domain flags holds a space when the directory name and the email do not. */
  lemma ClosingWords(dirname: string, email: string)
    requires ' ' !in dirname && ' ' !in email
    ensures SplitEach(Options(dirname) + ["--email", email], ' ') == Options(dirname) + ["--email", email]
  {
    assert ' ' !in Quoted(ConfigDir(dirname));
    assert ' ' !in Quoted(WorkDir(dirname));
    assert ' ' !in Quoted(LogsDir(dirname));
    SplitEachWords(Options(dirname) + ["--email", email], ' ');
  }

  /**
   * The command hands certbot the challenge server's directory: `-w` followed
   * by the quoted webroot occurs in it, whatever the inputs, and the path
   * string of every challenge file begins with that same directory name.
   */
  lemma CommandUsesChallengeWebroot(dirname: string, domains: seq<string>, email: string, url: string)
    ensures IndexOf(CertbotCommand(dirname, domains, email), "-w " + Quoted(Webroot(dirname))) != -1
    ensures StartsWith(ChallengeFilePath(dirname, url), Webroot(dirname))
  {
    var first := ["certbot", "certonly", "--force-renewal", "--webroot"];
    var pair := ["-w", Quoted(Webroot(dirname))];
    var rest := [DomainFlags(domains)] + Options(dirname) + ["--email", email];
    assert CommandParts(dirname, domains, email) == first + (pair + rest);
    JoinConcat(first, pair + rest, " ");
    JoinConcat(pair, rest, " ");
    var needle := "-w " + Quoted(Webroot(dirname));
    assert Join(pair, " ") == needle;
    assert CertbotCommand(dirname, domains, email) == (Join(first, " ") + " ") + needle + (" " + Join(rest, " "));
    IndexOfPlaced(Join(first, " ") + " ", needle, " " + Join(rest, " "));
    var p := ChallengeFilePath(dirname, url);
    assert p[..|Webroot(dirname)|] == Webroot(dirname);
  }

  /** The email is appended last, after `--email`, whatever it holds. */
  lemma CommandEndsWithEmail(dirname: string, domains: seq<string>, email: string)
    ensures EndsWith(CertbotCommand(dirname, domains, email), " --email " + email)
  {
    var before := Opening(dirname) + [DomainFlags(domains)] + Options(dirname);
    assert CommandParts(dirname, domains, email) == (before + ["--email"]) + [email];
    JoinConcat(before + ["--email"], [email], " ");
    JoinConcat(before, ["--email"], " ");
    var cmd := CertbotCommand(dirname, domains, email);
    assert cmd == Join(before, " ") + (" --email " + email);
  }

  /** What `exec` hands its callback. */
  datatype ExecResult =
    /** `err` is set: certbot could not be run or exited with a failure. */
    | ExecFailed(error: string)
    | ExecDone(stdout: string, stderr: string)

  /** Whether the callback calls `process.exit()`. */
  datatype RenewalOutcome = ExitProcess | KeepRunning

  /**
   * A failed run exits in either mode. A successful run exits only in manual
   * mode, and only when certbot's output says nothing was due; scheduled
   * renewals therefore exit on failure alone.
   */
  function ClassifyRenewal(result: ExecResult, manual: bool): (r: RenewalOutcome)
    ensures r == ExitProcess <==> result.ExecFailed? || (manual && Occurs(result.stdout, NotDueMarker))
    ensures !manual ==> (r == ExitProcess <==> result.ExecFailed?)
  {
    if result.ExecFailed? then ExitProcess
    else if IndexOf(result.stdout, NotDueMarker) != -1 && manual then ExitProcess
    else KeepRunning
  }

  /**
   * The marker is found wherever certbot prints it: in manual mode the run
   * then exits, in scheduled mode it keeps running.
   */
  lemma NotDueAnywhereInOutput(before: string, after: string, stderr: string)
    ensures ClassifyRenewal(ExecDone(before + NotDueMarker + after, stderr), true) == ExitProcess
    ensures ClassifyRenewal(ExecDone(before + NotDueMarker + after, stderr), false) == KeepRunning
  {
    IndexOfPlaced(before, NotDueMarker, after);
  }

  /**
   * A failed renewal on the timer as written: the callback exits, and the
   * proxy stops serving along with it. The classification that absorbs it
   * keeps the process running.
   */
  lemma ScheduledFailureExits(error: string)
    ensures ClassifyRenewal(ExecFailed(error), false) == ExitProcess
    ensures ClassifyRenewalIntended(ExecFailed(error), false) == KeepRunning
  {
  }

  /**
   * The classification with a failed scheduled renewal absorbed: manual mode
   * decides exactly as the source does, and in scheduled mode no result of
   * certbot ends the process.
   */
  function ClassifyRenewalIntended(result: ExecResult, manual: bool): (r: RenewalOutcome)
    ensures manual ==> r == ClassifyRenewal(result, true)
    ensures r == ExitProcess <==> manual && (result.ExecFailed? || Occurs(result.stdout, NotDueMarker))
  {
    if manual then ClassifyRenewal(result, true) else KeepRunning
  }

  /** One call of `updateCerts`: the command it runs and what its callback does. */
  datatype Renewal = Renewal(command: string, outcome: RenewalOutcome)

  /**
   * The command is built from the directory, the domains and the email alone;
   * the run exits when certbot fails, or, in manual mode, when certbot says
   * the certificate was not due.
   */
  function UpdateCerts(dirname: string, domains: seq<string>, email: string, manual: bool, exec: string -> ExecResult): (r: Renewal)
    ensures r.command == CertbotCommand(dirname, domains, email)
    ensures r.outcome == ExitProcess <==>
              exec(r.command).ExecFailed? || (manual && Occurs(exec(r.command).stdout, NotDueMarker))
  {
    var cmd := CertbotCommand(dirname, domains, email);
    Renewal(cmd, ClassifyRenewal(exec(cmd), manual))
  }
}
