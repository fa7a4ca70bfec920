# A verified model of the decision core of a TLS edge proxy with certbot renewal

The modelled program is a single Node script, `index.js`. It terminates TLS on port 443 for a
fixed set of virtual hosts and forwards each request, and each WebSocket upgrade, to the
upstream target configured for its `Host`. On port 80 it answers ACME HTTP-01 challenges
(section 8.3 of RFC 8555) from a webroot and redirects everything else to HTTPS. It runs
certbot to obtain and renew the certificate, either once at start-up in manual mode or on a
timer in serving mode.

Everything the script decides is modelled here as pure functions that return outcome
datatypes. The environment is a set of inputs:

- the argument vector and the working directory;
- what `require` loads from a path (`string -> Option<Rules>`);
- the program's own directory (`__dirname`);
- the listing of the `live/` certificate directory, or None when `fs.readdirSync` throws;
- the size `fs.stat` reports for a path, or None when it fails;
- the result of running the certbot command line.

The modules, one file each:

- `text.dfy` — `Optional` and `Text`. Three of its definitions model string operations the
  script uses: `startsWith` (`StartsWith`), `indexOf` (`IndexOf`, whose contract states the
  first occurrence or -1) and `Array.prototype.join` (`Join`). `EndsWith`, `Split` and
  `SplitEach` are not operations of the script. They are tools for the lemmas that read the
  command line and the paths back.
- `routing.dfy` — `Routing`: the rules object as its ordered list of own properties, host
  lookup, and `Object.keys`. `Http`: the response values the handlers produce.
- `cli.dfy` — `Cli`: `parseCommandLineArguments`.
- `https_edge.dfy` — `HttpsEdge`: the request and `upgrade` handlers of the TLS server,
  including the exact behaviour of the regular expression `/(?:http:\/\/)?(.*)/`.
- `layout.dfy` — `Layout`: the directories beside the script, and lexical resolution of
  `.` and `..` segments. The operating system resolves `..` one component at a time on the
  directories that exist, so `Resolve` agrees with it only when every intermediate directory
  exists and none is a symbolic link.
- `challenge.dfy` — `Challenge`: `handleCertbotRequest`, the redirect server's handler and
  the manual-mode challenge server's handler.
- `certs.dfy` — `Certs`: the certificate selection at the start of `initHttpsProxyServer`.
- `renewal.dfy` — `Renewal`: the certbot command line `updateCerts` builds, and how the
  `exec` callback reads certbot's result.
- `startup.dfy` — `Startup`: `main`. It says which servers start, whether certbot runs at
  once or on a timer, and what the renewal timer's tick does (as written, it crashes).

The behaviour one would expect of such a proxy differs from the code in several places. The
model follows the code throughout:

- One might expect the exit one second after a served challenge in manual mode. In the code,
  only the serving-mode redirect server passes that callback (index.js:124-129). The
  manual-mode server passes none (index.js:146), so it never schedules an exit.
- One might expect a certbot failure to be fatal only in manual mode. The code calls
  `process.exit()` on any `exec` error, in either mode (index.js:52-55). See Findings.
- One might expect manual mode to terminate after every renewal. The code exits only when
  certbot reports "not yet due" (index.js:59-61). After a real renewal the manual-mode server
  keeps running.
- One might expect an upgrade for an unknown host to get a 400. The code calls
  `req.status(400)` on the request, which has no such method, so the handler throws. See
  Findings.
- One might expect the renewal timer to renew. Its call of `updateCerts` passes no arguments,
  so every tick throws (index.js:175). See Findings.

## Model

| member | source | states |
|---|---|---|
| Text.IndexOf | index.js:59 | -1 exactly when the needle does not occur; otherwise the position of its first occurrence |
| Routing.Lookup | index.js:97-98 | a target is found exactly when the host is one of `Object.keys(rules)`, and it is the target of a rule for that host |
| Routing.LookupFindsRule | index.js:97-98 | with one property per host, looking up a rule's own host yields exactly that rule's target |
| Cli.ResolveRulesPath | index.js:12-15 | a path starting with `/` is unchanged; any other, the empty one included, becomes cwd + "/" + path; an absolute cwd gives an absolute result |
| Cli.ResolveIdempotent | index.js:12-15 | with an absolute working directory, resolving a resolved path changes nothing |
| Cli.ParseCommandLine | index.js:7-34 | in source order: fewer than 3 entries is missing-rules-path; a failing `require` comes next; exactly 3 is missing-email; a fifth entry other than `update-certs` is bad-argument and names it; otherwise the config holds the loaded rules, their keys as domains, argv[3] as email, and manual mode exactly when a fifth entry exists |
| Cli.ExtraArgumentsIgnored | index.js:26-32 | entries after the fifth never change the result |
| HttpsEdge.HandleRequest | index.js:96-103 | forwarded exactly when the Host (`undefined` when missing) is a rules key, to that rule's target; otherwise 500 with no headers and body `ERROR: Unknown domain '<host>'`, and nothing forwarded |
| HttpsEdge.RequestForwardedToRule | index.js:97-98 | a request whose Host is a rule's host goes to exactly that rule's target |
| HttpsEdge.TakeLine | index.js:108 | the capture of `(.*)` is the longest prefix without a JavaScript line terminator |
| HttpsEdge.WsTarget | index.js:108 | a single-line target loses a leading `http://` and nothing else; a target without it is kept whole |
| HttpsEdge.WsTargetKeepsHttps | index.js:108 | an `https://` target is passed on unchanged |
| HttpsEdge.HandleUpgradeAsWritten | index.js:106-114 | a known host's upgrade goes to its rule's target without `http://`; an unknown host makes the handler throw `req.status is not a function` |
| HttpsEdge.UpgradeMissThrows | index.js:110-113 | for an unknown host the handler as written throws, where the corrected handler answers 400 with an empty body |
| HttpsEdge.HandleUpgrade | index.js:106-114 | corrected handler: a known host is forwarded to its rule's scheme-stripped target; an unknown host gets 400 with an empty body and is never forwarded |
| HttpsEdge.SameRuleForBoth | index.js:96-114 | a request is forwarded exactly when an upgrade for the same host is, and the upgrade goes to the request's target without `http://`; the handler as written agrees on every forwarded upgrade |
| Challenge.ServeChallengeAsWritten | index.js:150-170 | the file is webroot + url; a failed stat gives 500 with an empty body and no callback; otherwise 200, `Content-Type: text/plain`, `Content-Length` equal to the file size, the file streamed, and the callback runs |
| Challenge.ServeChallenge | index.js:150-170 | corrected serving: the same reply for every URL without a `..` segment, a missing-file reply for any URL with one, and whenever a file is sent, its resolved path lies inside the resolved webroot |
| Challenge.StaysInWebroot | index.js:152 | a URL that starts with `/` and has no `..` segment names a path inside the webroot |
| Challenge.ClimbingUrlLeavesWebroot | index.js:152 | the challenge prefix followed by `/../../../` passes the prefix test, yet resolves to the script's own directory plus the rest of the URL |
| Challenge.PrivateKeyReachable | index.js:143-152 | a challenge URL exists whose file, as written, resolves to a certificate's `privkey.pem` and is sent with 200; corrected serving refuses it |
| Challenge.HandleRedirectServer | index.js:121-138 | a URL with the challenge prefix is never redirected; it is served as `handleCertbotRequest` serves it, and an exit is scheduled 1000 ms later exactly when the file is found; any other URL gets 301 with `Location` https:// + host + url, `Cache-Control: max-age=3600` and an empty body |
| Challenge.HandleRedirectServerConfined | index.js:121-138 | corrected redirect server: the same outcome for every request except a challenge URL with a `..` segment, which gets the missing-file reply and schedules no exit |
| Challenge.HandleCertbotServer | index.js:140-148 | a URL without the challenge prefix throws `Unexpected request '<url>'.`; a challenge is served as `handleCertbotRequest` serves it, and no exit is ever scheduled |
| Challenge.HandleCertbotServerConfined | index.js:140-148 | corrected manual-mode server: the same outcome except for a challenge URL with a `..` segment, which gets the missing-file reply |
| Challenge.PrivateKeyOverPort80 | index.js:121-130 | the serving-mode port-80 server answers the key URL with 200 and the key file and then schedules its exit; the corrected server answers it as a missing file and keeps running |
| Challenge.RedirectLocationRoundTrip | index.js:132-135 | the host and URL are read back unchanged from the `Location` of the redirect |
| Certs.SelectCert | index.js:80-95 | an empty listing is fatal, with `There are no certs in <live dir>`; otherwise the first entry is used, a warning naming it is issued exactly when there are several, and the chain and key are that entry's `fullchain.pem` and `privkey.pem` |
| Certs.CertAndKeyShareDirectory | index.js:91-95 | the chain and the key are read from the same entry directory and differ only in file name |
| Certs.OnlyFirstEntryMatters | index.js:87-90 | entries after the first change nothing but whether a warning is issued |
| Renewal.FlagWords | index.js:43 | the flag words are `-d` followed by a domain, once per domain, in list order |
| Renewal.DomainFlagWords | index.js:43 | the domain flags split at spaces are exactly those words, for domains without spaces; with no domains they are one empty word |
| Renewal.OpeningJoined | index.js:39-42 | the command's fixed opening is `certbot certonly --force-renewal --webroot -w` and the quoted webroot, each word separated by one space |
| Renewal.CertbotCommand | index.js:39-49 | whatever the domains and the email, the command line begins with that fixed opening and a space, so nothing from the rules or the email comes before `-w` and the webroot |
| Renewal.CommandWords | index.js:39-49 | the command string's space-separated pieces (quotes kept) are certbot in forced webroot mode with `-w` and the quoted webroot, then the domain flags in order, then the three quoted certbot directories, the two non-interactive flags, `--email` and the email; with no domains, one empty word stands where the flags would be |
| Renewal.CommandUsesChallengeWebroot | index.js:42 | whatever the inputs, `-w "<webroot>"` occurs in the command, and the path string of every challenge file begins with that same webroot string |
| Renewal.CommandEndsWithEmail | index.js:49 | whatever the inputs, the command ends with ` --email ` and the email |
| Renewal.ClassifyRenewal | index.js:51-62 | exit exactly on an exec error, or in manual mode when stdout contains the not-yet-due marker; in scheduled mode, exit exactly on an exec error |
| Renewal.NotDueAnywhereInOutput | index.js:59-61 | the marker is recognised wherever it appears in stdout: manual mode exits, scheduled mode keeps running |
| Renewal.ScheduledFailureExits | index.js:52-55 | a failed renewal in scheduled mode ends the process as written, and keeps it running under the corrected classification |
| Renewal.ClassifyRenewalIntended | index.js:51-62 | corrected classification: manual mode decides as the source does; in scheduled mode no certbot result ends the process |
| Renewal.UpdateCerts | index.js:37-63 | the command run depends only on the directory, the domains and the email; the outcome is exit exactly when certbot fails, or says "not yet due" in manual mode |
| Startup.Main | index.js:178-189 | an argument or loading failure halts with its reason before anything listens; manual mode starts only the challenge server on 80 and runs certbot at once; serving mode halts when `live/` cannot be read or is empty, and otherwise starts the TLS server on 443 with the first certificate set and the redirect server on 80, and sets a 2^31 - 1 ms timer whose every tick crashes |
| Startup.OneServerOnPort80 | index.js:178-189 | once running, exactly one server listens on port 80, and the TLS server runs exactly when the renewal timer is set |
| Startup.ManualModeIgnoresListing | index.js:181-184 | in manual mode the certificate directory is never consulted |
| Startup.UpdateCertsAsWritten | index.js:37-38 | `updateCerts` throws on `domains.join` exactly when `domains` is undefined; otherwise it renews as `UpdateCerts` does |
| Startup.ScheduledTickAsWritten | index.js:173-176 | the timer calls `updateCerts` with no arguments, so every tick crashes with the `TypeError` from `domains.join` |
| Startup.ScheduledTickCrashes | index.js:173-176 | the timer's call passes no arguments, so every tick crashes; the start-up call in manual mode renews |
| Startup.ScheduledTick | index.js:173-176 | corrected tick: certbot runs for the configured domains and email, and no result of it ends the process |

## Left out

- Networking, TLS and forwarding are not modelled. That covers `listen`, `https.createServer`
  and the `http-proxy` library's `web` and `ws`. A handler's outcome says what would be
  forwarded where, or what response is written.
- The proxy's `error` handler (index.js:65-77) is not modelled. It depends on whether the
  response is a `ServerResponse` or a raw socket.
- Console logging, the start-up log lines and exit codes are not modelled. `process.exit()`
  is always called without a code.
- Timers are not modelled. The one-second delayed exit is an `exitAfterMs` value. The
  renewal timer is its period plus one tick's outcome.
- Failures of `fs.readFileSync` for the chain or the key are not modelled. They throw at
  start-up; `Startup.Main` assumes both reads succeed.
- Stream failures after the 200 headers are sent are not modelled, for example a path that
  is a directory. `fs.stat` succeeds there and the reply is modelled as 200 with the file
  streamed. In the program the read stream then emits `error`; `pipe` adds no error listener
  to the source stream, so the error is uncaught and the process ends.
- `stdout` and `stderr` are ignored after an `exec` error, as the callback ignores them.
- Routing.Lookup: finds only the rules object's own properties. JavaScript's `in` also finds
  inherited ones such as `constructor`. Rule values are taken to be strings.
- Routing.LookupFindsRule: assumes one property per host. A JavaScript object always
  satisfies this.
- Renewal.CommandWords: the words are the pieces of the command string split at spaces, with
  the `"` characters kept. They are not the argument list certbot receives. `exec` hands the
  string to `/bin/sh`, which removes the quotes, expands `$` and backquotes, and splits at `;`
  and `&&`. A domain, an email or a directory name holding shell metacharacters therefore
  changes what certbot receives, or what else runs. The shell is not modelled.
- Renewal.CommandWords: stated only when the directory name, the domains and the email
  contain no space. The empty domain list is covered by its own clause. The unconditional facts are `CommandUsesChallengeWebroot` and
  `CommandEndsWithEmail`.
- Challenge.ServeChallenge: requires a URL under the challenge prefix. Both callers test the
  prefix first.
- Challenge.PrivateKeyReachable: works on the path lexically. That `fs.stat` finds the file
  is an input; it needs the intermediate challenge directories to exist.

## Findings

| source | as written | input that shows it | evidently intended | confidence | as-written member | corrected member |
|---|---|---|---|---|---|---|
| index.js:150-153 | the request URL is appended to the webroot with no normalisation, after only a prefix test | `GET /.well-known/acme-challenge/../../../certbot-config-dir/live/<entry>/privkey.pem` on port 80 | serve only files inside the webroot | medium, not executed: needs the challenge directories to exist and a client that sends `..` unnormalised | Challenge.ServeChallengeAsWritten, Challenge.PrivateKeyReachable | Challenge.ServeChallenge |
| index.js:112 | `req.status(400).end()` is called on the incoming request, which has no `status` method | any WebSocket upgrade whose Host has no rule | answer 400 and close | high, not executed | HttpsEdge.HandleUpgradeAsWritten, HttpsEdge.UpgradeMissThrows | HttpsEdge.HandleUpgrade |
| index.js:173-176 | `setInterval(updateCerts, maxTimeout)` calls `updateCerts` with no arguments, so `domains.join` throws | the first tick of the renewal timer, 2^31 - 1 ms after start in serving mode | a scheduled renewal for the configured domains and email | high, not executed | Startup.ScheduledTickAsWritten, Startup.ScheduledTickCrashes | Startup.ScheduledTick |
| index.js:52-55 | the `exec` callback calls `process.exit()` on any certbot failure, whatever the mode | a failed certbot run on the renewal timer in serving mode (reachable once the timer's arguments are passed) | a failed scheduled renewal is reported and the proxy keeps serving | low, not executed: the code exits deliberately, and only the manual mode evidently wants that | Renewal.ClassifyRenewal, Renewal.ScheduledFailureExits | Renewal.ClassifyRenewalIntended |

The exceptions in the second and third rows are thrown from event callbacks and are not
caught. In Node such an exception ends the process, so the proxy stops serving.
