/**
 * Port 80. `handleCertbotRequest` serves an ACME HTTP-01 challenge file
 * (section 8.3 of RFC 8555) from the webroot certbot writes to; the serving
 * mode's redirect server (`initHttpRedirectServer`) sends everything else to
 * HTTPS; the manual mode's server (`initCertbotHttpServer`) refuses anything
 * else by throwing. `stat` stands for `fs.stat`: the size of the file at a
 * path, or None when the call fails.
 */
module Challenge {
  import opened Optional
  import opened Text
  import opened Routing
  import opened Http
  import opened Layout

  const WellKnownDir := ".well-known"
  const ChallengeDir := "acme-challenge"

  /** `/.well-known/acme-challenge`, the path under which ACME challenge files are requested. */
  const ChallengePrefix := "/" + WellKnownDir + "/" + ChallengeDir

  /** How long the redirect server's completion callback waits before `process.exit()`. */
  const ExitDelayMs: nat := 1000

  /** The file a challenge URL names: the URL appended to the webroot, with no normalisation. */
  function ChallengeFilePath(dirname: string, url: string): string {
    Webroot(dirname) + url
  }

  /** What one challenge request produces: the response, and whether the completion callback runs. */
  datatype ChallengeReply = ChallengeReply(response: Response, callbackRuns: bool)

  /** The response when `fs.stat` fails: status 500 and an empty body. */
  const MissingFileResponse := Response(500, [], Literal(""))

  function FoundFileResponse(path: string, size: nat): Response {
    Response(200, [("Content-Type", Text("text/plain")), ("Content-Length", Number(size))], StreamedFile(path))
  }

  /**
   * `handleCertbotRequest` as written: a file that `stat` finds is sent with
   * 200, `text/plain` and its size as `Content-Length`, and the callback runs
   * once it is sent; otherwise 500 with an empty body and no callback.
   */
  function ServeChallengeAsWritten(dirname: string, url: string, stat: string -> Option<nat>): (r: ChallengeReply)
    ensures r.callbackRuns <==> stat(ChallengeFilePath(dirname, url)).Some?
    ensures stat(ChallengeFilePath(dirname, url)).None? ==> r.response == MissingFileResponse
    ensures stat(ChallengeFilePath(dirname, url)).Some? ==>
              r.response.status == 200
              && r.response.body == StreamedFile(ChallengeFilePath(dirname, url))
              && r.response.headers == [("Content-Type", Text("text/plain")),
                                        ("Content-Length", Number(stat(ChallengeFilePath(dirname, url)).value))]
  {
    var path := ChallengeFilePath(dirname, url);
    match stat(path)
    case None => ChallengeReply(MissingFileResponse, false)
    case Some(size) => ChallengeReply(FoundFileResponse(path, size), true)
  }

  /** A URL with a `..` segment, which the operating system resolves by going up a directory. */
  predicate ClimbsUp(url: string) {
    ".." in Split(url, '/')
  }

  /**
   * Challenge serving confined to the webroot: a URL that climbs up is answered
   * as a missing file, without looking at the filesystem. Every other URL is
   * served exactly as the source serves it, and a file that is sent always lies
   * inside the webroot.
   */
  function ServeChallenge(dirname: string, url: string, stat: string -> Option<nat>): (r: ChallengeReply)
    requires StartsWith(url, ChallengePrefix)
    ensures !ClimbsUp(url) ==> r == ServeChallengeAsWritten(dirname, url, stat)
    ensures ClimbsUp(url) ==> r == ChallengeReply(MissingFileResponse, false)
    ensures r.callbackRuns ==> Resolve(Webroot(dirname)) <= Resolve(ChallengeFilePath(dirname, url))
  {
    if ClimbsUp(url) then ChallengeReply(MissingFileResponse, false)
    else
      StaysInWebroot(dirname, url);
      ServeChallengeAsWritten(dirname, url, stat)
  }

  lemma StaysInWebroot(dirname: string, url: string)
    requires StartsWith(url, "/")
    requires !ClimbsUp(url)
    ensures Resolve(Webroot(dirname)) <= Resolve(ChallengeFilePath(dirname, url))
  {
    var tail := url[1..];
    assert url == "" + "/" + tail;
    SplitConcat("", tail, '/');
    assert Split(url, '/') == [""] + Split(tail, '/');
    assert ".." !in Split(tail, '/');
    assert ChallengeFilePath(dirname, url) == Webroot(dirname) + "/" + tail;
    ResolveJoined(Webroot(dirname), tail);
    WalkStaysBelow(Resolve(Webroot(dirname)), Split(tail, '/'));
  }

  /** The segments of the challenge prefix followed by a slash and `x`. */
  lemma PrefixSegments(x: string)
    ensures Split(ChallengePrefix + "/" + x, '/') == ["", ".well-known", "acme-challenge"] + Split(x, '/')
  {
    var inner := ChallengeDir + "/" + x;
    var tail := WellKnownDir + "/" + inner;
    assert ChallengePrefix + "/" + x == "" + "/" + tail;
    SplitName("", tail);
    SplitName(WellKnownDir, inner);
    SplitName(ChallengeDir, x);
  }

  /** The segments of the challenge prefix followed by three `..` segments and then `rest`. */
  lemma ClimbingUrlSegments(rest: string)
    ensures Split(ChallengePrefix + "/../../../" + rest, '/')
            == ["", ".well-known", "acme-challenge", "..", "..", ".."] + Split(rest, '/')
  {
    var ups := ".." + "/" + (".." + "/" + (".." + "/" + rest));
    assert "/../../../" == "/" + ".." + "/" + ".." + "/" + ".." + "/";
    assert ChallengePrefix + "/../../../" + rest == ChallengePrefix + "/" + ups;
    PrefixSegments(ups);
    SplitName("..", ".." + "/" + (".." + "/" + rest));
    SplitName("..", ".." + "/" + rest);
    SplitName("..", rest);
  }

  /**
   * The challenge prefix followed by three `..` segments leads from the
   * webroot back up to the program's own directory, so such a URL names any
   * file there, the certificate's private key included.
   */
  lemma ClimbingUrlLeavesWebroot(dirname: string, rest: string)
    ensures StartsWith(ChallengePrefix + "/../../../" + rest, ChallengePrefix)
    ensures ClimbsUp(ChallengePrefix + "/../../../" + rest)
    ensures Resolve(ChallengeFilePath(dirname, ChallengePrefix + "/../../../" + rest)) == Resolve(dirname + "/" + rest)
  {
    var url := ChallengePrefix + "/../../../" + rest;
    assert url[..|ChallengePrefix|] == ChallengePrefix;
    ClimbingUrlSegments(rest);
    assert Split(url, '/')[3] == "..";
    SplitBeforeSlash(Webroot(dirname), url);
    assert "/certbot-webroot" == "/" + "certbot-webroot";
    assert Webroot(dirname) == dirname + "/" + "certbot-webroot";
    SplitLastName(dirname, "certbot-webroot");
    var climb := ["certbot-webroot", ".well-known", "acme-challenge", "..", "..", ".."];
    assert Split(ChallengeFilePath(dirname, url), '/') == Split(dirname, '/') + climb + Split(rest, '/');
    WalkConcat([], Split(dirname, '/') + climb, Split(rest, '/'));
    WalkConcat([], Split(dirname, '/'), climb);
    ResolveJoined(dirname, rest);
    var home := Resolve(dirname);
    assert Walk(home, climb) == home;
  }

  /**
   * The request the redirect server hands to challenge serving, and the file
   * the source then sends: under the usual directory layout it is the private
   * key of the certificate set `entry`; the confined serving refuses it.
   */
  lemma PrivateKeyReachable(dirname: string, entry: string, stat: string -> Option<nat>, size: nat)
    requires stat(ChallengeFilePath(dirname, ChallengePrefix + "/../../../certbot-config-dir/live/" + entry + "/privkey.pem")) == Some(size)
    ensures var url := ChallengePrefix + "/../../../certbot-config-dir/live/" + entry + "/privkey.pem";
            && StartsWith(url, ChallengePrefix)
            && Resolve(ChallengeFilePath(dirname, url)) == Resolve(PrivkeyPath(dirname, entry))
            && ServeChallengeAsWritten(dirname, url, stat).response.status == 200
            && ServeChallenge(dirname, url, stat).response == MissingFileResponse
  {
    var rest := "certbot-config-dir/live/" + entry + "/privkey.pem";
    var url := ChallengePrefix + "/../../../certbot-config-dir/live/" + entry + "/privkey.pem";
    KeyUrlShape(entry);
    ClimbingUrlLeavesWebroot(dirname, rest);
    KeyPathShape(dirname, entry);
  }

  lemma KeyUrlShape(entry: string)
    ensures ChallengePrefix + "/../../../certbot-config-dir/live/" + entry + "/privkey.pem"
            == ChallengePrefix + "/../../../" + ("certbot-config-dir/live/" + entry + "/privkey.pem")
  {
  }

  lemma KeyPathShape(dirname: string, entry: string)
    ensures PrivkeyPath(dirname, entry) == dirname + "/" + ("certbot-config-dir/live/" + entry + "/privkey.pem")
  {
  }

  /** What the port-80 servers do with one request. */
  datatype InsecureOutcome =
    /** A response, and the delay after which `process.exit()` is scheduled, if it is. */
    | Reply(response: Response, exitAfterMs: Option<nat>)
    /** The handler throws; nothing catches it. */
    | Throw(error: string)

  /** The `Location` of the redirect: `https://`, then the Host header, then the URL. */
  function RedirectLocation(host: Option<string>, url: string): string {
    "https://" + HostKey(host) + url
  }

  function RedirectResponse(host: Option<string>, url: string): Response {
    Response(301, [("Location", Text(RedirectLocation(host, url))), ("Cache-Control", Text("max-age=3600"))], Literal(""))
  }

  /**
   * `initHttpRedirectServer`'s handler (serving mode). A URL under the
   * challenge prefix is never redirected: it is served as the source serves
   * it, and once a file has been sent the process is scheduled to exit a
   * second later. Any other URL gets a 301 to the same host and URL over
   * HTTPS, cacheable for an hour.
   */
  function HandleRedirectServer(dirname: string, host: Option<string>, url: string, stat: string -> Option<nat>): (r: InsecureOutcome)
    ensures r.Reply?
    ensures StartsWith(url, ChallengePrefix) ==>
              r.response == ServeChallengeAsWritten(dirname, url, stat).response && r.response.status != 301
    ensures StartsWith(url, ChallengePrefix) ==>
              (r.exitAfterMs.Some? <==> stat(ChallengeFilePath(dirname, url)).Some?)
    ensures r.exitAfterMs.Some? ==> r.exitAfterMs.value == ExitDelayMs
    ensures !StartsWith(url, ChallengePrefix) ==>
              && r.response.status == 301
              && r.response.headers == [("Location", Text("https://" + HostKey(host) + url)),
                                        ("Cache-Control", Text("max-age=3600"))]
              && r.response.body == Literal("")
              && r.exitAfterMs.None?
  {
    if StartsWith(url, ChallengePrefix) then
      var c := ServeChallengeAsWritten(dirname, url, stat);
      Reply(c.response, if c.callbackRuns then Some(ExitDelayMs) else None)
    else
      Reply(RedirectResponse(host, url), None)
  }

  /**
   * The redirect server with challenge serving confined to the webroot: the
   * same outcome for every request except a challenge URL that climbs up,
   * which gets the missing-file reply and schedules no exit.
   */
  function HandleRedirectServerConfined(dirname: string, host: Option<string>, url: string, stat: string -> Option<nat>): (r: InsecureOutcome)
    ensures !(StartsWith(url, ChallengePrefix) && ClimbsUp(url)) ==> r == HandleRedirectServer(dirname, host, url, stat)
    ensures StartsWith(url, ChallengePrefix) && ClimbsUp(url) ==> r == Reply(MissingFileResponse, None)
  {
    if StartsWith(url, ChallengePrefix) then
      var c := ServeChallenge(dirname, url, stat);
      Reply(c.response, if c.callbackRuns then Some(ExitDelayMs) else None)
    else
      Reply(RedirectResponse(host, url), None)
  }

  /**
   * `initCertbotHttpServer`'s handler (manual mode): anything but a challenge
   * URL throws; a challenge is served as the source serves it, without a
   * completion callback, so this server never schedules an exit.
   */
  function HandleCertbotServer(dirname: string, url: string, stat: string -> Option<nat>): (r: InsecureOutcome)
    ensures r.Throw? <==> !StartsWith(url, ChallengePrefix)
    ensures r.Throw? ==> r.error == "Unexpected request '" + url + "'."
    ensures r.Reply? ==> r.response == ServeChallengeAsWritten(dirname, url, stat).response && r.exitAfterMs.None?
  {
    if !StartsWith(url, ChallengePrefix) then Throw("Unexpected request '" + url + "'.")
    else Reply(ServeChallengeAsWritten(dirname, url, stat).response, None)
  }

  /** The manual-mode server with challenge serving confined to the webroot. */
  function HandleCertbotServerConfined(dirname: string, url: string, stat: string -> Option<nat>): (r: InsecureOutcome)
    ensures !(StartsWith(url, ChallengePrefix) && ClimbsUp(url)) ==> r == HandleCertbotServer(dirname, url, stat)
    ensures StartsWith(url, ChallengePrefix) && ClimbsUp(url) ==> r == Reply(MissingFileResponse, None)
  {
    if !StartsWith(url, ChallengePrefix) then Throw("Unexpected request '" + url + "'.")
    else Reply(ServeChallenge(dirname, url, stat).response, None)
  }

  /**
   * On port 80 in serving mode, the key URL is answered with the private key
   * and status 200, and the process then schedules its exit; the confined
   * server answers it as a missing file and keeps running.
   */
  lemma PrivateKeyOverPort80(dirname: string, host: Option<string>, entry: string, stat: string -> Option<nat>, size: nat)
    requires stat(ChallengeFilePath(dirname, ChallengePrefix + "/../../../certbot-config-dir/live/" + entry + "/privkey.pem")) == Some(size)
    ensures var url := ChallengePrefix + "/../../../certbot-config-dir/live/" + entry + "/privkey.pem";
            && HandleRedirectServer(dirname, host, url, stat)
               == Reply(FoundFileResponse(ChallengeFilePath(dirname, url), size), Some(ExitDelayMs))
            && HandleRedirectServerConfined(dirname, host, url, stat) == Reply(MissingFileResponse, None)
  {
    var url := ChallengePrefix + "/../../../certbot-config-dir/live/" + entry + "/privkey.pem";
    KeyUrlShape(entry);
    ClimbingUrlLeavesWebroot(dirname, "certbot-config-dir/live/" + entry + "/privkey.pem");
  }

  /** Reads a `Location` back into host and URL: the host ends at the first slash after the scheme. */
  function ParseLocation(location: string): Option<(string, string)> {
    if !StartsWith(location, "https://") then None
    else
      var rest := location[8..];
      var slash := IndexOf(rest, "/");
      if slash == -1 then Some((rest, "")) else Some((rest[..slash], rest[slash..]))
  }

  /**
   * The redirect keeps the host and URL exactly: for a host without a slash
   * and a URL that starts with one, both are read back from the `Location`.
   */
  lemma RedirectLocationRoundTrip(host: string, url: string)
    requires '/' !in host
    requires StartsWith(url, "/")
    ensures ParseLocation(RedirectLocation(Some(host), url)) == Some((host, url))
  {
    var location := RedirectLocation(Some(host), url);
    assert location[..8] == "https://";
    var rest := location[8..];
    assert rest == host + "/" + url[1..];
    IndexOfPlaced(host, "/", url[1..]);
    var slash := IndexOf(rest, "/");
    forall j | 0 <= j < |host|
      ensures !OccursAt(rest, "/", j)
    {
      assert rest[j..j + 1] == [host[j]];
    }
    assert slash == |host|;
    assert rest[..slash] == host;
    assert rest[slash..] == url;
  }
}
