/**
 * The two handlers `initHttpsProxyServer` installs on the TLS server: the
 * request handler, which forwards by Host header, and the `upgrade` handler,
 * which forwards WebSocket connections to the target with its `http://`
 * scheme removed. Forwarding itself (the `http-proxy` library) is outside the
 * model: a handler's outcome says what would be forwarded where.
 */
module HttpsEdge {
  import opened Optional
  import opened Text
  import opened Routing
  import opened Http

  datatype RequestOutcome = Proxy(target: string) | Respond(response: Response)

  /** The body sent for a host that has no rule. */
  function UnknownDomainBody(host: Option<string>): string {
    "ERROR: Unknown domain '" + HostKey(host) + "'"
  }

  /**
   * A known host is forwarded to exactly its rule's target; any other host
   * gets status 500, no headers, and a body naming it, and nothing is forwarded.
   */
  function HandleRequest(rules: Rules, host: Option<string>): (r: RequestOutcome)
    ensures r.Proxy? <==> HostKey(host) in Domains(rules)
    ensures r.Proxy? ==> exists i :: 0 <= i < |rules| && rules[i] == Rule(HostKey(host), r.target)
    ensures r.Respond? ==> r.response == Response(500, [], Literal(UnknownDomainBody(host)))
  {
    match Lookup(rules, HostKey(host))
    case Some(target) => Proxy(target)
    case None => Respond(Response(500, [], Literal(UnknownDomainBody(host))))
  }

  /** With one rule per host, the request for a rule's host goes to that rule's target. */
  lemma RequestForwardedToRule(rules: Rules, i: nat)
    requires UniqueHosts(rules)
    requires i < |rules|
    ensures HandleRequest(rules, Some(rules[i].host)) == Proxy(rules[i].target)
  {
    LookupFindsRule(rules, i);
  }

  /** The characters at which a JavaScript regular expression's `.` stops. */
  predicate IsLineTerminator(c: char) {
    c == '\n' || c == '\r' || c == '\U{2028}' || c == '\U{2029}'
  }

  ghost predicate SingleLine(s: string) {
    forall k :: 0 <= k < |s| ==> !IsLineTerminator(s[k])
  }

  /** What `(.*)` captures: the longest prefix without a line terminator. */
  function TakeLine(s: string): (r: string)
    ensures StartsWith(s, r)
    ensures SingleLine(r)
    ensures |r| < |s| ==> IsLineTerminator(s[|r|])
    ensures SingleLine(s) ==> r == s
  {
    if |s| == 0 || IsLineTerminator(s[0]) then ""
    else
      var rest := TakeLine(s[1..]);
      assert s == [s[0]] + s[1..];
      [s[0]] + rest
  }

  const HttpScheme := "http://"

  /**
   * Group 1 of `target.match(/(?:http:\/\/)?(.*)/)`: the optional group takes a
   * leading `http://` whenever there is one, and `(.*)` then takes the rest of
   * the line. On a single-line target that is the target with `http://`
   * removed when it begins with it, and the whole target otherwise.
   */
  function WsTarget(target: string): (r: string)
    ensures SingleLine(target) && StartsWith(target, HttpScheme) ==> HttpScheme + r == target
    ensures SingleLine(target) && !StartsWith(target, HttpScheme) ==> r == target
    ensures SingleLine(r) && |r| <= |target|
  {
    var rest := if StartsWith(target, HttpScheme) then target[|HttpScheme|..] else target;
    var r := TakeLine(rest);
    assert SingleLine(target) ==> SingleLine(rest);
    r
  }

  /** Only the plain `http://` scheme is removed: an `https://` target is passed on whole. */
  lemma WsTargetKeepsHttps(rest: string)
    requires SingleLine("https://" + rest)
    ensures WsTarget("https://" + rest) == "https://" + rest
  {
    assert ("https://" + rest)[4] == 's';
  }

  /** The upgrade handler as the source has it. */
  datatype UpgradeOutcomeAsWritten =
    | ProxyUpgrade(target: string)
    /** `req.status(400)`: `IncomingMessage` has no `status` method, so the call throws. */
    | HandlerThrows(error: string)

  /** The upgrade handler with its miss branch sending the 400 response it evidently means to. */
  datatype UpgradeOutcome = ForwardUpgrade(target: string) | RejectUpgrade(response: Response)

  function HandleUpgradeAsWritten(rules: Rules, host: Option<string>): (r: UpgradeOutcomeAsWritten)
    ensures r.ProxyUpgrade? <==> HostKey(host) in Domains(rules)
    ensures r.ProxyUpgrade? ==> exists i :: 0 <= i < |rules| && rules[i].host == HostKey(host) && r.target == WsTarget(rules[i].target)
    ensures r.HandlerThrows? ==> r.error == "req.status is not a function"
  {
    match Lookup(rules, HostKey(host))
    case Some(target) => ProxyUpgrade(WsTarget(target))
    case None => HandlerThrows("req.status is not a function")
  }

  /** On an unknown host, the handler as written throws instead of answering, so no 400 is sent. */
  lemma UpgradeMissThrows(rules: Rules, host: Option<string>)
    requires HostKey(host) !in Domains(rules)
    ensures HandleUpgradeAsWritten(rules, host).HandlerThrows?
    ensures HandleUpgrade(rules, host) == RejectUpgrade(Response(400, [], Literal("")))
  {
  }

  /**
   * An upgrade for a known host is forwarded to the scheme-stripped target of
   * its rule; for any other host a 400 with an empty body is sent and nothing
   * is forwarded.
   */
  function HandleUpgrade(rules: Rules, host: Option<string>): (r: UpgradeOutcome)
    ensures r.ForwardUpgrade? <==> HostKey(host) in Domains(rules)
    ensures r.ForwardUpgrade? ==> exists i :: 0 <= i < |rules| && rules[i].host == HostKey(host) && r.target == WsTarget(rules[i].target)
    ensures r.RejectUpgrade? ==> r.response == Response(400, [], Literal(""))
  {
    match Lookup(rules, HostKey(host))
    case Some(target) => ForwardUpgrade(WsTarget(target))
    case None => RejectUpgrade(Response(400, [], Literal("")))
  }

  /**
   * Both handlers route by the same rule: a request is forwarded exactly when
   * an upgrade for the same host is, and the upgrade goes to the request's
   * target with `http://` removed. The handler as written agrees on every
   * forwarded upgrade.
   */
  lemma SameRuleForBoth(rules: Rules, host: Option<string>)
    ensures HandleRequest(rules, host).Proxy? <==> HandleUpgrade(rules, host).ForwardUpgrade?
    ensures HandleRequest(rules, host).Proxy? ==>
              HandleUpgrade(rules, host).target == WsTarget(HandleRequest(rules, host).target)
    ensures HandleUpgrade(rules, host).ForwardUpgrade? ==>
              HandleUpgradeAsWritten(rules, host) == ProxyUpgrade(HandleUpgrade(rules, host).target)
  {
  }
}
