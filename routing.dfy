/**
 * The routing rules: the object exported by the rules file, mapping a Host
 * header value to an upstream base URL. It is kept as the ordered list of its
 * own properties, because `Object.keys` of it (in that order) is also the list
 * of domains a certificate is requested for.
 */
module Routing {
  import opened Optional

  datatype Rule = Rule(host: string, target: string)

  type Rules = seq<Rule>

  /** A JavaScript object has each property once. */
  ghost predicate UniqueHosts(rules: Rules) {
    forall i, j :: 0 <= i < j < |rules| ==> rules[i].host != rules[j].host
  }

  /** `Object.keys(rules)` */
  function Domains(rules: Rules): seq<string> {
    seq(|rules|, i requires 0 <= i < |rules| => rules[i].host)
  }

  /**
   * `host in rules ? rules[host] : undefined`. The result is present exactly
   * when the host is one of the domains, and is then the target of a rule for it.
   */
  function Lookup(rules: Rules, host: string): (r: Option<string>)
    ensures r.Some? <==> host in Domains(rules)
    ensures r.Some? ==> exists i :: 0 <= i < |rules| && rules[i] == Rule(host, r.value)
  {
    if |rules| == 0 then None
    else if rules[0].host == host then
      assert Domains(rules)[0] == host;
      Some(rules[0].target)
    else
      assert Domains(rules) == [rules[0].host] + Domains(rules[1..]);
      var r := Lookup(rules[1..], host);
      assert r.Some? ==> exists i :: 0 <= i < |rules| && rules[i] == Rule(host, r.value) by {
        if r.Some? {
          var k :| 0 <= k < |rules[1..]| && rules[1..][k] == Rule(host, r.value);
          assert rules[k + 1] == Rule(host, r.value);
        }
      }
      r
  }

  /** Every rule is reached by its own host: the lookup yields exactly that rule's target. */
  lemma {:induction false} LookupFindsRule(rules: Rules, i: nat)
    requires UniqueHosts(rules)
    requires i < |rules|
    ensures Lookup(rules, rules[i].host) == Some(rules[i].target)
  {
    if i > 0 {
      assert rules[0].host != rules[i].host;
      assert rules[1..][i - 1] == rules[i];
      LookupFindsRule(rules[1..], i - 1);
    }
  }

  /**
   * The key a Host header is looked up under: JavaScript converts a missing
   * header (`undefined`) to the property name "undefined".
   */
  function HostKey(host: Option<string>): string {
    match host
    case Some(h) => h
    case None => "undefined"
  }
}

/** The parts of an HTTP response that the handlers decide. */
module Http {

  /** A header value as handed to `writeHead`: a string, or a number Node prints in decimal. */
  datatype HeaderValue = Text(text: string) | Number(n: nat)

  /** A response body: literal text (empty for `res.end()`), or a file streamed by `pipe`. */
  datatype Body = Literal(text: string) | StreamedFile(path: string)

  datatype Response = Response(status: nat, headers: seq<(string, HeaderValue)>, body: Body)
}
