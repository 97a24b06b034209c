/** The repository-owned Xray file: composition, validation, and what its routing means
    (backend/app/providers/gateway/xray_composition.py, domain/subscription_render.py). */
module XrayComposition {
  import opened Limits
  import opened RoutingSnapshot
  import opened Strings
  import opened Wrappers

  datatype Credential = Credential(username: string, password: string)

  datatype Server = Server(address: string, port: int, users: seq<Credential>)

  /** An outbound object; `servers` is absent from the blackhole. */
  datatype OutboundDoc = OutboundDoc(tag: string, protocol: string, servers: Option<seq<Server>>)

  /** A routing rule object: the keys it has besides `type` and `outboundTag`. */
  datatype Rule = Rule(
    ruleType: string,
    ip: Option<seq<string>>,
    user: Option<seq<string>>,
    network: Option<string>,
    outboundTag: string)

  datatype Reality = Reality(
    show: bool,
    dest: string,
    xver: int,
    serverNames: seq<string>,
    privateKey: string,
    shortIds: seq<string>)

  datatype Inbound = Inbound(
    tag: string,
    listen: string,
    port: int,
    protocol: string,
    clients: seq<string>,
    decryption: string,
    network: string,
    security: string,
    reality: Reality)

  datatype Document = Document(
    logLevel: string,
    inbounds: seq<Inbound>,
    outbounds: seq<OutboundDoc>,
    domainStrategy: string,
    rules: seq<Rule>)

  datatype StaticInbound = StaticInbound(listen: string, port: int, protocol: string)

  /** The inputs of a composition besides the desired routing. */
  datatype Deployment = Deployment(
    logLevel: string,
    inbounds: seq<StaticInbound>,
    dest: string,
    serverNames: seq<string>,
    privateKey: string,
    shortIds: seq<string>)

  const INBOUND_TAG := "vless-reality"
  const BLACKHOLE := OutboundDoc(BLOCK, "blackhole", None)
  const PRIVATE_RULE := Rule("field", Some(["geoip:private"]), None, None, BLOCK)
  const CATCH_ALL := Rule("field", None, None, Some("tcp,udp"), BLOCK)
  const LOG_LEVELS := {"debug", "info", "warning", "error", "none"}

  predicate NonBlankAll(items: seq<string>) {
    items != [] && forall i | 0 <= i < |items| :: !Blank(items[i])
  }

  predicate ValidLogLevel(level: string) {
    Lower(Strip(level)) in LOG_LEVELS
  }

  /** What the skeleton, settings and identity loaders have checked before composition. */
  predicate DeploymentOk(d: Deployment) {
    && ValidLogLevel(d.logLevel)
    && d.inbounds != []
    && (forall i | 0 <= i < |d.inbounds| ::
          !Blank(d.inbounds[i].listen) && ValidPort(d.inbounds[i].port) && !Blank(d.inbounds[i].protocol))
    && !Blank(d.dest) && NonBlankAll(d.serverNames) && !Blank(d.privateKey) && NonBlankAll(d.shortIds)
  }

  function InboundOf(d: Deployment, s: StaticInbound): Inbound {
    Inbound(INBOUND_TAG, s.listen, s.port, s.protocol, [], "none", "tcp", "reality",
            Reality(false, d.dest, 0, d.serverNames, d.privateKey, d.shortIds))
  }

  // ------------------------------------------------------- routing rules

  function UserRule(principal: string, target: string): Rule {
    Rule("field", None, Some([principal]), None, target)
  }

  /** `render_routing_rules`: private BLOCK first, one rule per principal, catch-all BLOCK last. */
  function RenderRoutingRules(userRoutes: map<string, string>): seq<Rule> {
    var principals := Sorted(userRoutes.Keys);
    [PRIVATE_RULE]
    + seq(|principals|, i requires 0 <= i < |principals| => UserRule(principals[i], userRoutes[principals[i]]))
    + [CATCH_ALL]
  }

  // --------------------------------------------------------- composition

  type Credentials = map<string, Credential>

  predicate OutboundOk(o: Outbound, credentials: Credentials) {
    && !Blank(o.tag) && o.tag != BLOCK && !Blank(o.host) && ValidPort(o.port)
    && !Blank(o.protocol) && IsSocks(o.protocol)
    && o.secretRef in credentials
    && !Blank(credentials[o.secretRef].username) && !Blank(credentials[o.secretRef].password)
  }

  function SocksOf(o: Outbound, credentials: Credentials): OutboundDoc
    requires o.secretRef in credentials
  {
    OutboundDoc(o.tag, "socks", Some([Server(o.host, o.port, [credentials[o.secretRef]])]))
  }

  ghost predicate DistinctTags(outbounds: seq<Outbound>) {
    forall i, j | 0 <= i < j < |outbounds| :: outbounds[i].tag != outbounds[j].tag
  }

  ghost predicate HasOutbound(outbounds: seq<Outbound>, tag: string) {
    exists i :: 0 <= i < |outbounds| && outbounds[i].tag == tag
  }

  /** The desired states that `compose_xray_config` accepts. */
  ghost predicate Composable(d: Desired, credentials: Credentials) {
    && (forall i | 0 <= i < |d.outbounds| :: OutboundOk(d.outbounds[i], credentials))
    && DistinctTags(d.outbounds)
    && (forall p | p in d.userRoutes ::
          !Blank(p) && !Blank(d.userRoutes[p]) && d.userRoutes[p] != BLOCK
          && HasOutbound(d.outbounds, d.userRoutes[p]))
  }

  /** The composed document of a composable state. */
  ghost predicate IsComposition(doc: Document, d: Desired, credentials: Credentials, deployment: Deployment) {
    && doc.logLevel == deployment.logLevel
    && |doc.inbounds| == |deployment.inbounds|
    && (forall i | 0 <= i < |doc.inbounds| :: doc.inbounds[i] == InboundOf(deployment, deployment.inbounds[i]))
    && |doc.outbounds| == |d.outbounds| + 1 && doc.outbounds[0] == BLACKHOLE
    && (forall i | 0 <= i < |d.outbounds| ::
          d.outbounds[i].secretRef in credentials && doc.outbounds[i + 1] == SocksOf(d.outbounds[i], credentials))
    && doc.domainStrategy == "AsIs"
    && doc.rules == RenderRoutingRules(d.userRoutes)
  }

  method ComposeOutbounds(outbounds: seq<Outbound>, credentials: Credentials)
    returns (r: Option<seq<OutboundDoc>>, tags: set<string>)
    ensures r.Some? <==> (forall i | 0 <= i < |outbounds| :: OutboundOk(outbounds[i], credentials)) && DistinctTags(outbounds)
    ensures r.Some? ==>
              && |r.value| == |outbounds| + 1 && r.value[0] == BLACKHOLE
              && (forall i | 0 <= i < |outbounds| :: r.value[i + 1] == SocksOf(outbounds[i], credentials))
              && (forall t :: t in tags <==> HasOutbound(outbounds, t))
  {
    hide Blank, IsSocks;
    var docs := [BLACKHOLE];
    tags := {};
    for n := 0 to |outbounds|
      invariant |docs| == n + 1 && docs[0] == BLACKHOLE
      invariant forall i | 0 <= i < n :: OutboundOk(outbounds[i], credentials) && docs[i + 1] == SocksOf(outbounds[i], credentials)
      invariant forall i, j | 0 <= i < j < n :: outbounds[i].tag != outbounds[j].tag
      invariant forall t :: t in tags <==> exists i :: 0 <= i < n && outbounds[i].tag == t
    {
      var o := outbounds[n];
      if !OutboundOk(o, credentials) || o.tag in tags {
        return None, tags;
      }
      tags := tags + {o.tag};
      docs := docs + [SocksOf(o, credentials)];
    }
    r := Some(docs);
  }

  method ComposeRules(userRoutes: map<string, string>, tags: set<string>) returns (r: Option<seq<Rule>>)
    ensures r.Some? <==> forall p | p in userRoutes ::
                           !Blank(p) && !Blank(userRoutes[p]) && userRoutes[p] != BLOCK && userRoutes[p] in tags
    ensures r.Some? ==> r.value == RenderRoutingRules(userRoutes)
  {
    hide Blank, Sorted;
    var principals := Sorted(userRoutes.Keys);
    var rules := [PRIVATE_RULE];
    for n := 0 to |principals|
      invariant forall i | 0 <= i < n ::
                  var t := userRoutes[principals[i]];
                  !Blank(principals[i]) && !Blank(t) && t != BLOCK && t in tags
      invariant rules == [PRIVATE_RULE] + seq(n, i requires 0 <= i < n => UserRule(principals[i], userRoutes[principals[i]]))
    {
      var p := principals[n];
      assert p in principals;
      var target := userRoutes[p];
      if Blank(p) || Blank(target) || target == BLOCK || target !in tags {
        return None;
      }
      rules := rules + [UserRule(p, target)];
    }
    forall p | p in userRoutes
      ensures !Blank(p) && !Blank(userRoutes[p]) && userRoutes[p] != BLOCK && userRoutes[p] in tags
    {
      assert p in principals;
    }
    r := Some(rules + [CATCH_ALL]);
  }

  /** `compose_xray_config`. */
  method ComposeXrayConfig(d: Desired, credentials: Credentials, deployment: Deployment) returns (r: Option<Document>)
    ensures r.Some? <==> Composable(d, credentials)
    ensures r.Some? ==> IsComposition(r.value, d, credentials, deployment)
  {
    hide Blank, IsSocks, RenderRoutingRules;
    var outbounds, tags := ComposeOutbounds(d.outbounds, credentials);
    if outbounds.None? {
      return None;
    }
    var rules := ComposeRules(d.userRoutes, tags);
    if rules.None? {
      return None;
    }
    var inbounds := [];
    for n := 0 to |deployment.inbounds|
      invariant |inbounds| == n
      invariant forall i | 0 <= i < n :: inbounds[i] == InboundOf(deployment, deployment.inbounds[i])
    {
      inbounds := inbounds + [InboundOf(deployment, deployment.inbounds[n])];
    }
    r := Some(Document(deployment.logLevel, inbounds, outbounds.value, "AsIs", rules.value));
  }

  // ---------------------------------------------------------- validation

  predicate InboundValid(i: Inbound) {
    && i.tag == INBOUND_TAG && !Blank(i.listen) && ValidPort(i.port) && !Blank(i.protocol)
    && i.clients == [] && i.decryption == "none" && i.network == "tcp" && i.security == "reality"
    && !i.reality.show && i.reality.xver == 0 && !Blank(i.reality.dest)
    && NonBlankAll(i.reality.serverNames) && !Blank(i.reality.privateKey) && NonBlankAll(i.reality.shortIds)
  }

  predicate SocksValid(o: OutboundDoc) {
    && o.protocol == "socks" && o.servers.Some? && |o.servers.value| == 1
    && var s := o.servers.value[0];
    && !Blank(s.address) && ValidPort(s.port) && |s.users| == 1
    && !Blank(s.users[0].username) && !Blank(s.users[0].password)
  }

  predicate UserRuleValid(r: Rule) {
    && r.ip.None? && r.network.None? && r.user.Some? && r.ruleType == "field"
    && |r.user.value| == 1 && !Blank(r.user.value[0])
    && !Blank(r.outboundTag) && r.outboundTag != BLOCK && r.outboundTag != "DIRECT"
  }

  ghost predicate HasTagDoc(doc: Document, tag: string) {
    exists i :: 0 <= i < |doc.outbounds| && doc.outbounds[i].tag == tag
  }

  /** The documents that `_validate_repo_owned_xray_config` accepts. */
  ghost predicate Valid(doc: Document) {
    && ValidLogLevel(doc.logLevel)
    && doc.inbounds != [] && (forall i | 0 <= i < |doc.inbounds| :: InboundValid(doc.inbounds[i]))
    && doc.outbounds != [] && doc.outbounds[0] == BLACKHOLE
    && (forall i | 0 <= i < |doc.outbounds| :: !Blank(doc.outbounds[i].tag) && doc.outbounds[i].tag != "DIRECT")
    && (forall i | 1 <= i < |doc.outbounds| :: SocksValid(doc.outbounds[i]))
    && (forall i, j | 0 <= i < j < |doc.outbounds| :: doc.outbounds[i].tag != doc.outbounds[j].tag)
    && doc.domainStrategy == "AsIs"
    && |doc.rules| >= 2 && doc.rules[0] == PRIVATE_RULE && doc.rules[|doc.rules| - 1] == CATCH_ALL
    && (forall i | 1 <= i < |doc.rules| - 1 ::
          UserRuleValid(doc.rules[i]) && HasTagDoc(doc, doc.rules[i].outboundTag))
    && (forall i, j | 1 <= i < j < |doc.rules| - 1 :: doc.rules[i].user != doc.rules[j].user)
  }

  method ValidateRepoOwned(doc: Document) returns (valid: bool)
    ensures valid <==> Valid(doc)
  {
    hide Blank, ValidLogLevel, InboundValid, SocksValid, Lower, Strip;
    if !ValidLogLevel(doc.logLevel) || doc.inbounds == [] {
      return false;
    }
    for n := 0 to |doc.inbounds|
      invariant forall i | 0 <= i < n :: InboundValid(doc.inbounds[i])
    {
      if !InboundValid(doc.inbounds[n]) {
        return false;
      }
    }
    if doc.outbounds == [] {
      return false;
    }
    var tags: set<string> := {};
    for n := 0 to |doc.outbounds|
      invariant forall i | 0 <= i < n :: !Blank(doc.outbounds[i].tag) && doc.outbounds[i].tag != "DIRECT"
      invariant n > 0 ==> doc.outbounds[0] == BLACKHOLE
      invariant forall i | 1 <= i < n :: SocksValid(doc.outbounds[i])
      invariant forall i, j | 0 <= i < j < n :: doc.outbounds[i].tag != doc.outbounds[j].tag
      invariant forall t :: t in tags <==> exists i :: 0 <= i < n && doc.outbounds[i].tag == t
    {
      var o := doc.outbounds[n];
      if Blank(o.tag) || o.tag in tags || o.tag == "DIRECT" {
        return false;
      }
      tags := tags + {o.tag};
      if n == 0 {
        if o != BLACKHOLE {
          return false;
        }
      } else if !SocksValid(o) {
        return false;
      }
    }
    if doc.domainStrategy != "AsIs" || |doc.rules| < 2
       || doc.rules[0] != PRIVATE_RULE || doc.rules[|doc.rules| - 1] != CATCH_ALL
    {
      return false;
    }
    valid := ValidateRules(doc, tags);
  }

  method ValidateRules(doc: Document, tags: set<string>) returns (valid: bool)
    requires |doc.rules| >= 2
    requires forall t :: t in tags <==> HasTagDoc(doc, t)
    ensures valid <==>
              && (forall i | 1 <= i < |doc.rules| - 1 ::
                    UserRuleValid(doc.rules[i]) && HasTagDoc(doc, doc.rules[i].outboundTag))
              && (forall i, j | 1 <= i < j < |doc.rules| - 1 :: doc.rules[i].user != doc.rules[j].user)
  {
    hide Blank;
    var principals: set<string> := {};
    for n := 1 to |doc.rules| - 1
      invariant forall i | 1 <= i < n :: UserRuleValid(doc.rules[i]) && HasTagDoc(doc, doc.rules[i].outboundTag)
      invariant forall i, j | 1 <= i < j < n :: doc.rules[i].user != doc.rules[j].user
      invariant forall p :: p in principals <==> exists i :: 1 <= i < n && doc.rules[i].user == Some([p])
    {
      var r := doc.rules[n];
      if !UserRuleValid(r) || r.outboundTag !in tags {
        return false;
      }
      var p := r.user.value[0];
      assert r.user.value == [p];
      if p in principals {
        return false;
      }
      principals := principals + {p};
    }
    valid := true;
  }

  // -------------------------------------------------------------- meaning

  /** A connection as the router sees it. */
  datatype Connection = Connection(private: bool, user: string, network: string)

  predicate Matches(r: Rule, c: Connection) {
    && (r.ip.Some? ==> r.ip.value == ["geoip:private"] && c.private)
    && (r.user.Some? ==> c.user in r.user.value)
    && (r.network.Some? ==> r.network.value == "tcp,udp" && c.network in {"tcp", "udp"})
  }

  /** First match; None is traffic no rule decides. */
  function FirstMatch(rules: seq<Rule>, c: Connection): Option<string> {
    if rules == [] then None
    else if Matches(rules[0], c) then Some(rules[0].outboundTag)
    else FirstMatch(rules[1..], c)
  }

  /** Reading the routes back from the rules of a document. */
  function ReadRoutes(rules: seq<Rule>): map<string, string> {
    if rules == [] then map[]
    else
      var rest := ReadRoutes(rules[1..]);
      if rules[0].user.Some? && |rules[0].user.value| == 1 then rest[rules[0].user.value[0] := rules[0].outboundTag]
      else rest
  }

  function UserRules(principals: seq<string>, userRoutes: map<string, string>): seq<Rule>
    requires forall i | 0 <= i < |principals| :: principals[i] in userRoutes
  {
    seq(|principals|, i requires 0 <= i < |principals| => UserRule(principals[i], userRoutes[principals[i]]))
  }

  lemma {:induction false} RouteThroughUserRules(principals: seq<string>, userRoutes: map<string, string>, tail: seq<Rule>, c: Connection)
    requires forall i | 0 <= i < |principals| :: principals[i] in userRoutes
    ensures FirstMatch(UserRules(principals, userRoutes) + tail, c) ==
            if c.user in principals then Some(userRoutes[c.user]) else FirstMatch(tail, c)
  {
    var rules := UserRules(principals, userRoutes);
    if principals == [] {
      assert rules + tail == tail;
    } else {
      assert (rules + tail)[1..] == UserRules(principals[1..], userRoutes) + tail;
      RouteThroughUserRules(principals[1..], userRoutes, tail, c);
    }
  }

  /** First-match routing of the rendered rules: private traffic is blocked, a known principal goes
      to exactly its desired outbound, everything else is blocked. */
  lemma RoutesAsDesired(userRoutes: map<string, string>, c: Connection)
    requires c.network in {"tcp", "udp"}
    ensures FirstMatch(RenderRoutingRules(userRoutes), c) ==
            if c.private then Some(BLOCK)
            else if c.user in userRoutes then Some(userRoutes[c.user])
            else Some(BLOCK)
  {
    hide Sorted, Le;
    var principals := Sorted(userRoutes.Keys);
    var rules := RenderRoutingRules(userRoutes);
    assert rules[1..] == UserRules(principals, userRoutes) + [CATCH_ALL];
    RouteThroughUserRules(principals, userRoutes, [CATCH_ALL], c);
    assert [CATCH_ALL][1..] == [];
    assert rules[0] == PRIVATE_RULE;
  }

  lemma {:induction false} ReadUserRules(principals: seq<string>, userRoutes: map<string, string>)
    requires forall i | 0 <= i < |principals| :: principals[i] in userRoutes
    ensures ReadRoutes(UserRules(principals, userRoutes) + [CATCH_ALL]) ==
            map p | p in principals :: userRoutes[p]
  {
    var rules := UserRules(principals, userRoutes) + [CATCH_ALL];
    if principals != [] {
      assert rules[1..] == UserRules(principals[1..], userRoutes) + [CATCH_ALL];
      ReadUserRules(principals[1..], userRoutes);
      assert principals == [principals[0]] + principals[1..];
    } else {
      assert rules == [CATCH_ALL];
      assert rules[1..] == [];
    }
  }

  /** Rendering loses nothing: the routes can be read back exactly. */
  lemma RoutesReadBack(userRoutes: map<string, string>)
    ensures ReadRoutes(RenderRoutingRules(userRoutes)) == userRoutes
  {
    hide Sorted, Le;
    var principals := Sorted(userRoutes.Keys);
    var rules := RenderRoutingRules(userRoutes);
    assert rules[1..] == UserRules(principals, userRoutes) + [CATCH_ALL];
    ReadUserRules(principals, userRoutes);
    assert forall p :: p in principals <==> p in userRoutes;
  }
}
