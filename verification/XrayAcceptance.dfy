/** What composes and what validates, spelled out on text and numbers, and what a document that
    validates does with every connection (backend/app/providers/gateway/xray_composition.py). */
module XrayAcceptance {
  import opened RoutingSnapshot
  import opened Strings
  import opened Wrappers
  import opened XrayComposition

  /** Something to see in the text. */
  predicate Visible(s: string) {
    exists i :: 0 <= i < |s| && !IsSpace(s[i])
  }

  // ------------------------------------------------------------ composition

  predicate SocksOutbound(o: Outbound, credentials: Credentials) {
    && Visible(o.tag) && o.tag != "BLOCK" && Visible(o.host) && 1 <= o.port <= 65535
    && (Lower(o.protocol) == "socks" || Lower(o.protocol) == "socks5")
    && o.secretRef in credentials && Visible(credentials[o.secretRef].username) && Visible(credentials[o.secretRef].password)
  }

  lemma SocksIsVisible(protocol: string)
    requires Lower(protocol) == "socks" || Lower(protocol) == "socks5"
    ensures Visible(protocol)
  {
    assert Lower(protocol)[0] == 's';
    assert !IsSpace(protocol[0]);
  }

  lemma SocksOutboundIsOk(o: Outbound, credentials: Credentials)
    ensures SocksOutbound(o, credentials) <==> OutboundOk(o, credentials)
  {
    if Lower(o.protocol) == "socks" || Lower(o.protocol) == "socks5" {
      SocksIsVisible(o.protocol);
    }
  }

  /** A desired state composes exactly when every outbound is a socks server with a credential, under a
      tag of its own, and every route leads a visible principal to one of them. */
  lemma ComposesExactly(d: Desired, credentials: Credentials)
    ensures Composable(d, credentials) <==>
            && (forall i | 0 <= i < |d.outbounds| :: SocksOutbound(d.outbounds[i], credentials))
            && (forall i, j | 0 <= i < j < |d.outbounds| :: d.outbounds[i].tag != d.outbounds[j].tag)
            && (forall p | p in d.userRoutes ::
                  Visible(p) && exists i :: 0 <= i < |d.outbounds| && d.outbounds[i].tag == d.userRoutes[p])
  {
    hide OutboundOk, SocksOutbound;
    forall i | 0 <= i < |d.outbounds|
      ensures SocksOutbound(d.outbounds[i], credentials) <==> OutboundOk(d.outbounds[i], credentials)
      ensures SocksOutbound(d.outbounds[i], credentials) ==> !Blank(d.outbounds[i].tag) && d.outbounds[i].tag != BLOCK
    {
      SocksOutboundIsOk(d.outbounds[i], credentials);
      TagIsVisible(d.outbounds[i], credentials);
    }
    forall p | p in d.userRoutes
      ensures Visible(p) <==> !Blank(p)
    {
    }
  }

  lemma TagIsVisible(o: Outbound, credentials: Credentials)
    ensures SocksOutbound(o, credentials) ==> !Blank(o.tag) && o.tag != BLOCK
  {
  }

  /** The document, letter by letter, apart from its user rules (RoutesReadBack). */
  lemma ComposedDocumentIsText(doc: Document, d: Desired, credentials: Credentials, deployment: Deployment)
    requires IsComposition(doc, d, credentials, deployment)
    ensures doc.logLevel == deployment.logLevel && doc.domainStrategy == "AsIs"
    ensures |doc.outbounds| == |d.outbounds| + 1 && doc.outbounds[0] == OutboundDoc("BLOCK", "blackhole", None)
    ensures forall i | 0 <= i < |d.outbounds| ::
              var o := d.outbounds[i];
              o.secretRef in credentials
              && doc.outbounds[i + 1] == OutboundDoc(o.tag, "socks", Some([Server(o.host, o.port, [credentials[o.secretRef]])]))
    ensures |doc.inbounds| == |deployment.inbounds|
    ensures forall i | 0 <= i < |doc.inbounds| ::
              var s := deployment.inbounds[i];
              doc.inbounds[i] ==
              Inbound("vless-reality", s.listen, s.port, s.protocol, [], "none", "tcp", "reality",
                      Reality(false, deployment.dest, 0, deployment.serverNames, deployment.privateKey, deployment.shortIds))
    ensures |doc.rules| >= 2
    ensures doc.rules[0] == Rule("field", Some(["geoip:private"]), None, None, "BLOCK")
    ensures doc.rules[|doc.rules| - 1] == Rule("field", None, None, Some("tcp,udp"), "BLOCK")
    ensures forall i | 1 <= i < |doc.rules| - 1 ::
              && doc.rules[i].user.Some? && |doc.rules[i].user.value| == 1 && doc.rules[i].user.value[0] in d.userRoutes
              && doc.rules[i] == Rule("field", None, Some([doc.rules[i].user.value[0]]), None, d.userRoutes[doc.rules[i].user.value[0]])
  {
    hide Sorted, Le;
    var principals := Sorted(d.userRoutes.Keys);
    forall i | 1 <= i < |doc.rules| - 1
      ensures doc.rules[i] == UserRule(principals[i - 1], d.userRoutes[principals[i - 1]]) && principals[i - 1] in principals
    {
    }
  }

  // ------------------------------------------------------------- validation

  /** A socks outbound with one server and one visible credential. */
  predicate OneSocksServer(o: OutboundDoc) {
    && o.protocol == "socks" && o.servers.Some? && |o.servers.value| == 1
    && Visible(o.servers.value[0].address) && 1 <= o.servers.value[0].port <= 65535
    && |o.servers.value[0].users| == 1
    && Visible(o.servers.value[0].users[0].username) && Visible(o.servers.value[0].users[0].password)
  }

  /** A rule for one user, to a tag that is not a built-in one. */
  predicate OneUserRule(r: Rule) {
    && r.ruleType == "field" && r.ip == None && r.network == None
    && r.user.Some? && |r.user.value| == 1 && Visible(r.user.value[0])
    && Visible(r.outboundTag) && r.outboundTag != "BLOCK" && r.outboundTag != "DIRECT"
  }

  /** An inbound without static clients, behind reality. */
  predicate RealityInbound(i: Inbound) {
    && i.tag == "vless-reality" && Visible(i.listen) && 1 <= i.port <= 65535 && Visible(i.protocol)
    && |i.clients| == 0 && i.decryption == "none" && i.network == "tcp" && i.security == "reality"
    && i.reality.show == false && i.reality.xver == 0 && Visible(i.reality.dest) && Visible(i.reality.privateKey)
    && |i.reality.serverNames| > 0 && |i.reality.shortIds| > 0
    && (forall k | 0 <= k < |i.reality.serverNames| :: Visible(i.reality.serverNames[k]))
    && (forall k | 0 <= k < |i.reality.shortIds| :: Visible(i.reality.shortIds[k]))
  }

  lemma VisibleIsNotBlank(s: string)
    ensures Visible(s) <==> !Blank(s)
  {
  }

  lemma BlockIsVisible()
    ensures Visible("BLOCK")
  {
    assert !IsSpace("BLOCK"[0]);
  }

  lemma InboundAgrees(i: Inbound)
    ensures RealityInbound(i) <==> InboundValid(i)
  {
    hide Visible, Blank;
    forall s
      ensures Visible(s) <==> !Blank(s)
    {
      VisibleIsNotBlank(s);
    }
  }

  lemma SocksAgrees(o: OutboundDoc)
    ensures OneSocksServer(o) <==> SocksValid(o)
  {
    hide Visible, Blank;
    forall s
      ensures Visible(s) <==> !Blank(s)
    {
      VisibleIsNotBlank(s);
    }
  }

  lemma RuleAgrees(r: Rule)
    ensures OneUserRule(r) <==> UserRuleValid(r)
    ensures OneUserRule(r) ==> r.user.Some? && |r.user.value| == 1 && r.user.value == [r.user.value[0]]
  {
    hide Visible, Blank;
    forall s
      ensures Visible(s) <==> !Blank(s)
    {
      VisibleIsNotBlank(s);
    }
  }

  /** A document validates exactly when it has this shape and no other. */
  lemma ValidatesExactly(doc: Document)
    ensures Valid(doc) <==>
            && Lower(Strip(doc.logLevel)) in {"debug", "info", "warning", "error", "none"} && doc.domainStrategy == "AsIs"
            && |doc.inbounds| > 0 && (forall i | 0 <= i < |doc.inbounds| :: RealityInbound(doc.inbounds[i]))
            && |doc.outbounds| > 0 && doc.outbounds[0] == OutboundDoc("BLOCK", "blackhole", None)
            && (forall i | 1 <= i < |doc.outbounds| ::
                  OneSocksServer(doc.outbounds[i]) && Visible(doc.outbounds[i].tag) && doc.outbounds[i].tag != "DIRECT")
            && (forall i, j | 0 <= i < j < |doc.outbounds| :: doc.outbounds[i].tag != doc.outbounds[j].tag)
            && |doc.rules| >= 2
            && doc.rules[0] == Rule("field", Some(["geoip:private"]), None, None, "BLOCK")
            && doc.rules[|doc.rules| - 1] == Rule("field", None, None, Some("tcp,udp"), "BLOCK")
            && (forall i | 1 <= i < |doc.rules| - 1 ::
                  OneUserRule(doc.rules[i]) && exists k :: 0 <= k < |doc.outbounds| && doc.outbounds[k].tag == doc.rules[i].outboundTag)
            && (forall i, j | 1 <= i < j < |doc.rules| - 1 :: doc.rules[i].user.value[0] != doc.rules[j].user.value[0])
  {
    hide Lower, Strip, Visible, RealityInbound, InboundValid, OneSocksServer, SocksValid, OneUserRule, UserRuleValid;
    forall i | 0 <= i < |doc.inbounds|
      ensures RealityInbound(doc.inbounds[i]) <==> InboundValid(doc.inbounds[i])
    {
      InboundAgrees(doc.inbounds[i]);
    }
    forall i | 0 <= i < |doc.outbounds|
      ensures OneSocksServer(doc.outbounds[i]) <==> SocksValid(doc.outbounds[i])
      ensures Visible(doc.outbounds[i].tag) <==> !Blank(doc.outbounds[i].tag)
    {
      SocksAgrees(doc.outbounds[i]);
      VisibleIsNotBlank(doc.outbounds[i].tag);
    }
    VisibleIsNotBlank("BLOCK");
    BlockIsVisible();
    forall i | 0 <= i < |doc.rules|
      ensures OneUserRule(doc.rules[i]) <==> UserRuleValid(doc.rules[i])
      ensures OneUserRule(doc.rules[i]) ==> doc.rules[i].user.Some? && |doc.rules[i].user.value| == 1 && doc.rules[i].user.value == [doc.rules[i].user.value[0]]
    {
      RuleAgrees(doc.rules[i]);
    }
  }

  // ---------------------------------------------------------------- meaning

  /** A rule of the document names the user. */
  ghost predicate NamedBy(doc: Document, user: string, i: nat) {
    1 <= i < |doc.rules| - 1 && doc.rules[i].user == Some([user])
  }

  /** The first rule that matches decides. */
  lemma {:induction false} FirstMatchAt(rules: seq<Rule>, c: Connection, m: nat)
    requires m < |rules| && Matches(rules[m], c) && forall k | 0 <= k < m :: !Matches(rules[k], c)
    ensures FirstMatch(rules, c) == Some(rules[m].outboundTag)
    decreases m
  {
    hide Matches;
    if m > 0 {
      assert forall k | 0 <= k < m - 1 :: rules[1..][k] == rules[k + 1];
      FirstMatchAt(rules[1..], c, m - 1);
    }
  }

  /** Fail closed. Whatever document validates, by whomever it was written, blocks every private
      connection, and every tcp or udp connection of a user that no rule names. */
  lemma ValidDocumentsFailClosed(doc: Document, c: Connection)
    requires Valid(doc) && c.network in {"tcp", "udp"}
    requires c.private || forall i :: !NamedBy(doc, c.user, i)
    ensures FirstMatch(doc.rules, c) == Some("BLOCK")
  {
    hide InboundValid, SocksValid, Blank, ValidLogLevel, HasTagDoc, FirstMatch;
    if c.private {
      FirstMatchAt(doc.rules, c, 0);
    } else {
      forall k | 1 <= k < |doc.rules| - 1
        ensures !Matches(doc.rules[k], c)
      {
        assert UserRuleValid(doc.rules[k]) && !NamedBy(doc, c.user, k);
        assert doc.rules[k].user.value == [doc.rules[k].user.value[0]];
      }
      FirstMatchAt(doc.rules, c, |doc.rules| - 1);
    }
  }

  /** And it lets a user that a rule names out by exactly one socks server with one credential. */
  lemma ValidDocumentsServe(doc: Document, c: Connection, i: nat)
    requires Valid(doc) && !c.private && NamedBy(doc, c.user, i)
    ensures FirstMatch(doc.rules, c) == Some(doc.rules[i].outboundTag)
    ensures exists k :: 0 < k < |doc.outbounds| && doc.outbounds[k].tag == doc.rules[i].outboundTag
                        && OneSocksServer(doc.outbounds[k])
                        && forall l | 0 <= l < |doc.outbounds| && doc.outbounds[l].tag == doc.rules[i].outboundTag :: l == k
  {
    hide InboundValid, SocksValid, OneSocksServer, Blank, ValidLogLevel, FirstMatch;
    forall k | 1 <= k < i
      ensures !Matches(doc.rules[k], c)
    {
      assert UserRuleValid(doc.rules[k]) && doc.rules[k].user != doc.rules[i].user;
      assert doc.rules[k].user.value == [doc.rules[k].user.value[0]];
    }
    FirstMatchAt(doc.rules, c, i);
    var r := doc.rules[i];
    assert UserRuleValid(r) && HasTagDoc(doc, r.outboundTag);
    var k :| 0 <= k < |doc.outbounds| && doc.outbounds[k].tag == r.outboundTag;
    SocksAgrees(doc.outbounds[k]);
    assert doc.outbounds[0].tag == "BLOCK";
  }
}
