/** From the committed tables to the routed connection: snapshot, composition and validation
    composed, for every table content. */
module XrayPipeline {
  import opened RoutingSnapshot
  import opened Strings
  import opened Wrappers
  import opened XrayComposition

  /** Every outbound of the snapshot has a resolved credential that is not blank. */
  ghost predicate Resolved(d: Desired, credentials: Credentials) {
    forall i | 0 <= i < |d.outbounds| ::
      && d.outbounds[i].secretRef in credentials
      && !Blank(credentials[d.outbounds[i].secretRef].username)
      && !Blank(credentials[d.outbounds[i].secretRef].password)
  }

  lemma LowerKeepsBlank(s: string)
    ensures Blank(s) ==> Blank(Lower(s))
  {
  }

  lemma SocksIsNotBlank(protocol: string)
    requires IsSocks(protocol)
    ensures !Blank(protocol)
  {
    LowerKeepsBlank(protocol);
    assert !IsSpace(Lower(protocol)[0]);
  }

  /** Each outbound of a snapshot comes from an active row. */
  lemma OutboundHasRow(a: Authority, k: nat) returns (i: nat)
    requires Snapshot(a).Success? && k < |Snapshot(a).value.outbounds|
    ensures i < |a.routes| && a.routes[i].active && RowOk(a, a.routes[i])
    ensures Snapshot(a).value.outbounds[k] == OutboundOf(a, a.routes[i])
  {
    hide RowOk, OutboundOf, Le, Collect;
    SnapshotExact(a);
    var d := Snapshot(a).value;
    var t := Collect(a, |a.routes|).value;
    var g := d.outbounds[k].tag;
    assert HasTag(a, |a.routes|, g);
    i :| 0 <= i < |a.routes| && a.routes[i].active && a.routes[i].tag == g;
    assert Recorded(a, t, a.routes[i]);
  }

  lemma RowHasOutbound(a: Authority, i: nat) returns (k: nat)
    requires Snapshot(a).Success? && i < |a.routes| && a.routes[i].active
    ensures a.routes[i].egress in a.endpoints && k < |Snapshot(a).value.outbounds|
    ensures Snapshot(a).value.outbounds[k] == OutboundOf(a, a.routes[i])
    ensures a.routes[i].principal in Snapshot(a).value.userRoutes
    ensures Snapshot(a).value.userRoutes[a.routes[i].principal] == a.routes[i].tag
  {
    hide RowOk, OutboundOf, Le, Collect;
    SnapshotExact(a);
    var d := Snapshot(a).value;
    var t := Collect(a, |a.routes|).value;
    assert Recorded(a, t, a.routes[i]);
    k :| 0 <= k < |d.outbounds| && d.outbounds[k] == t.byTag[a.routes[i].tag];
  }

  lemma SnapshotOutboundOk(a: Authority, credentials: Credentials, k: nat)
    requires Snapshot(a).Success? && Resolved(Snapshot(a).value, credentials)
    requires k < |Snapshot(a).value.outbounds|
    ensures OutboundOk(Snapshot(a).value.outbounds[k], credentials)
  {
    hide Snapshot, Blank, IsSocks;
    var i := OutboundHasRow(a, k);
    SocksIsNotBlank(Snapshot(a).value.outbounds[k].protocol);
  }

  lemma SnapshotRouteOk(a: Authority, p: string)
    requires Snapshot(a).Success? && p in Snapshot(a).value.userRoutes
    ensures var d := Snapshot(a).value;
            !Blank(p) && !Blank(d.userRoutes[p]) && d.userRoutes[p] != BLOCK && HasOutbound(d.outbounds, d.userRoutes[p])
  {
    hide Blank, Le, IsSocks, RowOk, OutboundOf, Collect;
    SnapshotExact(a);
    assert HasPrincipal(a, |a.routes|, p);
    var i :| 0 <= i < |a.routes| && a.routes[i].active && a.routes[i].principal == p;
    var k := RowHasOutbound(a, i);
    RowText(a, i);
  }

  lemma RowText(a: Authority, i: nat)
    requires Sound(a) && i < |a.routes| && a.routes[i].active
    ensures !Blank(a.routes[i].principal) && !Blank(a.routes[i].tag) && a.routes[i].tag != BLOCK
    ensures a.routes[i].egress in a.endpoints && OutboundOf(a, a.routes[i]).tag == a.routes[i].tag
  {
  }

  /** Whatever the snapshot returns composes, once its credentials are resolved. */
  lemma SnapshotComposes(a: Authority, credentials: Credentials)
    requires Snapshot(a).Success? && Resolved(Snapshot(a).value, credentials)
    ensures Composable(Snapshot(a).value, credentials)
  {
    hide Snapshot, OutboundOk, Blank, Collect, Le;
    var d := Snapshot(a).value;
    forall k | 0 <= k < |d.outbounds|
      ensures OutboundOk(d.outbounds[k], credentials)
    {
      SnapshotOutboundOk(a, credentials, k);
    }
    forall p | p in d.userRoutes
      ensures !Blank(p) && !Blank(d.userRoutes[p]) && d.userRoutes[p] != BLOCK && HasOutbound(d.outbounds, d.userRoutes[p])
    {
      SnapshotRouteOk(a, p);
    }
    SnapshotExact(a);
  }

  lemma RenderedRule(userRoutes: map<string, string>, n: nat)
    requires 1 <= n < |RenderRoutingRules(userRoutes)| - 1
    ensures var p := Sorted(userRoutes.Keys)[n - 1];
            p in userRoutes && RenderRoutingRules(userRoutes)[n] == UserRule(p, userRoutes[p])
  {
    hide Sorted, Le;
    assert Sorted(userRoutes.Keys)[n - 1] in Sorted(userRoutes.Keys);
  }

  ghost predicate NoDirect(d: Desired) {
    forall i | 0 <= i < |d.outbounds| :: d.outbounds[i].tag != "DIRECT"
  }

  lemma BlockIsNotBlank()
    ensures !Blank(BLOCK)
  {
    assert !IsSpace(BLOCK[0]);
  }

  lemma ComposedOutboundsValid(doc: Document, d: Desired, credentials: Credentials, deployment: Deployment)
    requires Composable(d, credentials) && IsComposition(doc, d, credentials, deployment)
    ensures forall i | 0 <= i < |doc.outbounds| :: !Blank(doc.outbounds[i].tag)
    ensures forall i | 1 <= i < |doc.outbounds| :: SocksValid(doc.outbounds[i])
    ensures forall i, j | 0 <= i < j < |doc.outbounds| :: doc.outbounds[i].tag != doc.outbounds[j].tag
    ensures NoDirect(d) <==> forall i | 0 <= i < |doc.outbounds| :: doc.outbounds[i].tag != "DIRECT"
    ensures forall t :: HasTagDoc(doc, t) <==> t == BLOCK || HasOutbound(d.outbounds, t)
  {
    hide Blank, IsSocks, RenderRoutingRules;
    BlockIsNotBlank();
    forall i | 1 <= i < |doc.outbounds|
      ensures SocksValid(doc.outbounds[i]) && doc.outbounds[i].tag == d.outbounds[i - 1].tag
    {
      assert OutboundOk(d.outbounds[i - 1], credentials);
      assert doc.outbounds[i - 1 + 1] == SocksOf(d.outbounds[i - 1], credentials);
    }
    forall i | 0 <= i < |d.outbounds|
      ensures doc.outbounds[i + 1].tag == d.outbounds[i].tag
    {
    }
    forall t
      ensures HasTagDoc(doc, t) <==> t == BLOCK || HasOutbound(d.outbounds, t)
    {
      if HasTagDoc(doc, t) && t != BLOCK {
        var i :| 0 <= i < |doc.outbounds| && doc.outbounds[i].tag == t;
        assert d.outbounds[i - 1].tag == t;
      }
      if HasOutbound(d.outbounds, t) {
        var i :| 0 <= i < |d.outbounds| && d.outbounds[i].tag == t;
        assert doc.outbounds[i + 1].tag == t;
      }
    }
  }

  lemma ComposedRulesValid(doc: Document, d: Desired, credentials: Credentials, deployment: Deployment)
    requires Composable(d, credentials) && IsComposition(doc, d, credentials, deployment) && NoDirect(d)
    requires forall t :: HasTagDoc(doc, t) <==> t == BLOCK || HasOutbound(d.outbounds, t)
    ensures |doc.rules| >= 2 && doc.rules[0] == PRIVATE_RULE && doc.rules[|doc.rules| - 1] == CATCH_ALL
    ensures forall i | 1 <= i < |doc.rules| - 1 ::
              UserRuleValid(doc.rules[i]) && HasTagDoc(doc, doc.rules[i].outboundTag)
    ensures forall i, j | 1 <= i < j < |doc.rules| - 1 :: doc.rules[i].user != doc.rules[j].user
  {
    hide Blank, Sorted, Le, OutboundOk;
    forall i | 1 <= i < |doc.rules| - 1
      ensures UserRuleValid(doc.rules[i]) && HasTagDoc(doc, doc.rules[i].outboundTag)
    {
      RenderedRule(d.userRoutes, i);
    }
    var principals := Sorted(d.userRoutes.Keys);
    forall i, j | 1 <= i < j < |doc.rules| - 1
      ensures doc.rules[i].user != doc.rules[j].user
    {
      RenderedRule(d.userRoutes, i);
      RenderedRule(d.userRoutes, j);
      assert doc.rules[i].user.value[0] != doc.rules[j].user.value[0];
    }
  }

  /** A composed document validates exactly when no outbound is tagged DIRECT: composition accepts
      that tag and the validator refuses it. */
  lemma ComposedIsValidIffNoDirect(doc: Document, d: Desired, credentials: Credentials, deployment: Deployment)
    requires DeploymentOk(deployment)
    requires Composable(d, credentials) && IsComposition(doc, d, credentials, deployment)
    ensures Valid(doc) <==> NoDirect(d)
  {
    hide Blank, RenderRoutingRules, SocksValid, UserRuleValid, Composable, ValidLogLevel, OutboundOk, SocksOf;
    ComposedOutboundsValid(doc, d, credentials, deployment);
    if NoDirect(d) {
      ComposedRulesValid(doc, d, credentials, deployment);
      forall i | 0 <= i < |doc.inbounds|
        ensures InboundValid(doc.inbounds[i])
      {
        assert doc.inbounds[i] == InboundOf(deployment, deployment.inbounds[i]);
      }
    }
  }

  /** A tag the two sides disagree on. */
  lemma DirectTagComposesButIsRefused()
    ensures exists d: Desired, credentials: Credentials :: Composable(d, credentials) && !NoDirect(d)
  {
    var o := Outbound("DIRECT", "h", 1, "socks", "ref");
    var d := Desired(map[], [o]);
    var credentials: Credentials := map["ref" := Credential("u", "p")];
    assert Lower("socks") == "socks";
    assert !IsSpace("DIRECT"[0]) && !IsSpace("h"[0]) && !IsSpace("socks"[0]) && !IsSpace("u"[0]) && !IsSpace("p"[0]);
    assert OutboundOk(o, credentials);
    assert d.outbounds[0].tag == "DIRECT";
    assert Composable(d, credentials);
  }

  /** What a desired state decides about a connection. */
  function Decision(d: Desired, c: Connection): string {
    if c.private || c.user !in d.userRoutes then BLOCK else d.userRoutes[c.user]
  }

  /** The pipeline. For every table content with a snapshot, resolved credentials and no tag DIRECT, the
      composed document validates, decides every tcp or udp connection as the snapshot does, and its
      routes can be read back. */
  lemma Pipeline(a: Authority, credentials: Credentials, deployment: Deployment, doc: Document)
    requires Snapshot(a).Success? && Resolved(Snapshot(a).value, credentials) && NoDirect(Snapshot(a).value)
    requires DeploymentOk(deployment)
    requires IsComposition(doc, Snapshot(a).value, credentials, deployment)
    ensures Valid(doc)
    ensures ReadRoutes(doc.rules) == Snapshot(a).value.userRoutes
    ensures forall c: Connection | c.network in {"tcp", "udp"} ::
              FirstMatch(doc.rules, c) == Some(Decision(Snapshot(a).value, c))
  {
    hide Valid, Composable, Snapshot, ReadRoutes, RenderRoutingRules, FirstMatch;
    var d := Snapshot(a).value;
    SnapshotComposes(a, credentials);
    ComposedIsValidIffNoDirect(doc, d, credentials, deployment);
    RoutesReadBack(d.userRoutes);
    forall c: Connection | c.network in {"tcp", "udp"}
      ensures FirstMatch(doc.rules, c) == Some(Decision(d, c))
    {
      RoutesAsDesired(d.userRoutes, c);
    }
  }

  /** Some outbound of the document is a socks server of this tag, address and credential. */
  ghost predicate Serves(doc: Document, tag: string, host: string, port: int, credential: Credential) {
    exists k :: 0 < k < |doc.outbounds| && doc.outbounds[k] == OutboundDoc(tag, "socks", Some([Server(host, port, [credential])]))
  }

  /** The unreleased egress binding of the subscription names a credential. */
  predicate HasOwnRef(a: Authority, subscription: nat) {
    && subscription in a.bindings
    && a.bindings[subscription].secretRef.Some? && a.bindings[subscription].secretRef.value != ""
  }

  /** Each active row sends its principal to one socks server at the row's endpoint. The credential is
      the one of the egress binding when the subscription has one with a reference, and the one of the
      endpoint otherwise. */
  lemma ActiveRowIsServed(a: Authority, credentials: Credentials, deployment: Deployment, doc: Document, i: nat)
    requires Snapshot(a).Success? && Resolved(Snapshot(a).value, credentials)
    requires IsComposition(doc, Snapshot(a).value, credentials, deployment)
    requires i < |a.routes| && a.routes[i].active
    ensures var r := a.routes[i];
            && r.egress in a.endpoints
            && var e := a.endpoints[r.egress];
            && Decision(Snapshot(a).value, Connection(false, r.principal, "tcp")) == r.tag
            && (HasOwnRef(a, r.subscription) ==>
                  && a.bindings[r.subscription].egress == r.egress
                  && a.bindings[r.subscription].secretRef.value in credentials
                  && Serves(doc, r.tag, e.host, e.port, credentials[a.bindings[r.subscription].secretRef.value]))
            && (!HasOwnRef(a, r.subscription) ==>
                  e.secretRef in credentials && Serves(doc, r.tag, e.host, e.port, credentials[e.secretRef]))
  {
    hide Collect, RenderRoutingRules, Le, Snapshot, RowOk, Blank;
    var d := Snapshot(a).value;
    var k := RowHasOutbound(a, i);
    assert doc.outbounds[k + 1] == SocksOf(d.outbounds[k], credentials);
    BoundElsewhere(a, i);
  }

  /** The binding of a routed subscription is for the endpoint of its route. */
  lemma BoundElsewhere(a: Authority, i: nat)
    requires Snapshot(a).Success? && i < |a.routes| && a.routes[i].active
    ensures var r := a.routes[i]; r.subscription in a.bindings ==> a.bindings[r.subscription].egress == r.egress
  {
    hide Collect, Snapshot;
    SnapshotExact(a);
  }
}
