/** The complete active routing state, read from the committed tables
    (backend/app/infra/provisioning_state.py, full_desired_routing_snapshot). */
module RoutingSnapshot {
  import opened Limits
  import opened Strings
  import opened Wrappers

  datatype Route = Route(subscription: nat, egress: nat, principal: string, tag: string, active: bool)

  datatype Endpoint = Endpoint(host: string, port: int, protocol: string, secretRef: string)

  datatype EgressBinding = EgressBinding(id: nat, egress: nat, secretRef: Option<string>)

  /** The tables the snapshot reads. `bindings` holds the unreleased egress binding of each
      subscription, which a unique index keeps to one. */
  datatype Authority = Authority(
    routes: seq<Route>,
    endpoints: map<nat, Endpoint>,
    bindings: map<nat, EgressBinding>)

  datatype Outbound = Outbound(tag: string, host: string, port: int, protocol: string, secretRef: string)

  datatype Desired = Desired(userRoutes: map<string, string>, outbounds: seq<Outbound>)

  datatype Error =
    | RoutePrincipalInvalid
    | RouteTagInvalid
    | RouteTagReserved
    | RoutePrincipalDuplicate
    | RouteEndpointMissing
    | RouteBindingEgressMismatch
    | EndpointHostInvalid
    | EndpointPortInvalid
    | EndpointProtocolUnsupported
    | CredentialRefInvalid
    | RouteTagDuplicate

  const BLOCK := "BLOCK"

  predicate IsSocks(protocol: string) {
    Lower(protocol) in {"socks", "socks5"}
  }

  /** The egress binding of the row's subscription, when it points at the row's endpoint. */
  function SelectedRef(a: Authority, r: Route): string
    requires r.egress in a.endpoints
  {
    if r.subscription in a.bindings && a.bindings[r.subscription].egress == r.egress
       && a.bindings[r.subscription].secretRef.Some? && a.bindings[r.subscription].secretRef.value != ""
    then a.bindings[r.subscription].secretRef.value
    else a.endpoints[r.egress].secretRef
  }

  function OutboundOf(a: Authority, r: Route): Outbound
    requires r.egress in a.endpoints
  {
    var e := a.endpoints[r.egress];
    Outbound(r.tag, e.host, e.port, e.protocol, SelectedRef(a, r))
  }

  /** Everything one row is checked for, apart from the rows before it. */
  predicate RowOk(a: Authority, r: Route) {
    && !Blank(r.principal) && !Blank(r.tag) && r.tag != BLOCK
    && r.egress in a.endpoints
    && (r.subscription in a.bindings ==> a.bindings[r.subscription].egress == r.egress)
    && !Blank(a.endpoints[r.egress].host)
    && ValidPort(a.endpoints[r.egress].port)
    && IsSocks(a.endpoints[r.egress].protocol)
    && SelectedRef(a, r) != ""
  }

  /** When the tables describe a routing state at all. */
  ghost predicate Sound(a: Authority) {
    && (forall i | 0 <= i < |a.routes| && a.routes[i].active :: RowOk(a, a.routes[i]))
    && (forall i, j | 0 <= i < j < |a.routes| && a.routes[i].active && a.routes[j].active ::
          a.routes[i].principal != a.routes[j].principal && a.routes[i].tag != a.routes[j].tag)
  }

  /** The two dictionaries the loop fills. */
  datatype Tables = Tables(userRoutes: map<string, string>, byTag: map<string, Outbound>)

  function AddRow(a: Authority, t: Tables, r: Route): Result<Tables, Error> {
    if Blank(r.principal) then Failure(RoutePrincipalInvalid)
    else if Blank(r.tag) then Failure(RouteTagInvalid)
    else if r.tag == BLOCK then Failure(RouteTagReserved)
    else if r.principal in t.userRoutes then Failure(RoutePrincipalDuplicate)
    else if r.egress !in a.endpoints then Failure(RouteEndpointMissing)
    else if r.subscription in a.bindings && a.bindings[r.subscription].egress != r.egress then
      Failure(RouteBindingEgressMismatch)
    else
      var e := a.endpoints[r.egress];
      if Blank(e.host) then Failure(EndpointHostInvalid)
      else if !ValidPort(e.port) then Failure(EndpointPortInvalid)
      else if !IsSocks(e.protocol) then Failure(EndpointProtocolUnsupported)
      else if SelectedRef(a, r) == "" then Failure(CredentialRefInvalid)
      else if r.tag in t.byTag then Failure(RouteTagDuplicate)
      else Success(Tables(t.userRoutes[r.principal := r.tag], t.byTag[r.tag := OutboundOf(a, r)]))
  }

  /** The tables after the first `n` rows. */
  function Collect(a: Authority, n: nat): Result<Tables, Error>
    requires n <= |a.routes|
  {
    if n == 0 then Success(Tables(map[], map[]))
    else
      var before := Collect(a, n - 1);
      if before.Failure? || !a.routes[n - 1].active then before
      else AddRow(a, before.value, a.routes[n - 1])
  }

  function Finish(t: Tables): Desired {
    var tags := Sorted(t.byTag.Keys);
    Desired(t.userRoutes, seq(|tags|, i requires 0 <= i < |tags| => t.byTag[tags[i]]))
  }

  function Snapshot(a: Authority): Result<Desired, Error> {
    match Collect(a, |a.routes|)
    case Failure(e) => Failure(e)
    case Success(t) => Success(Finish(t))
  }

  method FullDesiredRoutingSnapshot(a: Authority) returns (r: Result<Desired, Error>)
    ensures r == Snapshot(a)
  {
    var t := Tables(map[], map[]);
    var n := 0;
    while n < |a.routes|
      invariant 0 <= n <= |a.routes|
      invariant Collect(a, n) == Success(t)
    {
      if a.routes[n].active {
        var added := AddRow(a, t, a.routes[n]);
        if added.Failure? {
          FailureStays(a, n + 1, |a.routes|);
          return Failure(added.error);
        }
        t := added.value;
      }
      n := n + 1;
    }
    r := Success(Finish(t));
  }

  lemma {:induction false} FailureStays(a: Authority, n: nat, m: nat)
    requires n <= m <= |a.routes| && Collect(a, n).Failure?
    ensures Collect(a, m) == Collect(a, n)
  {
    if n < m {
      FailureStays(a, n, m - 1);
    }
  }

  ghost predicate Recorded(a: Authority, t: Tables, r: Route) {
    && r.egress in a.endpoints
    && r.principal in t.userRoutes && t.userRoutes[r.principal] == r.tag
    && r.tag in t.byTag && t.byTag[r.tag] == OutboundOf(a, r)
  }

  ghost predicate HasPrincipal(a: Authority, n: nat, p: string)
    requires n <= |a.routes|
  {
    exists i :: 0 <= i < n && a.routes[i].active && a.routes[i].principal == p
  }

  ghost predicate HasTag(a: Authority, n: nat, g: string)
    requires n <= |a.routes|
  {
    exists i :: 0 <= i < n && a.routes[i].active && a.routes[i].tag == g
  }

  /** The dictionaries hold exactly the active rows among the first `n`. */
  ghost predicate Holds(a: Authority, t: Tables, n: nat)
    requires n <= |a.routes|
  {
    && (forall i | 0 <= i < n && a.routes[i].active :: Recorded(a, t, a.routes[i]))
    && (forall p :: p in t.userRoutes <==> HasPrincipal(a, n, p))
    && (forall g :: g in t.byTag <==> HasTag(a, n, g))
  }

  ghost predicate SoundUpTo(a: Authority, n: nat)
    requires n <= |a.routes|
  {
    && (forall i | 0 <= i < n && a.routes[i].active :: RowOk(a, a.routes[i]))
    && (forall i, j | 0 <= i < j < n && a.routes[i].active && a.routes[j].active ::
          a.routes[i].principal != a.routes[j].principal && a.routes[i].tag != a.routes[j].tag)
  }

  lemma AddRowExact(a: Authority, t: Tables, r: Route)
    ensures AddRow(a, t, r).Success? <==> RowOk(a, r) && r.principal !in t.userRoutes && r.tag !in t.byTag
    ensures AddRow(a, t, r).Success? ==>
              r.egress in a.endpoints && AddRow(a, t, r).value == Tables(t.userRoutes[r.principal := r.tag], t.byTag[r.tag := OutboundOf(a, r)])
  {
  }

  lemma SoundStep(a: Authority, t: Tables, n: nat)
    requires 0 < n <= |a.routes| && a.routes[n - 1].active
    requires forall p :: p in t.userRoutes <==> HasPrincipal(a, n - 1, p)
    requires forall g :: g in t.byTag <==> HasTag(a, n - 1, g)
    ensures SoundUpTo(a, n) <==>
              && SoundUpTo(a, n - 1) && RowOk(a, a.routes[n - 1])
              && a.routes[n - 1].principal !in t.userRoutes && a.routes[n - 1].tag !in t.byTag
  {
  }

  lemma HoldsStep(a: Authority, t: Tables, n: nat)
    requires 0 < n <= |a.routes| && a.routes[n - 1].active && Holds(a, t, n - 1)
    requires var r := a.routes[n - 1]; r.egress in a.endpoints && r.principal !in t.userRoutes && r.tag !in t.byTag
    ensures var r := a.routes[n - 1];
            Holds(a, Tables(t.userRoutes[r.principal := r.tag], t.byTag[r.tag := OutboundOf(a, r)]), n)
  {
    hide OutboundOf;
    var r := a.routes[n - 1];
    var t' := Tables(t.userRoutes[r.principal := r.tag], t.byTag[r.tag := OutboundOf(a, r)]);
    forall i | 0 <= i < n && a.routes[i].active
      ensures Recorded(a, t', a.routes[i])
    {
      if i < n - 1 {
        assert Recorded(a, t, a.routes[i]);
      }
    }
    forall p
      ensures p in t'.userRoutes <==> HasPrincipal(a, n, p)
    {
      assert HasPrincipal(a, n, p) <==> HasPrincipal(a, n - 1, p) || p == r.principal;
    }
    forall g
      ensures g in t'.byTag <==> HasTag(a, n, g)
    {
      assert HasTag(a, n, g) <==> HasTag(a, n - 1, g) || g == r.tag;
    }
  }

  /** A row that is not active, or a prefix that is not sound, decides nothing. */
  lemma InactiveStep(a: Authority, n: nat)
    requires 0 < n <= |a.routes|
    ensures SoundUpTo(a, n) ==> SoundUpTo(a, n - 1)
    ensures !a.routes[n - 1].active ==> (SoundUpTo(a, n) <==> SoundUpTo(a, n - 1))
    ensures !a.routes[n - 1].active ==> forall t :: Holds(a, t, n - 1) ==> Holds(a, t, n)
  {
    hide RowOk, Recorded;
    if !a.routes[n - 1].active {
      forall p
        ensures HasPrincipal(a, n, p) <==> HasPrincipal(a, n - 1, p)
      {
      }
      forall g
        ensures HasTag(a, n, g) <==> HasTag(a, n - 1, g)
      {
      }
    }
  }

  lemma ActiveStep(a: Authority, t: Tables, n: nat)
    requires 0 < n <= |a.routes| && a.routes[n - 1].active && SoundUpTo(a, n - 1) && Holds(a, t, n - 1)
    ensures var added := AddRow(a, t, a.routes[n - 1]);
            && (added.Success? <==> SoundUpTo(a, n))
            && (added.Success? ==> Holds(a, added.value, n))
  {
    hide AddRow, RowOk, OutboundOf, SoundUpTo, Recorded, HasPrincipal, HasTag;
    AddRowExact(a, t, a.routes[n - 1]);
    SoundStep(a, t, n);
    if AddRow(a, t, a.routes[n - 1]).Success? {
      HoldsStep(a, t, n);
    }
  }

  lemma {:induction false} CollectExact(a: Authority, n: nat)
    requires n <= |a.routes|
    ensures Collect(a, n).Success? <==> SoundUpTo(a, n)
    ensures Collect(a, n).Success? ==> Holds(a, Collect(a, n).value, n)
  {
    if n == 0 {
      NothingCollected(a);
    } else {
      hide AddRow, SoundUpTo, Holds;
      CollectExact(a, n - 1);
      InactiveStep(a, n);
      if Collect(a, n - 1).Success? && a.routes[n - 1].active {
        ActiveStep(a, Collect(a, n - 1).value, n);
      }
    }
  }

  lemma NothingCollected(a: Authority)
    ensures SoundUpTo(a, 0) && Holds(a, Tables(map[], map[]), 0)
  {
  }

  /** The outbounds are the collected ones, once each, in tag order. */
  ghost predicate OutboundsHold(d: Desired, t: Tables) {
    && d.userRoutes == t.userRoutes
    && (forall i | 0 <= i < |d.outbounds| ::
          d.outbounds[i].tag in t.byTag && d.outbounds[i] == t.byTag[d.outbounds[i].tag])
    && (forall g | g in t.byTag :: t.byTag[g] in d.outbounds)
    && (forall i, j | 0 <= i < j < |d.outbounds| ::
          d.outbounds[i].tag != d.outbounds[j].tag && Le(d.outbounds[i].tag, d.outbounds[j].tag))
  }

  lemma FinishExact(t: Tables)
    requires forall g | g in t.byTag :: t.byTag[g].tag == g
    ensures OutboundsHold(Finish(t), t)
  {
    hide Le, Sorted, Least;
    var d := Finish(t);
    var tags := Sorted(t.byTag.Keys);
    forall i | 0 <= i < |tags|
      ensures tags[i] in t.byTag && d.outbounds[i] == t.byTag[tags[i]] && d.outbounds[i].tag == tags[i]
    {
      assert tags[i] in tags;
    }
    forall g | g in t.byTag
      ensures t.byTag[g] in d.outbounds
    {
      assert g in tags;
      var i :| 0 <= i < |tags| && tags[i] == g;
      assert d.outbounds[i] == t.byTag[g];
    }
  }

  /** The snapshot exists exactly when the tables are sound, and then it says exactly what the
      active rows say. */
  lemma SnapshotExact(a: Authority)
    ensures Snapshot(a).Success? <==> Sound(a)
    ensures Snapshot(a).Success? ==>
              && Holds(a, Collect(a, |a.routes|).value, |a.routes|)
              && OutboundsHold(Snapshot(a).value, Collect(a, |a.routes|).value)
  {
    hide AddRow, RowOk, Collect;
    CollectExact(a, |a.routes|);
    if Snapshot(a).Success? {
      var t := Collect(a, |a.routes|).value;
      forall g | g in t.byTag
        ensures t.byTag[g].tag == g
      {
        assert HasTag(a, |a.routes|, g);
        var i :| 0 <= i < |a.routes| && a.routes[i].active && a.routes[i].tag == g;
        assert Recorded(a, t, a.routes[i]);
      }
      FinishExact(t);
    }
  }

  /** The principals of a snapshot are those of the active rows. */
  lemma SnapshotPrincipals(a: Authority, p: string)
    requires Snapshot(a).Success?
    ensures p in Snapshot(a).value.userRoutes <==> HasPrincipal(a, |a.routes|, p)
  {
    hide Collect, Sound, Recorded, HasPrincipal, HasTag, Le;
    SnapshotExact(a);
  }

  // ------------------------------------------------------------ the writers

  ghost predicate Routed(a: Authority, subscription: nat) {
    exists i :: 0 <= i < |a.routes| && a.routes[i].active && a.routes[i].subscription == subscription
  }

  /** An egress binding of a subscription without an active route is invisible to the snapshot. */
  lemma {:induction false} UnroutedBindingIsInvisible(a: Authority, subscription: nat, b: EgressBinding, n: nat)
    requires n <= |a.routes| && !Routed(a, subscription)
    ensures Collect(a.(bindings := a.bindings[subscription := b]), n) == Collect(a, n)
  {
    if n > 0 {
      UnroutedBindingIsInvisible(a, subscription, b, n - 1);
    }
  }
}
