/** Which desired states compose, spelled out on their text and numbers alone: an independent reference
    for the validators of module MihomoProjection
    (backend/app/providers/forwarder/mihomo_projection.py, lines 150-503). */
module MihomoAcceptance {
  import opened Limits
  import opened MihomoProjection
  import opened MihomoRules
  import opened Strings
  import opened Wrappers

  /** Text that is one field of a rule and needs no stripping. */
  predicate Plain(s: string) {
    && s != "" && !IsSpace(s[0]) && !IsSpace(s[|s| - 1])
    && forall i | 0 <= i < |s| :: s[i] != ',' && s[i] >= ' '
  }

  /** A name that cannot be mistaken for a target the forwarder has built in. */
  predicate OwnName(name: Option<string>) {
    && name.Some? && Plain(name.value)
    && Lower(name.value) != "direct" && Lower(name.value) != "block"
    && Lower(name.value) != "reject" && Lower(name.value) != "reject-drop"
    && Lower(name.value) != "pass" && Lower(name.value) != "pass-rule" && Lower(name.value) != "compatible"
  }

  /** The blocking target is written BLOCK and in no other way. */
  predicate Target(t: string) {
    Plain(t) && (Lower(t) == "block" ==> t == "BLOCK")
  }

  /** Text with something to see in it, and no control characters once it is stripped. */
  predicate Visible(s: string) {
    && (exists i :: 0 <= i < |s| && !IsSpace(s[i]))
    && forall i | 0 <= i < |Strip(s)| :: Strip(s)[i] >= ' '
  }

  /** Every name a target can have, in the order of the document: proxies, materialized proxies, egress
      entries. */
  function ProxyNames(s: State): (r: seq<Option<string>>)
    ensures |r| == |s.proxies| + |s.materialized| + |s.egress|
  {
    seq(|s.proxies| + |s.materialized| + |s.egress|, i requires 0 <= i < |s.proxies| + |s.materialized| + |s.egress| =>
      if i < |s.proxies| then s.proxies[i].name
      else if i < |s.proxies| + |s.materialized| then s.materialized[i - |s.proxies|].name
      else Some(s.egress[i - |s.proxies| - |s.materialized|].name))
  }

  ghost predicate Defines(s: State, name: string) {
    || (exists i :: 0 <= i < |ProxyNames(s)| && ProxyNames(s)[i] == Some(name))
    || (exists i :: 0 <= i < |s.groups| && s.groups[i].name == Some(name))
  }

  ghost predicate ListenersOk(s: State) {
    && |s.listeners| > 0
    && (forall i | 0 <= i < |s.listeners| ::
          var l := s.listeners[i];
          && Visible(l.name) && Visible(l.listen) && 1 <= l.port <= 65535
          && (l.kind == "socks" || l.kind == "http" || l.kind == "mixed")
          && (Strip(l.listen) == "127.0.0.1" ==> l.port != s.mixedPort)
          && Target(l.proxy) && (l.proxy == "BLOCK" || Defines(s, l.proxy)))
    && (forall i, j | 0 <= i < j < |s.listeners| ::
          && Strip(s.listeners[i].name) != Strip(s.listeners[j].name)
          && (Strip(s.listeners[i].listen) != Strip(s.listeners[j].listen) || s.listeners[i].port != s.listeners[j].port))
  }

  /** A group lists proxies that exist, under a name of its own. */
  ghost predicate GroupFits(s: State, g: Group) {
    && OwnName(g.name) && g.typed && g.refs.Some?
    && forall k | 0 <= k < |g.refs.value| ::
         exists p :: 0 <= p < |ProxyNames(s)| && ProxyNames(s)[p] == Some(g.refs.value[k])
  }

  ghost predicate NamesOk(s: State) {
    && (forall i | 0 <= i < |s.proxies| :: s.proxies[i].typed)
    && (forall i | 0 <= i < |s.materialized| :: s.materialized[i].typed)
    && (forall i | 0 <= i < |s.egress| ::
          (s.egress[i].protocol == "socks" || s.egress[i].protocol == "socks5") && 1 <= s.egress[i].port <= 65535)
    && (forall i | 0 <= i < |ProxyNames(s)| :: OwnName(ProxyNames(s)[i]))
    && (forall i, j | 0 <= i < j < |ProxyNames(s)| :: ProxyNames(s)[i] != ProxyNames(s)[j])
    && (forall i | 0 <= i < |s.groups| :: GroupFits(s, s.groups[i]))
    && (forall i, j | 0 <= i < j < |s.groups| :: s.groups[i].name != s.groups[j].name)
    && (forall i, j | 0 <= i < |ProxyNames(s)| && 0 <= j < |s.groups| :: ProxyNames(s)[i] != s.groups[j].name)
  }

  /** A rule with a value: a host name, or a network. */
  predicate Selects(c: Codec, r: RawRule) {
    && r.kind.Some? && r.target.Some? && Target(r.target.value) && r.value.Text? && !Unsafe(r.value.text)
    && (exists i :: 0 <= i < |r.value.text| && !IsSpace(r.value.text[i]))
    && (|| (Upper(r.kind.value) in {"DOMAIN", "DOMAIN-SUFFIX"} && HostName(Lower(Strip(r.value.text))))
        || (Upper(r.kind.value) == "IP-CIDR" && c.parse(Strip(r.value.text)).Some?
            && WellFormed(c.parse(Strip(r.value.text)).value)))
  }

  /** The rule for everything else. */
  predicate MatchesAll(r: RawRule) {
    r.kind.Some? && r.target.Some? && Upper(r.kind.value) == "MATCH" && (r.value == Missing || r.value == Text(""))
  }

  ghost predicate RulesOk(c: Codec, s: State) {
    && |s.rules| > 0
    && (forall i | 0 <= i < |s.rules| - 1 ::
          Selects(c, s.rules[i]) && (s.rules[i].target == Some("BLOCK") || Defines(s, s.rules[i].target.value)))
    && MatchesAll(s.rules[|s.rules| - 1]) && s.rules[|s.rules| - 1].target == Some("BLOCK")
  }

  ghost predicate Acceptable(c: Codec, s: State) {
    && 1 <= s.mixedPort <= 65535 && !s.legacyListeners && !s.policy
    && ListenersOk(s) && NamesOk(s) && RulesOk(c, s)
    && forall i | 0 <= i < |s.dns| ::
         || ((s.dns[i].key == "enable" || s.dns[i].key == "ipv6") && s.dns[i].value.Flag?)
         || (s.dns[i].key == "nameserver" && s.dns[i].value.Items?)
  }

  // ------------------------------------------------------------- the proofs

  lemma PlainIsStrippedAndSafe(s: string)
    ensures Plain(s) <==> s != "" && Stripped(s) && !Unsafe(s)
  {
  }

  lemma OwnNameIsNameOk(n: Option<string>)
    ensures OwnName(n) <==> NameOk(n)
  {
    hide Lower, Plain, Stripped, Unsafe;
    if n.Some? {
      PlainIsStrippedAndSafe(n.value);
    }
  }

  lemma TargetIsTargetOk(t: string)
    ensures Target(t) <==> TargetOk(t)
  {
    hide Lower, Plain, Stripped, Unsafe;
    PlainIsStrippedAndSafe(t);
  }

  lemma ListenerIsListenerOk(l: Listener, mixedPort: int)
    ensures ListenerOk(l, mixedPort) <==>
              && Visible(l.name) && Visible(l.listen) && 1 <= l.port <= 65535
              && (l.kind == "socks" || l.kind == "http" || l.kind == "mixed")
              && (Strip(l.listen) == "127.0.0.1" ==> l.port != mixedPort) && Target(l.proxy)
  {
    hide Strip, Target, TargetOk;
    TargetIsTargetOk(l.proxy);
  }

  lemma SelectsIsRead(c: Codec, r: RawRule)
    ensures ReadRule(c, r).Some? && !ReadRule(c, r).value.kind.MATCH? <==> Selects(c, r)
    ensures Selects(c, r) ==> ReadRule(c, r).value.target == r.target.value
    ensures ReadRule(c, r).Some? && ReadRule(c, r).value == Rule(MATCH, "", "BLOCK") <==> MatchesAll(r) && r.target == Some("BLOCK")
  {
    hide Upper, Lower, Strip, HostName, Target, TargetOk, Unsafe;
    if r.target.Some? {
      TargetIsTargetOk(r.target.value);
    }
    TargetIsTargetOk("BLOCK");
    BlockIsATarget();
  }

  lemma BlockIsATarget()
    ensures Target("BLOCK")
  {
  }

  lemma EffectiveNames(s: State)
    ensures |Effective(s).proxies| == |ProxyNames(s)|
    ensures forall i | 0 <= i < |ProxyNames(s)| :: Effective(s).proxies[i].name == ProxyNames(s)[i]
    ensures forall name :: HasProxy(Effective(s).proxies, name) <==>
              exists i :: 0 <= i < |ProxyNames(s)| && ProxyNames(s)[i] == Some(name)
    ensures forall name :: Defines(s, name) <==> HasProxy(Effective(s).proxies, name) || HasGroup(s.groups, name)
  {
    var p := Effective(s).proxies;
    forall i | 0 <= i < |ProxyNames(s)|
      ensures p[i].name == ProxyNames(s)[i]
    {
    }
    forall name
      ensures HasProxy(p, name) <==> exists i :: 0 <= i < |ProxyNames(s)| && ProxyNames(s)[i] == Some(name)
    {
      if HasProxy(p, name) {
        var i :| 0 <= i < |p| && p[i].name == Some(name);
        assert ProxyNames(s)[i] == Some(name);
      }
    }
  }

  lemma TypedProxies(s: State)
    ensures (forall i | 0 <= i < |Effective(s).proxies| :: Effective(s).proxies[i].typed) <==>
            && (forall i | 0 <= i < |s.proxies| :: s.proxies[i].typed)
            && (forall i | 0 <= i < |s.materialized| :: s.materialized[i].typed)
  {
    var p := Effective(s).proxies;
    if forall i | 0 <= i < |p| :: p[i].typed {
      forall i | 0 <= i < |s.proxies|
        ensures s.proxies[i].typed
      {
        assert p[i] == s.proxies[i];
      }
      forall i | 0 <= i < |s.materialized|
        ensures s.materialized[i].typed
      {
        assert p[|s.proxies| + i] == s.materialized[i];
      }
    }
  }

  lemma ListenersAgree(s: State)
    ensures ListenersOk(s) <==>
            ListenersValid(Effective(s)) && forall i | 0 <= i < |s.listeners| :: Allowed(Effective(s), s.listeners[i].proxy)
  {
    hide ListenerOk, Visible, Target, Strip, Defines, HasProxy, HasGroup;
    EffectiveNames(s);
    forall i | 0 <= i < |s.listeners|
      ensures ListenerOk(s.listeners[i], s.mixedPort) <==>
                var l := s.listeners[i];
                && Visible(l.name) && Visible(l.listen) && 1 <= l.port <= 65535
                && (l.kind == "socks" || l.kind == "http" || l.kind == "mixed")
                && (Strip(l.listen) == "127.0.0.1" ==> l.port != s.mixedPort) && Target(l.proxy)
    {
      ListenerIsListenerOk(s.listeners[i], s.mixedPort);
    }
  }

  lemma GroupAgrees(s: State, g: Group)
    ensures GroupOk(g, Effective(s).proxies) <==> GroupFits(s, g)
  {
    hide OwnName, NameOk, HasProxy, Defines, Effective;
    EffectiveNames(s);
    OwnNameIsNameOk(g.name);
    if g.refs.Some? {
      forall k | 0 <= k < |g.refs.value|
        ensures HasProxy(Effective(s).proxies, g.refs.value[k]) <==>
                  exists p :: 0 <= p < |ProxyNames(s)| && ProxyNames(s)[p] == Some(g.refs.value[k])
      {
      }
    }
  }

  /** The names and types of the proxies, and the entries they come from. */
  lemma ProxiesAgree(s: State)
    ensures (forall i | 0 <= i < |s.egress| :: EgressOk(s.egress[i]))
            && (forall i | 0 <= i < |Effective(s).proxies| :: NameOk(Effective(s).proxies[i].name) && Effective(s).proxies[i].typed)
            <==>
            && (forall i | 0 <= i < |s.proxies| :: s.proxies[i].typed)
            && (forall i | 0 <= i < |s.materialized| :: s.materialized[i].typed)
            && (forall i | 0 <= i < |s.egress| ::
                  (s.egress[i].protocol == "socks" || s.egress[i].protocol == "socks5") && 1 <= s.egress[i].port <= 65535)
            && (forall i | 0 <= i < |ProxyNames(s)| :: OwnName(ProxyNames(s)[i]))
  {
    hide OwnName, NameOk, Defines, HasGroup, HasProxy, Stripped, Effective;
    EffectiveNames(s);
    TypedProxies(s);
    forall n
      ensures OwnName(n) <==> NameOk(n)
    {
      OwnNameIsNameOk(n);
    }
    forall i | 0 <= i < |s.egress|
      ensures ProxyNames(s)[|s.proxies| + |s.materialized| + i] == Some(s.egress[i].name)
      ensures OwnName(Some(s.egress[i].name)) ==> s.egress[i].name != "" && Stripped(s.egress[i].name)
    {
      NameIsStripped(s.egress[i].name);
    }
  }

  lemma NamesAgree(s: State)
    ensures NamesOk(s) <==> (forall i | 0 <= i < |s.egress| :: EgressOk(s.egress[i])) && NamesValid(Effective(s))
  {
    hide OwnName, NameOk, Defines, HasGroup, HasProxy, EgressOk, GroupOk, GroupFits, ProxyNames;
    EffectiveNames(s);
    ProxiesAgree(s);
    forall i | 0 <= i < |s.groups|
      ensures GroupOk(s.groups[i], Effective(s).proxies) <==> GroupFits(s, s.groups[i])
    {
      GroupAgrees(s, s.groups[i]);
    }
  }

  lemma NameIsStripped(name: string)
    ensures OwnName(Some(name)) ==> name != "" && Stripped(name)
  {
  }

  lemma RulesAgree(c: Codec, s: State)
    ensures RulesOk(c, s) <==> RulesValid(c, Effective(s))
  {
    hide ReadRule, Selects, MatchesAll, Defines, HasProxy, HasGroup;
    EffectiveNames(s);
    forall i | 0 <= i < |s.rules|
      ensures ReadRule(c, s.rules[i]).Some? && !ReadRule(c, s.rules[i]).value.kind.MATCH? <==> Selects(c, s.rules[i])
      ensures Selects(c, s.rules[i]) ==> s.rules[i].target.Some? && ReadRule(c, s.rules[i]).value.target == s.rules[i].target.value
      ensures ReadRule(c, s.rules[i]).Some? && ReadRule(c, s.rules[i]).value == Rule(MATCH, "", "BLOCK")
              <==> MatchesAll(s.rules[i]) && s.rules[i].target == Some("BLOCK")
    {
      SelectsIsRead(c, s.rules[i]);
      SelectsHasTarget(c, s.rules[i]);
    }
  }

  lemma SelectsHasTarget(c: Codec, r: RawRule)
    ensures Selects(c, r) ==> r.target.Some?
  {
  }

  /** A state composes exactly when it is acceptable as written. */
  lemma ComposesExactly(c: Codec, s: State)
    ensures Composable(c, s) <==> Acceptable(c, s)
  {
    hide ListenersOk, NamesOk, RulesOk, ListenersValid, NamesValid, RulesValid, EgressOk, Allowed, EgressMappings;
    ListenersAgree(s);
    NamesAgree(s);
    RulesAgree(c, s);
  }
}
