/** The forwarder's configuration compiler: validation of every section of a desired state, and its
    composition into one document (backend/app/providers/forwarder/mihomo_projection.py). */
module MihomoProjection {
  import opened Limits
  import opened MihomoRules
  import opened Strings
  import opened Wrappers
  import NetworkText

  // ----------------------------------------------------------------- inputs

  datatype Listener = Listener(name: string, kind: string, listen: string, port: int, proxy: string)

  /** A proxy mapping: its name when that is text, and whether its type is. */
  datatype Proxy = Proxy(name: Option<string>, typed: bool)

  /** `refs` is None when the members are not a tuple of text. */
  datatype Group = Group(name: Option<string>, typed: bool, refs: Option<seq<string>>)

  datatype RawValue = Missing | Text(text: string) | NotText

  datatype RawRule = RawRule(kind: Option<string>, target: Option<string>, value: RawValue)

  datatype DnsValue = Flag | Items | OtherValue

  datatype DnsEntry = DnsEntry(key: string, value: DnsValue)

  datatype EgressProxy = EgressProxy(name: string, protocol: string, port: int)

  datatype State = State(
    mixedPort: int,
    legacyListeners: bool,
    policy: bool,
    listeners: seq<Listener>,
    proxies: seq<Proxy>,
    materialized: seq<Proxy>,
    egress: seq<EgressProxy>,
    groups: seq<Group>,
    rules: seq<RawRule>,
    dns: seq<DnsEntry>)

  datatype Document = Document(
    listeners: seq<Listener>,
    proxies: seq<Proxy>,
    groups: seq<Group>,
    rules: seq<string>,
    dns: seq<DnsEntry>)

  const RESERVED := {"direct", "reject", "reject-drop", "pass", "pass-rule", "compatible", "block"}
  const LOOPBACK := "127.0.0.1"

  // ------------------------------------------------------- what is accepted

  /** `_validate_target`. */
  predicate TargetOk(t: string) {
    && (Lower(Strip(t)) == "block" ==> t == BLOCK)
    && Stripped(t) && t != "" && !Unsafe(t)
  }

  predicate Control(s: string) {
    exists i :: 0 <= i < |s| && s[i] < ' '
  }

  predicate ListenerOk(l: Listener, mixedPort: int) {
    && !Blank(l.name) && !Blank(l.listen) && TargetOk(l.proxy)
    && !Control(Strip(l.name)) && !Control(Strip(l.listen))
    && l.kind in {"socks", "http", "mixed"} && ValidPort(l.port)
    && !(Strip(l.listen) == LOOPBACK && l.port == mixedPort)
  }

  /** A name of a proxy or group: plain text that no built-in target could be mistaken for. */
  predicate NameOk(name: Option<string>) {
    && name.Some? && name.value != "" && Stripped(name.value) && !Unsafe(name.value)
    && Lower(name.value) !in RESERVED
  }

  ghost predicate HasProxy(proxies: seq<Proxy>, name: string) {
    exists i :: 0 <= i < |proxies| && proxies[i].name == Some(name)
  }

  ghost predicate HasGroup(groups: seq<Group>, name: string) {
    exists i :: 0 <= i < |groups| && groups[i].name == Some(name)
  }

  ghost predicate GroupOk(g: Group, proxies: seq<Proxy>) {
    && NameOk(g.name) && g.typed && g.refs.Some?
    && forall k | 0 <= k < |g.refs.value| :: HasProxy(proxies, g.refs.value[k])
  }

  function KindOf(text: string): Option<Kind> {
    var k := Upper(text);
    if k == "MATCH" then Some(MATCH)
    else if k == "DOMAIN" then Some(DOMAIN)
    else if k == "DOMAIN-SUFFIX" then Some(DOMAIN_SUFFIX)
    else if k == "IP-CIDR" then Some(IP_CIDR)
    else None
  }

  /** One rule of the desired state, if it can be understood. */
  function ReadRule(c: Codec, r: RawRule): Option<Rule> {
    if r.kind.None? || r.target.None? || !TargetOk(r.target.value) then None
    else
      var kind := KindOf(r.kind.value);
      if kind.None? then None
      else if kind.value.MATCH? then
        if r.value.Missing? || r.value == Text("") then Some(Rule(MATCH, "", r.target.value)) else None
      else if !r.value.Text? || r.value.text == ""
           || CanonicalRuleValue(c, KindText(kind.value), r.value.text).None? then None
      else Some(Rule(kind.value, r.value.text, r.target.value))
  }

  predicate DnsOk(e: DnsEntry) {
    (e.key in {"enable", "ipv6"} && e.value.Flag?) || (e.key == "nameserver" && e.value.Items?)
  }

  /** A target that the document itself defines, or the blocking one. */
  ghost predicate Allowed(s: State, target: string) {
    target == BLOCK || HasProxy(s.proxies, target) || HasGroup(s.groups, target)
  }

  function NameOf(l: Listener): string {
    Strip(l.name)
  }

  function BindingOf(l: Listener): (string, int) {
    (Strip(l.listen), l.port)
  }

  ghost predicate ListenersValid(s: State) {
    && s.listeners != []
    && (forall i | 0 <= i < |s.listeners| :: ListenerOk(s.listeners[i], s.mixedPort))
    && (forall i, j | 0 <= i < j < |s.listeners| ::
          NameOf(s.listeners[i]) != NameOf(s.listeners[j]) && BindingOf(s.listeners[i]) != BindingOf(s.listeners[j]))
  }

  ghost predicate NamesValid(s: State) {
    && (forall i | 0 <= i < |s.proxies| :: NameOk(s.proxies[i].name) && s.proxies[i].typed)
    && (forall i, j | 0 <= i < j < |s.proxies| :: s.proxies[i].name != s.proxies[j].name)
    && (forall i | 0 <= i < |s.groups| :: GroupOk(s.groups[i], s.proxies))
    && (forall i, j | 0 <= i < j < |s.groups| :: s.groups[i].name != s.groups[j].name)
    && (forall i, j | 0 <= i < |s.proxies| && 0 <= j < |s.groups| :: s.proxies[i].name != s.groups[j].name)
  }

  /** Exactly one MATCH, at the end, and it blocks; every other target is defined. */
  ghost predicate RulesValid(c: Codec, s: State) {
    && s.rules != []
    && (forall i | 0 <= i < |s.rules| :: ReadRule(c, s.rules[i]).Some?)
    && (forall i | 0 <= i < |s.rules| - 1 ::
          var r := ReadRule(c, s.rules[i]).value; !r.kind.MATCH? && Allowed(s, r.target))
    && ReadRule(c, s.rules[|s.rules| - 1]).value == Rule(MATCH, "", BLOCK)
  }

  /** The states that `_validate_sections` accepts. */
  ghost predicate Valid(c: Codec, s: State) {
    && ValidPort(s.mixedPort) && !s.legacyListeners && !s.policy
    && ListenersValid(s) && NamesValid(s)
    && (forall i | 0 <= i < |s.listeners| :: Allowed(s, s.listeners[i].proxy))
    && RulesValid(c, s)
    && forall i | 0 <= i < |s.dns| :: DnsOk(s.dns[i])
  }

  // ------------------------------------------------------------- validation

  method ValidateListeners(s: State) returns (valid: bool)
    ensures valid <==> ListenersValid(s)
  {
    hide ListenerOk, NameOf, BindingOf;
    if s.listeners == [] {
      return false;
    }
    var names: set<string> := {};
    var bindings: set<(string, int)> := {};
    for n := 0 to |s.listeners|
      invariant forall i | 0 <= i < n :: ListenerOk(s.listeners[i], s.mixedPort)
      invariant forall i, j | 0 <= i < j < n ::
                  NameOf(s.listeners[i]) != NameOf(s.listeners[j]) && BindingOf(s.listeners[i]) != BindingOf(s.listeners[j])
      invariant forall x :: x in names <==> exists i :: 0 <= i < n && NameOf(s.listeners[i]) == x
      invariant forall x :: x in bindings <==> exists i :: 0 <= i < n && BindingOf(s.listeners[i]) == x
    {
      var l := s.listeners[n];
      if !ListenerOk(l, s.mixedPort) {
        return false;
      }
      var name, binding := NameOf(l), BindingOf(l);
      if name in names || binding in bindings {
        return false;
      }
      names := names + {name};
      bindings := bindings + {binding};
    }
    valid := true;
  }

  method CollectProxies(proxies: seq<Proxy>) returns (names: Option<set<string>>)
    ensures names.Some? <==>
            && (forall i | 0 <= i < |proxies| :: NameOk(proxies[i].name) && proxies[i].typed)
            && (forall i, j | 0 <= i < j < |proxies| :: proxies[i].name != proxies[j].name)
    ensures names.Some? ==> forall x :: x in names.value <==> HasProxy(proxies, x)
  {
    hide Stripped, Unsafe, Lower;
    var seen: set<string> := {};
    for n := 0 to |proxies|
      invariant forall i | 0 <= i < n :: NameOk(proxies[i].name) && proxies[i].typed
      invariant forall i, j | 0 <= i < j < n :: proxies[i].name != proxies[j].name
      invariant forall x :: x in seen <==> exists i :: 0 <= i < n && proxies[i].name == Some(x)
    {
      var p := proxies[n];
      if !NameOk(p.name) || !p.typed || p.name.value in seen {
        return None;
      }
      seen := seen + {p.name.value};
    }
    names := Some(seen);
  }

  method AllDefined(refs: seq<string>, names: set<string>) returns (defined: bool)
    ensures defined <==> forall k | 0 <= k < |refs| :: refs[k] in names
  {
    for k := 0 to |refs|
      invariant forall m | 0 <= m < k :: refs[m] in names
    {
      if refs[k] !in names {
        return false;
      }
    }
    defined := true;
  }

  method CollectGroups(groups: seq<Group>, proxies: seq<Proxy>, proxyNames: set<string>) returns (names: Option<set<string>>)
    requires forall x :: x in proxyNames <==> HasProxy(proxies, x)
    ensures names.Some? <==>
            && (forall i | 0 <= i < |groups| :: GroupOk(groups[i], proxies))
            && (forall i, j | 0 <= i < j < |groups| :: groups[i].name != groups[j].name)
    ensures names.Some? ==> forall x :: x in names.value <==> HasGroup(groups, x)
  {
    hide Stripped, Unsafe, Lower, HasProxy;
    var seen: set<string> := {};
    for n := 0 to |groups|
      invariant forall i | 0 <= i < n :: GroupOk(groups[i], proxies)
      invariant forall i, j | 0 <= i < j < n :: groups[i].name != groups[j].name
      invariant forall x :: x in seen <==> exists i :: 0 <= i < n && groups[i].name == Some(x)
    {
      var g := groups[n];
      if !NameOk(g.name) || !g.typed || g.refs.None? {
        return None;
      }
      var defined := AllDefined(g.refs.value, proxyNames);
      if !defined || g.name.value in seen {
        return None;
      }
      seen := seen + {g.name.value};
    }
    names := Some(seen);
  }

  method ValidateRules(c: Codec, s: State, targets: set<string>) returns (valid: bool)
    requires forall x :: x in targets <==> Allowed(s, x)
    ensures valid <==> RulesValid(c, s)
  {
    hide ReadRule, Allowed;
    var fallbacks := 0;
    var last: Option<nat> := None;
    for n := 0 to |s.rules|
      invariant forall i | 0 <= i < n :: ReadRule(c, s.rules[i]).Some?
      invariant fallbacks == 0 <==> forall i | 0 <= i < n :: !ReadRule(c, s.rules[i]).value.kind.MATCH?
      invariant fallbacks >= 0
      invariant last.Some? <==> fallbacks > 0
      invariant last.Some? ==> last.value < n && ReadRule(c, s.rules[last.value]).value.kind.MATCH?
      invariant last.Some? ==> forall i | last.value < i < n :: !ReadRule(c, s.rules[i]).value.kind.MATCH?
      invariant fallbacks == 1 <==> last.Some? && forall i | 0 <= i < last.value :: !ReadRule(c, s.rules[i]).value.kind.MATCH?
    {
      var r := ReadRule(c, s.rules[n]);
      if r.None? {
        return false;
      }
      if r.value.kind.MATCH? {
        fallbacks := fallbacks + 1;
        last := Some(n);
      }
    }
    if fallbacks != 1 || last.value != |s.rules| - 1 {
      return false;
    }
    if ReadRule(c, s.rules[last.value]).value.target != BLOCK {
      return false;
    }
    MatchHasNoValue(c, s.rules[last.value]);
    for n := 0 to |s.rules|
      invariant forall i | 0 <= i < n && !ReadRule(c, s.rules[i]).value.kind.MATCH? ::
                  Allowed(s, ReadRule(c, s.rules[i]).value.target)
    {
      var r := ReadRule(c, s.rules[n]).value;
      if !r.kind.MATCH? && r.target !in targets {
        return false;
      }
    }
    valid := true;
  }

  lemma MatchHasNoValue(c: Codec, r: RawRule)
    requires ReadRule(c, r).Some? && ReadRule(c, r).value.kind.MATCH?
    ensures ReadRule(c, r).value.value == ""
  {
  }

  /** `_validate_sections`. */
  method ValidateSections(c: Codec, s: State) returns (valid: bool)
    ensures valid <==> Valid(c, s)
  {
    hide ListenersValid, RulesValid, NameOk;
    if !ValidPort(s.mixedPort) || s.legacyListeners || s.policy {
      return false;
    }
    var listeners := ValidateListeners(s);
    if !listeners {
      return false;
    }
    var proxyNames := CollectProxies(s.proxies);
    if proxyNames.None? {
      return false;
    }
    var groupNames := CollectGroups(s.groups, s.proxies, proxyNames.value);
    if groupNames.None? {
      return false;
    }
    if proxyNames.value * groupNames.value != {} {
      var x :| x in proxyNames.value * groupNames.value;
      assert HasProxy(s.proxies, x) && HasGroup(s.groups, x);
      return false;
    }
    NoSharedName(s, proxyNames.value, groupNames.value);
    var targets := proxyNames.value + groupNames.value + {BLOCK};
    for n := 0 to |s.listeners|
      invariant forall i | 0 <= i < n :: Allowed(s, s.listeners[i].proxy)
    {
      if s.listeners[n].proxy !in targets {
        return false;
      }
    }
    var rules := ValidateRules(c, s, targets);
    if !rules {
      return false;
    }
    for n := 0 to |s.dns|
      invariant forall i | 0 <= i < n :: DnsOk(s.dns[i])
    {
      if !DnsOk(s.dns[n]) {
        return false;
      }
    }
    valid := true;
  }

  lemma NoSharedName(s: State, proxyNames: set<string>, groupNames: set<string>)
    requires forall x :: x in proxyNames <==> HasProxy(s.proxies, x)
    requires forall x :: x in groupNames <==> HasGroup(s.groups, x)
    requires proxyNames * groupNames == {}
    requires forall i | 0 <= i < |s.proxies| :: NameOk(s.proxies[i].name)
    ensures forall i, j | 0 <= i < |s.proxies| && 0 <= j < |s.groups| :: s.proxies[i].name != s.groups[j].name
  {
    forall i, j | 0 <= i < |s.proxies| && 0 <= j < |s.groups|
      ensures s.proxies[i].name != s.groups[j].name
    {
      var x := s.proxies[i].name.value;
      assert HasProxy(s.proxies, x) && x in proxyNames;
      assert x !in proxyNames * groupNames;
      assert !HasGroup(s.groups, x);
    }
  }

  // ------------------------------------------------------------ composition

  /** `_egress_proxy_mappings` accepts the entry. */
  predicate EgressOk(e: EgressProxy) {
    e.protocol in {"socks", "socks5"} && e.name != "" && Stripped(e.name) && ValidPort(e.port)
  }

  function EgressMappings(egress: seq<EgressProxy>): seq<Proxy> {
    seq(|egress|, i requires 0 <= i < |egress| => Proxy(Some(egress[i].name), true))
  }

  /** The proxies of the document: configured, materialized, and egress, in this order. */
  function Effective(s: State): State {
    s.(proxies := s.proxies + s.materialized + EgressMappings(s.egress))
  }

  function ListenerDoc(l: Listener): Listener {
    l.(proxy := RuntimeTarget(l.proxy))
  }

  ghost predicate Composable(c: Codec, s: State) {
    (forall i | 0 <= i < |s.egress| :: EgressOk(s.egress[i])) && Valid(c, Effective(s))
  }

  /** The desired rules, as they are understood. */
  function RulesOf(c: Codec, rules: seq<RawRule>): seq<Rule>
    requires forall i | 0 <= i < |rules| :: ReadRule(c, rules[i]).Some?
  {
    seq(|rules|, i requires 0 <= i < |rules| => ReadRule(c, rules[i]).value)
  }

  ghost predicate IsComposition(c: Codec, s: State, doc: Document)
    requires Composable(c, s)
  {
    && |doc.listeners| == |s.listeners|
    && (forall i | 0 <= i < |s.listeners| :: doc.listeners[i] == ListenerDoc(s.listeners[i]))
    && doc.proxies == Effective(s).proxies && doc.groups == s.groups && doc.dns == s.dns
    && AreLines(c, RulesOf(c, s.rules), doc.rules)
  }

  lemma ReadRuleSerializes(c: Codec, r: RawRule)
    requires ReadRule(c, r).Some?
    ensures Serialize(c, ReadRule(c, r).value).Some?
    ensures TargetOk(ReadRule(c, r).value.target)
  {
  }

  /** `compose_mihomo_document`, from a snapshot whose transports are materialized. */
  method ComposeDocument(c: Codec, s: State) returns (r: Option<Document>)
    ensures r.Some? <==> Composable(c, s)
    ensures r.Some? ==> IsComposition(c, s, r.value)
  {
    hide Valid, ReadRule, Serialize;
    for n := 0 to |s.egress|
      invariant forall i | 0 <= i < n :: EgressOk(s.egress[i])
    {
      if !EgressOk(s.egress[n]) {
        return None;
      }
    }
    var effective := Effective(s);
    var valid := ValidateSections(c, effective);
    if !valid {
      return None;
    }
    ValidRulesRead(c, effective);
    var listeners := [];
    for n := 0 to |s.listeners|
      invariant |listeners| == n && forall i | 0 <= i < n :: listeners[i] == ListenerDoc(s.listeners[i])
    {
      listeners := listeners + [ListenerDoc(s.listeners[n])];
    }
    var lines := [];
    for n := 0 to |s.rules|
      invariant |lines| == n && forall i | 0 <= i < n :: Serialize(c, ReadRule(c, s.rules[i]).value) == Some(lines[i])
    {
      ReadRuleSerializes(c, s.rules[n]);
      lines := lines + [Serialize(c, ReadRule(c, s.rules[n]).value).value];
    }
    r := Some(Document(listeners, effective.proxies, s.groups, lines, s.dns));
  }

  lemma ValidRulesRead(c: Codec, s: State)
    requires Valid(c, s)
    ensures forall i | 0 <= i < |s.rules| :: ReadRule(c, s.rules[i]).Some?
  {
  }

  // --------------------------------------------------------------- theorems

  lemma TargetIsOneField(c: Codec, r: RawRule)
    requires ReadRule(c, r).Some?
    ensures ',' !in ReadRule(c, r).value.target
  {
  }

  lemma {:induction false} BlockedAtTheEnd(c: Codec, rules: seq<Rule>, d: Destination)
    requires rules != [] && rules[|rules| - 1] == Rule(MATCH, "", BLOCK)
    ensures MihomoRules.Desired(c, rules, d).Some?
    ensures (forall i | 0 <= i < |rules| - 1 :: !Means(c, rules[i], d)) ==>
              MihomoRules.Desired(c, rules, d) == Some(REJECT)
  {
    if |rules| > 1 && !Means(c, rules[0], d) {
      BlockedAtTheEnd(c, rules[1..], d);
    }
  }

  // ---------------------------------------------- what was written, as text

  /** The destinations a rule is meant for, by the text its author wrote: the kind without regard to
      case, names without regard to case and surrounding space, networks by their prefix. */
  predicate IsMeantFor(c: Codec, r: RawRule, d: Destination)
    requires r.kind.Some?
  {
    var kind := Upper(r.kind.value);
    || kind == "MATCH"
    || (kind == "DOMAIN" && r.value.Text? && d.ByName? && Lower(d.host) == Lower(Strip(r.value.text)))
    || (kind == "DOMAIN-SUFFIX" && r.value.Text? && d.ByName?
        && (|| Lower(d.host) == Lower(Strip(r.value.text))
            || EndsWith(Lower(d.host), "." + Lower(Strip(r.value.text)))))
    || (kind == "IP-CIDR" && r.value.Text? && d.ByAddress?
        && c.parse(Strip(r.value.text)).Some? && WellFormed(c.parse(Strip(r.value.text)).value)
        && SamePrefix(c.parse(Strip(r.value.text)).value, d.address))
  }

  /** First match over the rules as written; BLOCK is the built-in REJECT. */
  function Wanted(c: Codec, rules: seq<RawRule>, d: Destination): Option<string>
    requires forall i | 0 <= i < |rules| :: rules[i].kind.Some? && rules[i].target.Some?
  {
    if rules == [] then None
    else if IsMeantFor(c, rules[0], d) then
      Some(if rules[0].target.value == "BLOCK" then "REJECT" else rules[0].target.value)
    else Wanted(c, rules[1..], d)
  }

  /** Reading a rule keeps what was written. */
  lemma ReadRuleKeepsText(c: Codec, r: RawRule)
    requires ReadRule(c, r).Some?
    ensures var rule := ReadRule(c, r).value;
            && r.kind.Some? && r.target == Some(rule.target) && KindText(rule.kind) == Upper(r.kind.value)
            && (rule.kind.MATCH? || r.value == Text(rule.value))
  {
  }

  lemma ReadRuleKeepsMeaning(c: Codec, r: RawRule, d: Destination)
    requires ReadRule(c, r).Some?
    ensures r.kind.Some? && (Means(c, ReadRule(c, r).value, d) <==> IsMeantFor(c, r, d))
  {
    hide ReadRule, Strip, Lower, Upper, EndsWith, SamePrefix;
    ReadRuleKeepsText(c, r);
  }

  lemma {:induction false} WantedIsDesired(c: Codec, rules: seq<RawRule>, d: Destination)
    requires forall i | 0 <= i < |rules| :: ReadRule(c, rules[i]).Some?
    ensures forall i | 0 <= i < |rules| :: rules[i].kind.Some? && rules[i].target.Some?
    ensures Wanted(c, rules, d) == MihomoRules.Desired(c, RulesOf(c, rules), d)
  {
    hide ReadRule, Means, IsMeantFor;
    forall i | 0 <= i < |rules|
      ensures rules[i].kind.Some? && rules[i].target.Some?
    {
      ReadRuleKeepsText(c, rules[i]);
    }
    if rules != [] {
      ReadRuleKeepsText(c, rules[0]);
      ReadRuleKeepsMeaning(c, rules[0], d);
      assert RulesOf(c, rules)[1..] == RulesOf(c, rules[1..]);
      WantedIsDesired(c, rules[1..], d);
    }
  }

  /** The composed rules preserve meaning. For every destination the forwarder decides, it decides as
      the rules that were written do, first match first, and what none of them is meant for is
      rejected. */
  lemma ComposedRulesPreserveMeaning(c: Codec, s: State, doc: Document, d: Destination)
    requires Lawful(c) && Composable(c, s) && IsComposition(c, s, doc)
    ensures forall i | 0 <= i < |s.rules| :: s.rules[i].kind.Some? && s.rules[i].target.Some?
    ensures Runtime(c, doc.rules, d) == Wanted(c, s.rules, d)
    ensures Runtime(c, doc.rules, d).Some?
    ensures (forall i | 0 <= i < |s.rules| - 1 :: !IsMeantFor(c, s.rules[i], d)) ==> Runtime(c, doc.rules, d) == Some("REJECT")
  {
    hide Lawful, ReadRule, ListenersValid, NamesValid, Means, Allowed, IsMeantFor;
    var rules := RulesOf(c, s.rules);
    forall i | 0 <= i < |rules|
      ensures ',' !in rules[i].target && (s.rules[i].kind.Some? && (Means(c, rules[i], d) <==> IsMeantFor(c, s.rules[i], d)))
    {
      TargetIsOneField(c, s.rules[i]);
      ReadRuleKeepsMeaning(c, s.rules[i], d);
    }
    WantedIsDesired(c, s.rules, d);
    LinesMeanRules(c, rules, doc.rules, d);
    BlockedAtTheEnd(c, rules, d);
  }

  /** The same for the text of networks as the repository reads and prints it, of both families. */
  lemma ComposedTextPreservesMeaning(s: State, doc: Document, d: Destination)
    requires Composable(NetworkText.CODEC, s) && IsComposition(NetworkText.CODEC, s, doc)
    ensures forall i | 0 <= i < |s.rules| :: s.rules[i].kind.Some? && s.rules[i].target.Some?
    ensures Runtime(NetworkText.CODEC, doc.rules, d) == Wanted(NetworkText.CODEC, s.rules, d)
    ensures Runtime(NetworkText.CODEC, doc.rules, d).Some?
  {
    hide Lawful, Composable, IsComposition, Runtime, Wanted;
    NetworkText.CodecIsLawful();
    ComposedRulesPreserveMeaning(NetworkText.CODEC, s, doc, d);
  }

  /** The lines of the document, letter by letter: the kind in capitals, the canonical value unless the
      kind is MATCH, and the target, with BLOCK as REJECT. */
  lemma ComposedLinesAreText(c: Codec, s: State, doc: Document, i: nat)
    requires Composable(c, s) && IsComposition(c, s, doc) && i < |s.rules|
    ensures |doc.rules| == |s.rules|
    ensures var r := s.rules[i];
            && r.kind.Some? && r.target.Some?
            && var kind := Upper(r.kind.value);
               var target := if r.target.value == "BLOCK" then "REJECT" else r.target.value;
            && (kind == "MATCH" ==> doc.rules[i] == "MATCH," + target)
            && (kind == "DOMAIN" || kind == "DOMAIN-SUFFIX" ==>
                  r.value.Text? && doc.rules[i] == kind + "," + Lower(Strip(r.value.text)) + "," + target)
            && (kind == "IP-CIDR" ==>
                  && r.value.Text? && c.parse(Strip(r.value.text)).Some? && WellFormed(c.parse(Strip(r.value.text)).value)
                  && doc.rules[i] == "IP-CIDR," + c.show(Masked(c.parse(Strip(r.value.text)).value)) + "," + target)
            && kind in {"MATCH", "DOMAIN", "DOMAIN-SUFFIX", "IP-CIDR"}
  {
    hide ReadRule, ListenersValid, NamesValid, Allowed, Strip, Lower, Upper, Blank, Unsafe, HostName;
    ReadRuleKeepsText(c, s.rules[i]);
    var rule := RulesOf(c, s.rules)[i];
    assert Serialize(c, rule) == Some(doc.rules[i]);
  }

  /** A target inside the document. */
  ghost predicate Defined(doc: Document, target: string) {
    target == REJECT || HasProxy(doc.proxies, target) || HasGroup(doc.groups, target)
  }

  lemma AllowedIsDefined(c: Codec, s: State, doc: Document, target: string)
    requires Composable(c, s) && IsComposition(c, s, doc) && Allowed(Effective(s), target)
    ensures Defined(doc, RuntimeTarget(target))
    ensures RuntimeTarget(target) != "DIRECT"
  {
    hide ListenersValid, RulesValid, ReadRule;
    LowerOfReserved();
    ReservedIsUndefined(Effective(s), "DIRECT");
    ReservedIsUndefined(Effective(s), BLOCK);
  }

  lemma ReservedIsUndefined(s: State, name: string)
    requires NamesValid(s) && Lower(name) in RESERVED
    ensures !HasProxy(s.proxies, name) && !HasGroup(s.groups, name)
  {
  }

  /** A target that a document may use. */
  ghost predicate Usable(doc: Document, target: string) {
    Defined(doc, target) && target != "DIRECT"
  }

  ghost predicate RuleIsUsable(doc: Document, line: string) {
    ParseLine(line).Some? && Usable(doc, ParseLine(line).value.target)
  }

  ghost predicate GroupIsDefined(doc: Document, g: Group) {
    g.refs.Some? && forall k | 0 <= k < |g.refs.value| :: HasProxy(doc.proxies, g.refs.value[k])
  }

  /** The composed document is closed: every listener, rule and group refers to a proxy or a group
      that the document defines, or to REJECT, and never to DIRECT. */
  lemma ComposedIsClosed(c: Codec, s: State, doc: Document)
    requires Lawful(c) && Composable(c, s) && IsComposition(c, s, doc)
    ensures forall i | 0 <= i < |doc.listeners| :: Usable(doc, doc.listeners[i].proxy)
    ensures forall i | 0 <= i < |doc.rules| :: RuleIsUsable(doc, doc.rules[i])
    ensures forall i | 0 <= i < |doc.groups| :: GroupIsDefined(doc, doc.groups[i])
    ensures !HasProxy(doc.proxies, "DIRECT") && !HasGroup(doc.groups, "DIRECT")
  {
    hide Lawful, ReadRule, ListenersValid, ParseLine, Serialize, CanonicalRuleValue, Defined, Lower;
    LowerOfReserved();
    ReservedIsUndefined(Effective(s), "DIRECT");
    forall i | 0 <= i < |doc.listeners|
      ensures Usable(doc, doc.listeners[i].proxy)
    {
      AllowedIsDefined(c, s, doc, s.listeners[i].proxy);
    }
    forall i | 0 <= i < |doc.rules|
      ensures RuleIsUsable(doc, doc.rules[i])
    {
      var r := RulesOf(c, s.rules)[i];
      TargetIsOneField(c, s.rules[i]);
      RuleLineRoundTrip(c, r);
      assert Allowed(Effective(s), r.target);
      AllowedIsDefined(c, s, doc, r.target);
    }
  }

  lemma LowerOfReserved()
    ensures Lower("DIRECT") == "direct" && Lower(BLOCK) == "block"
  {
  }

  lemma BlockIsATarget()
    ensures TargetOk(BLOCK)
  {
  }

  lemma LoopbackListener(port: int)
    requires ValidPort(port) && port != 7890
    ensures ListenerOk(Listener("l", "socks", LOOPBACK, port, BLOCK), 7890)
  {
    hide Strip, TargetOk;
    BlockIsATarget();
    assert !IsSpace("l"[0]) && !IsSpace(LOOPBACK[0]) && !IsSpace(LOOPBACK[8]);
    assert Stripped("l") && Stripped(LOOPBACK);
    assert !Control("l") && !Control(LOOPBACK);
  }

  lemma FallbackReads(c: Codec)
    ensures ReadRule(c, RawRule(Some("match"), Some(BLOCK), Missing)) == Some(Rule(MATCH, "", BLOCK))
  {
  }

  /** The least state that composes: one listener and one blocking rule. */
  function LeastState(port: int): State {
    State(7890, false, false, [Listener("l", "socks", LOOPBACK, port, BLOCK)], [], [], [], [],
          [RawRule(Some("match"), Some(BLOCK), Missing)], [])
  }

  /** One listener and one blocking rule are a complete state, whatever the port of the listener but the
      mixed one. */
  lemma LeastStateComposes(c: Codec, port: int)
    requires ValidPort(port) && port != 7890
    ensures Composable(c, LeastState(port))
  {
    hide ListenersValid, NamesValid, RulesValid, Allowed;
    var s := LeastState(port);
    assert Effective(s) == s by {
      assert s.proxies + s.materialized + EgressMappings(s.egress) == [];
    }
    LeastSections(c, port);
  }

  lemma LeastSections(c: Codec, port: int)
    requires ValidPort(port) && port != 7890
    ensures var s := LeastState(port);
            ListenersValid(s) && NamesValid(s) && RulesValid(c, s) && Allowed(s, s.listeners[0].proxy)
  {
    hide ListenerOk, ReadRule, TargetOk, NameOf, BindingOf;
    LoopbackListener(port);
    FallbackReads(c);
  }
}
