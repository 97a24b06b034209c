/** Rules of the forwarder: canonical values, the text of a rule, and what a rule list means for a
    destination (backend/app/providers/forwarder/mihomo_projection.py). */
module MihomoRules {
  import opened Strings
  import opened Wrappers

  // ------------------------------------------------------------------- text

  predicate Unsafe(s: string) {
    exists i :: 0 <= i < |s| && (s[i] == ',' || s[i] < ' ')
  }

  /** `s.split(sep)`. */
  function Split(s: string, sep: char): (r: seq<string>)
    ensures |r| >= 1
    decreases |s|
  {
    var i := Find(s, sep, 0);
    if i == |s| then [s] else [s[..i]] + Split(s[i + 1..], sep)
  }

  function Find(s: string, c: char, from: nat): (i: nat)
    requires from <= |s|
    ensures from <= i <= |s| && (i < |s| ==> s[i] == c) && forall k | from <= k < i :: s[k] != c
    decreases |s| - from
  {
    if from == |s| || s[from] == c then from else Find(s, c, from + 1)
  }

  lemma SplitFirst(a: string, sep: char, b: string)
    requires sep !in a
    ensures Split(a + [sep] + b, sep) == [a] + Split(b, sep)
  {
    var s := a + [sep] + b;
    var i := Find(s, sep, 0);
    assert s[|a|] == sep;
    forall k | 0 <= k < |a|
      ensures s[k] != sep
    {
      assert s[k] == a[k] && a[k] in a;
    }
    assert i == |a|;
    assert s[..i] == a && s[i + 1..] == b;
  }

  lemma SplitNone(a: string, sep: char)
    requires sep !in a
    ensures Split(a, sep) == [a]
  {
  }

  function UpperChar(c: char): char {
    if 'a' <= c <= 'z' then c - 'a' + 'A' else c
  }

  /** `upper()` on ASCII letters. */
  function Upper(s: string): (r: string)
    ensures |r| == |s|
  {
    seq(|s|, i requires 0 <= i < |s| => UpperChar(s[i]))
  }

  /** Both cases of an ASCII letter are one letter, and nothing else has a case. */
  lemma CasesAgree(s: string)
    ensures Lower(Upper(s)) == Lower(s) && Upper(Lower(s)) == Upper(s)
    ensures forall i | 0 <= i < |s| :: !('a' <= Upper(s)[i] <= 'z') && !('A' <= Lower(s)[i] <= 'Z')
    ensures forall i | 0 <= i < |s| && !('a' <= s[i] <= 'z') && !('A' <= s[i] <= 'Z') :: Upper(s)[i] == s[i] == Lower(s)[i]
    ensures forall i | 0 <= i < |s| && 'a' <= s[i] <= 'z' :: Upper(s)[i] as int == s[i] as int - 32
  {
  }

  // --------------------------------------------------------------- networks

  datatype Address = Address(version: nat, value: nat)

  /** A network as written: any address and a prefix length. */
  datatype Network = Network(version: nat, value: nat, length: nat)

  function Width(version: nat): nat {
    if version == 4 then 32 else 128
  }

  function Power(n: nat): (p: nat)
    ensures p > 0
  {
    if n == 0 then 1 else 2 * Power(n - 1)
  }

  predicate WellFormed(n: Network) {
    n.version in {4, 6} && n.length <= Width(n.version) && n.value < Power(Width(n.version))
  }

  /** The size of the block of addresses a prefix leaves open. */
  function Block(n: Network): (p: nat)
    requires WellFormed(n)
    ensures p > 0
  {
    Power(Width(n.version) - n.length)
  }

  /** `ip_network(value, strict=False)`: the host bits are cleared. */
  function Masked(n: Network): Network
    requires WellFormed(n)
  {
    DivisionBounds(n.value, Block(n));
    n.(value := n.value / Block(n) * Block(n))
  }

  /** Section 3.1 of RFC 4632: an address matches when its leading bits are those of the prefix. */
  predicate SamePrefix(n: Network, a: Address)
    requires WellFormed(n)
  {
    a.version == n.version && a.value / Block(n) == n.value / Block(n)
  }

  /** How a router tests a canonical network: clear the host bits and compare. */
  predicate Contains(n: Network, a: Address)
    requires WellFormed(n)
  {
    a.version == n.version && a.value / Block(n) * Block(n) == n.value
  }

  lemma SameMultiple(x: int, y: int, p: nat)
    requires p > 0 && x * p == y * p
    ensures x == y
  {
    assert (x - y) * p == 0;
  }

  lemma FactorOrder(x: int, y: int, p: nat)
    requires x <= y
    ensures x * p <= y * p
  {
  }

  lemma MultipleDivides(k: nat, p: nat)
    requires p > 0
    ensures k * p / p == k
  {
    var q := k * p / p;
    assert q * p <= k * p < q * p + p;
    if q < k {
      FactorOrder(q + 1, k, p);
    } else if k < q {
      FactorOrder(k + 1, q, p);
    }
  }

  lemma DivisionBounds(x: nat, p: nat)
    requires p > 0
    ensures 0 <= x / p * p <= x
  {
  }

  /** Clearing the host bits keeps the matched addresses. */
  lemma MaskingKeepsMatches(n: Network, a: Address)
    requires WellFormed(n)
    ensures WellFormed(Masked(n)) && Block(Masked(n)) == Block(n)
    ensures Contains(Masked(n), a) <==> SamePrefix(n, a)
    ensures Masked(Masked(n)) == Masked(n)
  {
    hide Power;
    var p := Block(n);
    DivisionBounds(n.value, p);
    MultipleDivides(n.value / p, p);
    if a.value / p * p == n.value / p * p {
      SameMultiple(a.value / p, n.value / p, p);
    }
  }

  /** The text of addresses and networks, of both families. */
  datatype Codec = Codec(parse: string -> Option<Network>, show: Network -> string)

  /** Parsing gives well-formed networks; the canonical network of whatever parses is printed as text
      that parses back, without commas, control characters or outer space. */
  ghost predicate Lawful(c: Codec) {
    forall s | c.parse(s).Some? :: WellFormed(c.parse(s).value) && ShownBack(c, Masked(c.parse(s).value))
  }

  ghost predicate ShownBack(c: Codec, n: Network) {
    c.parse(c.show(n)) == Some(n) && c.show(n) != [] && Stripped(c.show(n)) && !Unsafe(c.show(n))
  }

  // ----------------------------------------------------------- rule values

  predicate LabelChar(c: char) {
    'a' <= c <= 'z' || 'A' <= c <= 'Z' || '0' <= c <= '9' || c == '-'
  }

  predicate LabelOk(l: string) {
    && 1 <= |l| <= 63 && l[0] != '-' && l[|l| - 1] != '-'
    && forall i | 0 <= i < |l| :: LabelChar(l[i])
  }

  /** A host name: at most 253 characters, dot-separated labels of letters, digits and inner hyphens. */
  predicate HostName(s: string) {
    |s| <= 253 && LabelsOk(s)
  }

  predicate LabelsOk(s: string) {
    forall i | 0 <= i < |Split(s, '.')| :: LabelOk(Split(s, '.')[i])
  }

  predicate HostChar(c: char) {
    || (c >= 'a' && c <= 'z') || (c >= 'A' && c <= 'Z') || (c >= '0' && c <= '9') || c == '-' || c == '.'
  }

  /** Host names character by character: no empty label, no label that begins or ends with a hyphen, no
      64 characters without a dot. */
  ghost predicate DottedText(s: string) {
    && (forall i | 0 <= i < |s| :: HostChar(s[i]))
    && Joined(s)
    && (forall i | 0 <= i <= |s| - 64 :: HasDot(s, i))
  }

  /** No dot or hyphen at an end, no dot beside a dot or a hyphen. */
  ghost predicate Joined(s: string) {
    && s != "" && s[0] != '.' && s[0] != '-' && s[|s| - 1] != '.' && s[|s| - 1] != '-'
    && forall i | 0 <= i < |s| - 1 ::
         (s[i] == '.' ==> s[i + 1] != '.' && s[i + 1] != '-') && (s[i] == '-' ==> s[i + 1] != '.')
  }

  /** One of 64 characters is a dot. */
  ghost predicate HasDot(s: string, from: nat)
    requires from + 64 <= |s|
  {
    exists k :: from <= k < from + 64 && s[k] == '.'
  }

  lemma LabelIsDottedText(l: string)
    requires '.' !in l
    ensures LabelOk(l) <==> DottedText(l)
  {
    if |l| >= 64 {
      NoDotBefore(l, |l|);
    }
  }

  lemma NoDotBefore(s: string, n: nat)
    requires 64 <= n <= |s| && forall k | 0 <= k < n :: s[k] != '.'
    ensures !HasDot(s, 0)
  {
  }

  lemma CharsOfBoth(l: string, rest: string)
    ensures (forall i | 0 <= i < |l + "." + rest| :: HostChar((l + "." + rest)[i])) <==>
            (forall i | 0 <= i < |l| :: HostChar(l[i])) && (forall i | 0 <= i < |rest| :: HostChar(rest[i]))
  {
    hide HostChar;
    var s := l + "." + rest;
    assert HostChar('.') by {
      DotIsHostChar();
    }
    assert forall i | 0 <= i < |l| :: s[i] == l[i];
    assert forall i | 0 <= i < |rest| :: s[|l| + 1 + i] == rest[i];
    if (forall i | 0 <= i < |l| :: HostChar(l[i])) && (forall i | 0 <= i < |rest| :: HostChar(rest[i])) {
      forall i | 0 <= i < |s|
        ensures HostChar(s[i])
      {
        if i > |l| {
          assert s[i] == rest[i - |l| - 1];
        }
      }
    }
  }

  lemma DotIsHostChar()
    ensures HostChar('.')
  {
  }

  lemma JoinedBoth(l: string, rest: string)
    ensures Joined(l + "." + rest) <==> Joined(l) && Joined(rest)
  {
    var s := l + "." + rest;
    var n := |l|;
    assert s[n] == '.';
    assert forall i | 0 <= i < n :: s[i] == l[i];
    assert forall i | 0 <= i < |rest| :: s[n + 1 + i] == rest[i];
    if Joined(s) {
      JoinedParts(l, rest);
    }
    if Joined(l) && Joined(rest) {
      forall i | 0 <= i < |s| - 1
        ensures (s[i] == '.' ==> s[i + 1] != '.' && s[i + 1] != '-') && (s[i] == '-' ==> s[i + 1] != '.')
      {
        if i > n {
          assert s[i] == rest[i - n - 1] && s[i + 1] == rest[i - n];
        }
      }
    }
  }

  lemma JoinedParts(l: string, rest: string)
    requires Joined(l + "." + rest)
    ensures Joined(l) && Joined(rest)
  {
    var s := l + "." + rest;
    var n := |l|;
    assert s[n] == '.';
    assert n > 0 && s[0] == l[0] && s[n - 1] == l[n - 1];
    assert n < |s| - 1 && s[n + 1] == rest[0] && s[|s| - 1] == rest[|rest| - 1];
    forall i | 0 <= i < |rest| - 1
      ensures (rest[i] == '.' ==> rest[i + 1] != '.' && rest[i + 1] != '-') && (rest[i] == '-' ==> rest[i + 1] != '.')
    {
      assert s[n + 1 + i] == rest[i] && s[n + 1 + i + 1] == rest[i + 1];
    }
    forall i | 0 <= i < n - 1
      ensures (l[i] == '.' ==> l[i + 1] != '.' && l[i + 1] != '-') && (l[i] == '-' ==> l[i + 1] != '.')
    {
      assert s[i] == l[i] && s[i + 1] == l[i + 1];
    }
  }

  /** A window without a dot lies in the first label, or in the rest. */
  lemma DotsOfBoth(l: string, rest: string)
    requires '.' !in l
    ensures (forall i | 0 <= i <= |l + "." + rest| - 64 :: HasDot(l + "." + rest, i)) <==>
            |l| < 64 && forall i | 0 <= i <= |rest| - 64 :: HasDot(rest, i)
  {
    var s := l + "." + rest;
    var n := |l|;
    assert s[n] == '.';
    assert forall i | 0 <= i < n :: s[i] == l[i] && s[i] in l;
    if n >= 64 {
      NoDotBefore(s, n);
    }
    if forall i | 0 <= i <= |s| - 64 :: HasDot(s, i) {
      forall i | 0 <= i <= |rest| - 64
        ensures HasDot(rest, i)
      {
        assert HasDot(s, n + 1 + i);
        var k :| n + 1 + i <= k < n + 1 + i + 64 && s[k] == '.';
        assert rest[k - n - 1] == '.';
      }
    } else if n < 64 {
      var i :| 0 <= i <= |s| - 64 && !HasDot(s, i);
      assert i > n;
      forall k | i - n - 1 <= k < i - n - 1 + 64
        ensures rest[k] != '.'
      {
        assert s[n + 1 + k] == rest[k];
      }
      assert !HasDot(rest, i - n - 1);
    }
  }

  lemma FirstLabel(l: string, rest: string)
    requires '.' !in l
    ensures DottedText(l + "." + rest) <==> DottedText(l) && DottedText(rest)
  {
    hide Joined, HostChar, HasDot;
    CharsOfBoth(l, rest);
    JoinedBoth(l, rest);
    DotsOfBoth(l, rest);
    if |l| >= 64 {
      NoDotBefore(l, |l|);
    }
  }

  lemma {:induction false} LabelsAreDottedText(s: string)
    ensures LabelsOk(s) <==> DottedText(s)
    decreases |s|
  {
    hide LabelOk, DottedText;
    var n := Find(s, '.', 0);
    var l := s[..n];
    assert '.' !in l;
    if n == |s| {
      assert l == s;
      SplitNone(s, '.');
      LabelIsDottedText(s);
      assert Split(s, '.')[0] == s;
    } else {
      var rest := s[n + 1..];
      LabelsAreDottedText(rest);
      assert s == l + "." + rest;
      SplitFirst(l, '.', rest);
      assert l + ['.'] + rest == s;
      FirstLabel(l, rest);
      LabelIsDottedText(l);
      var parts := Split(s, '.');
      assert parts == [l] + Split(rest, '.');
      assert parts[0] == l && forall i | 0 <= i < |Split(rest, '.')| :: parts[i + 1] == Split(rest, '.')[i];
      if forall i | 0 <= i < |parts| :: LabelOk(parts[i]) {
        forall i | 0 <= i < |Split(rest, '.')|
          ensures LabelOk(Split(rest, '.')[i])
        {
          assert LabelOk(parts[i + 1]);
        }
      }
    }
  }

  lemma DottedTextIsText(s: string)
    ensures DottedText(s) ==> s != ""
  {
  }

  lemma SafeText(s: string)
    ensures !Unsafe(s) <==> forall i | 0 <= i < |s| :: s[i] != ',' && s[i] >= ' '
  {
  }

  /** A domain is accepted exactly when, stripped and in lower case, it is a host name by its characters. */
  lemma CanonicalDomainExactly(value: string)
    ensures CanonicalDomain(value).Some? <==>
              && (forall i | 0 <= i < |value| :: value[i] != ',' && value[i] >= ' ')
              && |Lower(Strip(value))| <= 253 && DottedText(Lower(Strip(value)))
    ensures CanonicalDomain(value).Some? ==> CanonicalDomain(value).value == Lower(Strip(value))
  {
    hide Strip, Lower, LabelsOk, Blank, DottedText, Unsafe;
    var s := Lower(Strip(value));
    LabelsAreDottedText(s);
    DottedTextIsText(s);
    SafeText(value);
    assert Blank(value) <==> s == "";
  }

  /** `_canonical_domain`; None is the error. */
  function CanonicalDomain(value: string): Option<string> {
    var s := Lower(Strip(value));
    if Blank(value) || Unsafe(value) || !HostName(s) then None else Some(s)
  }

  function CanonicalNetwork(c: Codec, value: string): Option<string> {
    if Blank(value) || Unsafe(value) then None
    else
      var n := c.parse(Strip(value));
      if n.None? || !WellFormed(n.value) then None else Some(c.show(Masked(n.value)))
  }

  /** `_canonical_rule_value`. */
  function CanonicalRuleValue(c: Codec, kind: string, value: string): Option<string> {
    if kind == "DOMAIN" || kind == "DOMAIN-SUFFIX" then CanonicalDomain(value)
    else if kind == "IP-CIDR" then CanonicalNetwork(c, value)
    else None
  }

  /** `_canonical_domain`, label by label. */
  method CanonicalizeDomain(value: string) returns (r: Option<string>)
    ensures r == CanonicalDomain(value)
  {
    hide Blank, Unsafe, Strip, Lower, Split, Find;
    if Blank(value) || Unsafe(value) {
      return None;
    }
    var s := Lower(Strip(value));
    if |s| > 253 {
      return None;
    }
    var labels := Split(s, '.');
    for n := 0 to |labels|
      invariant forall i | 0 <= i < n :: LabelOk(labels[i])
    {
      var part := labels[n];
      if |part| < 1 || |part| > 63 || part[0] == '-' || part[|part| - 1] == '-' {
        assert !LabelOk(labels[n]);
        return None;
      }
      for k := 0 to |part|
        invariant forall i | 0 <= i < k :: LabelChar(part[i])
      {
        if !LabelChar(part[k]) {
          assert !LabelOk(labels[n]);
          return None;
        }
      }
    }
    r := Some(s);
  }

  /** No comma, and nothing to strip: a canonical value is one field of a rule. */
  lemma CanonicalValueIsOneField(c: Codec, kind: string, value: string)
    requires Lawful(c) && CanonicalRuleValue(c, kind, value).Some?
    ensures ',' !in CanonicalRuleValue(c, kind, value).value && CanonicalRuleValue(c, kind, value).value != []
  {
    hide Split, Strip;
    if kind == "DOMAIN" || kind == "DOMAIN-SUFFIX" {
      CanonicalDomainHasNoComma(value);
    } else {
      var n := c.parse(Strip(value)).value;
      assert ShownBack(c, Masked(n));
      var text := c.show(Masked(n));
      forall i | 0 <= i < |text|
        ensures text[i] != ','
      {
        assert !Unsafe(text);
      }
    }
  }

  lemma CanonicalDomainHasNoComma(value: string)
    requires !Unsafe(value) && !Blank(value)
    ensures ',' !in Lower(Strip(value)) && Lower(Strip(value)) != []
  {
    var s := Strip(value);
    forall i | 0 <= i < |s|
      ensures Lower(s)[i] != ','
    {
      assert s[i] in s && s[i] in value;
      var k :| 0 <= k < |value| && value[k] == s[i];
      assert !(value[k] == ',' || value[k] < ' ');
    }
  }

  // ---------------------------------------------------------------- meaning

  /** Where a connection goes: a host name, or an address. */
  datatype Destination = ByName(host: string) | ByAddress(address: Address)

  datatype Kind = DOMAIN | DOMAIN_SUFFIX | IP_CIDR | MATCH

  /** A rule whose kind is recognized, with its value as written by the desired state. */
  datatype Rule = Rule(kind: Kind, value: string, target: string)

  const BLOCK := "BLOCK"
  const REJECT := "REJECT"

  function KindText(k: Kind): string {
    match k
    case DOMAIN => "DOMAIN"
    case DOMAIN_SUFFIX => "DOMAIN-SUFFIX"
    case IP_CIDR => "IP-CIDR"
    case MATCH => "MATCH"
  }

  predicate EndsWith(s: string, suffix: string) {
    |s| >= |suffix| && s[|s| - |suffix|..] == suffix
  }

  predicate IsSubdomain(host: string, domain: string) {
    host == domain || EndsWith(host, "." + domain)
  }

  /** What the author of a desired rule means: names without regard to case and surrounding space,
      networks by their prefix. */
  predicate Means(c: Codec, r: Rule, d: Destination) {
    match r.kind
    case MATCH => true
    case DOMAIN => d.ByName? && Lower(d.host) == Lower(Strip(r.value))
    case DOMAIN_SUFFIX => d.ByName? && IsSubdomain(Lower(d.host), Lower(Strip(r.value)))
    case IP_CIDR =>
      var n := c.parse(Strip(r.value));
      d.ByAddress? && n.Some? && WellFormed(n.value) && SamePrefix(n.value, d.address)
  }

  function RuntimeTarget(target: string): string {
    if target == BLOCK then REJECT else target
  }

  /** First match over the desired rules, with BLOCK read as REJECT. */
  function Desired(c: Codec, rules: seq<Rule>, d: Destination): Option<string> {
    if rules == [] then None
    else if Means(c, rules[0], d) then Some(RuntimeTarget(rules[0].target))
    else Desired(c, rules[1..], d)
  }

  /** `serialize_rule`; None is the error. */
  function Serialize(c: Codec, r: Rule): Option<string> {
    if r.kind.MATCH? then Some("MATCH," + RuntimeTarget(r.target))
    else
      var v := CanonicalRuleValue(c, KindText(r.kind), r.value);
      if v.None? then None else Some(KindText(r.kind) + "," + v.value + "," + RuntimeTarget(r.target))
  }

  /** A rule line as the forwarder reads it. */
  datatype Line = Line(kind: Kind, value: string, target: string)

  function ParseLine(text: string): Option<Line> {
    var fields := Split(text, ',');
    if |fields| == 2 && fields[0] == "MATCH" then Some(Line(MATCH, "", fields[1]))
    else if |fields| == 3 && fields[0] == "DOMAIN" then Some(Line(DOMAIN, fields[1], fields[2]))
    else if |fields| == 3 && fields[0] == "DOMAIN-SUFFIX" then Some(Line(DOMAIN_SUFFIX, fields[1], fields[2]))
    else if |fields| == 3 && fields[0] == "IP-CIDR" then Some(Line(IP_CIDR, fields[1], fields[2]))
    else None
  }

  /** What the forwarder does with a line: literal comparison of canonical text. */
  predicate Fires(c: Codec, l: Line, d: Destination) {
    match l.kind
    case MATCH => true
    case DOMAIN => d.ByName? && Lower(d.host) == l.value
    case DOMAIN_SUFFIX => d.ByName? && IsSubdomain(Lower(d.host), l.value)
    case IP_CIDR =>
      var n := c.parse(l.value);
      d.ByAddress? && n.Some? && WellFormed(n.value) && Contains(n.value, d.address)
  }

  /** First match over the lines of a document; a line that cannot be read decides nothing. */
  function Runtime(c: Codec, lines: seq<string>, d: Destination): Option<string> {
    if lines == [] then None
    else
      var l := ParseLine(lines[0]);
      if l.Some? && Fires(c, l.value, d) then Some(l.value.target) else Runtime(c, lines[1..], d)
  }

  /** Parsing a serialized rule gives back its kind, its canonical value and its target. */
  lemma RuleLineRoundTrip(c: Codec, r: Rule)
    requires Lawful(c) && Serialize(c, r).Some? && ',' !in r.target
    ensures ParseLine(Serialize(c, r).value) ==
            Some(Line(r.kind,
                      if r.kind.MATCH? then "" else CanonicalRuleValue(c, KindText(r.kind), r.value).value,
                      RuntimeTarget(r.target)))
  {
    hide Split, Lawful, CanonicalRuleValue;
    var target := RuntimeTarget(r.target);
    SplitNone(target, ',');
    if r.kind.MATCH? {
      SplitFirst("MATCH", ',', target);
      assert "MATCH," + target == "MATCH" + [','] + target;
    } else {
      CanonicalValueIsOneField(c, KindText(r.kind), r.value);
      var v := CanonicalRuleValue(c, KindText(r.kind), r.value).value;
      SplitFirst(v, ',', target);
      SplitFirst(KindText(r.kind), ',', v + [','] + target);
      assert KindText(r.kind) + "," + v + "," + target == KindText(r.kind) + [','] + (v + [','] + target);
    }
  }

  /** A line fires for exactly the destinations its rule means. */
  lemma LineMeansItsRule(c: Codec, r: Rule, d: Destination)
    requires Lawful(c) && Serialize(c, r).Some?
    ensures Fires(c, Line(r.kind,
                          if r.kind.MATCH? then "" else CanonicalRuleValue(c, KindText(r.kind), r.value).value,
                          RuntimeTarget(r.target)), d)
            <==> Means(c, r, d)
  {
    hide Split, Strip, Blank, Unsafe, HostName;
    if r.kind.IP_CIDR? {
      var n := c.parse(Strip(r.value)).value;
      if d.ByAddress? {
        MaskingKeepsMatches(n, d.address);
      } else {
        MaskingKeepsMatches(n, Address(4, 0));
      }
      assert ShownBack(c, Masked(n));
    }
  }

  /** The lines of a list of rules, when every rule can be serialized. */
  ghost predicate AreLines(c: Codec, rules: seq<Rule>, lines: seq<string>) {
    |lines| == |rules| && forall i | 0 <= i < |rules| :: Serialize(c, rules[i]) == Some(lines[i])
  }

  /** Compilation preserves meaning: for every destination, the first match over the lines is the
      first match over the desired rules. */
  lemma {:induction false} LinesMeanRules(c: Codec, rules: seq<Rule>, lines: seq<string>, d: Destination)
    requires Lawful(c) && AreLines(c, rules, lines)
    requires forall i | 0 <= i < |rules| :: ',' !in rules[i].target
    ensures Runtime(c, lines, d) == Desired(c, rules, d)
  {
    hide Lawful, Serialize, ParseLine, Fires, Means, CanonicalRuleValue;
    if rules != [] {
      RuleLineRoundTrip(c, rules[0]);
      LineMeansItsRule(c, rules[0], d);
      LinesMeanRules(c, rules[1..], lines[1..], d);
    }
  }
}
