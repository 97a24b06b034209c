/** The text of IPv4 networks: a dotted quad, with a prefix length, a netmask or a hostmask. */
module Ipv4Text {
  import opened MihomoRules
  import opened Strings
  import opened Wrappers

  predicate IsNumeral(s: string) {
    s != [] && forall i | 0 <= i < |s| :: '0' <= s[i] <= '9'
  }

  function Value(s: string): nat
    requires forall i | 0 <= i < |s| :: '0' <= s[i] <= '9'
  {
    if s == [] then 0 else 10 * Value(s[..|s| - 1]) + (s[|s| - 1] as int - '0' as int)
  }

  /** One to three digits without a leading zero, at most 255. */
  predicate IsOctet(s: string) {
    IsNumeral(s) && |s| <= 3 && (|s| > 1 ==> s[0] != '0') && Value(s) <= 255
  }

  /** The address of four octets. */
  function Join(a: nat, b: nat, c: nat, d: nat): nat {
    ((a * 256 + b) * 256 + c) * 256 + d
  }

  function ParseQuad(s: string): (r: Option<nat>)
    ensures r.Some? ==> r.value < 0x1_0000_0000
  {
    var q := Split(s, '.');
    if |q| == 4 && IsOctet(q[0]) && IsOctet(q[1]) && IsOctet(q[2]) && IsOctet(q[3]) then
      Some(Join(Value(q[0]), Value(q[1]), Value(q[2]), Value(q[3])))
    else None
  }

  /** The mask that leaves `32 - length` bits open, and its complement. */
  function Netmask(length: nat): nat
    requires length <= 32
  {
    PowerGrows(32 - length, 32);
    Power(32) - Power(32 - length)
  }

  function Hostmask(length: nat): nat
    requires length <= 32
  {
    Power(32 - length) - 1
  }

  function FindNetmask(v: nat, from: nat): (r: Option<nat>)
    requires from <= 33
    ensures r.Some? ==> from <= r.value <= 32 && v == Netmask(r.value)
    ensures r.None? ==> forall k | from <= k <= 32 :: v != Netmask(k)
    decreases 33 - from
  {
    if from == 33 then None else if v == Netmask(from) then Some(from) else FindNetmask(v, from + 1)
  }

  function FindHostmask(v: nat, from: nat): (r: Option<nat>)
    requires from <= 33
    ensures r.Some? ==> from <= r.value <= 32 && v == Hostmask(r.value)
    ensures r.None? ==> forall k | from <= k <= 32 :: v != Hostmask(k)
    decreases 33 - from
  {
    if from == 33 then None else if v == Hostmask(from) then Some(from) else FindHostmask(v, from + 1)
  }

  /** `_make_netmask`: a prefix length, a netmask, or else a hostmask. */
  function ParseLength(s: string): (r: Option<nat>)
    ensures r.Some? ==> r.value <= 32
  {
    if IsNumeral(s) then (if Value(s) <= 32 then Some(Value(s)) else None)
    else
      var mask := ParseQuad(s);
      if mask.None? then None
      else
        var net := FindNetmask(mask.value, 0);
        if net.Some? then net else FindHostmask(mask.value, 0)
  }

  function Parse(s: string): Option<Network> {
    var parts := Split(s, '/');
    if |parts| > 2 then None
    else
      var address := ParseQuad(parts[0]);
      if address.None? then None
      else if |parts| == 1 then Some(Network(4, address.value, 32))
      else
        var length := ParseLength(parts[1]);
        if length.None? then None else Some(Network(4, address.value, length.value))
  }

  function ShowQuad(v: nat): string {
    var high := v / 256 / 256;
    Decimal(high / 256 % 256) + "." + (Decimal(high % 256) + "." + (Decimal(v / 256 % 256) + "." + Decimal(v % 256)))
  }

  function Show(n: Network): string {
    ShowQuad(n.value) + "/" + Decimal(n.length)
  }

  lemma {:induction false} DecimalIsNumeral(n: nat)
    ensures IsNumeral(Decimal(n)) && Value(Decimal(n)) == n
    ensures n > 0 ==> Decimal(n)[0] != '0'
  {
    var s := Decimal(n);
    forall i | 0 <= i < |s|
      ensures '0' <= s[i] <= '9'
    {
      assert s[i] in s;
    }
    if n >= 10 {
      DecimalIsNumeral(n / 10);
      assert s[..|s| - 1] == Decimal(n / 10);
    }
  }

  lemma DecimalIsOctet(n: nat)
    requires n <= 255
    ensures IsOctet(Decimal(n)) && Value(Decimal(n)) == n
  {
    DecimalIsNumeral(n);
    if n >= 10 {
      assert |Decimal(n / 10)| <= 2;
    }
  }

  lemma NoSeparator(n: nat)
    ensures '.' !in Decimal(n) && '/' !in Decimal(n) && ',' !in Decimal(n)
  {
  }

  lemma OctetsRecombine(v: nat)
    requires v < 0x1_0000_0000
    ensures var high := v / 256 / 256;
            Join(high / 256 % 256, high % 256, v / 256 % 256, v % 256) == v
  {
  }

  lemma PlainOctet(n: nat)
    requires n <= 255
    ensures IsOctet(Decimal(n)) && Value(Decimal(n)) == n
    ensures '.' !in Decimal(n) && '/' !in Decimal(n)
  {
    hide Decimal, IsOctet, Value;
    DecimalIsOctet(n);
    NoSeparator(n);
  }

  lemma QuadRoundTrip(v: nat)
    requires v < 0x1_0000_0000
    ensures ParseQuad(ShowQuad(v)) == Some(v)
    ensures '/' !in ShowQuad(v)
  {
    hide Decimal, IsOctet, Split, Value, Join, ParseQuad;
    var high := v / 256 / 256;
    OctetsRecombine(v);
    var a, b, c, d := high / 256 % 256, high % 256, v / 256 % 256, v % 256;
    PlainOctet(a);
    PlainOctet(b);
    PlainOctet(c);
    PlainOctet(d);
    FourFields(Decimal(a), Decimal(b), Decimal(c), Decimal(d));
    OctetsParse([Decimal(a), Decimal(b), Decimal(c), Decimal(d)], ShowQuad(v));
  }

  lemma OctetsParse(q: seq<string>, s: string)
    requires Split(s, '.') == q && |q| == 4 && IsOctet(q[0]) && IsOctet(q[1]) && IsOctet(q[2]) && IsOctet(q[3])
    ensures ParseQuad(s) == Some(Join(Value(q[0]), Value(q[1]), Value(q[2]), Value(q[3])))
  {
  }

  lemma FourFields(a: string, b: string, c: string, d: string)
    requires '.' !in a && '.' !in b && '.' !in c && '.' !in d
    ensures Split(a + "." + (b + "." + (c + "." + d)), '.') == [a, b, c, d]
  {
    hide Split;
    SplitNone(d, '.');
    SplitFirst(c, '.', d);
    SplitFirst(b, '.', c + "." + d);
    SplitFirst(a, '.', b + "." + (c + "." + d));
  }

  lemma WidthOfIpv4()
    ensures Power(32) == 0x1_0000_0000
  {
    assert Power(8) == 256;
    assert Power(16) == 65536;
    assert Power(24) == 16777216;
  }

  lemma ShowRoundTrip(n: Network)
    requires WellFormed(n) && n.version == 4
    ensures Parse(Show(n)) == Some(n)
  {
    hide Decimal, ParseQuad, ShowQuad, Split, Value, Power;
    WidthOfIpv4();
    QuadRoundTrip(n.value);
    DecimalIsNumeral(n.length);
    NoSeparator(n.length);
    SplitNone(Decimal(n.length), '/');
    SplitFirst(ShowQuad(n.value), '/', Decimal(n.length));
    assert Show(n) == ShowQuad(n.value) + ['/'] + Decimal(n.length);
  }

  /** The text has only digits, dots and a slash. */
  lemma ShowIsPlain(n: Network)
    ensures Show(n) != [] && Stripped(Show(n)) && !Unsafe(Show(n))
  {
    var s := Show(n);
    forall c | c in s
      ensures '0' <= c <= '9' || c == '.' || c == '/'
    {
    }
    assert s[0] in s && s[|s| - 1] in s;
    forall i | 0 <= i < |s|
      ensures s[i] != ',' && s[i] >= ' '
    {
      assert s[i] in s;
    }
  }

  /** At most one slash, and a length or a mask after it. */
  lemma LengthFollowsTheSlash(s: string)
    requires Parse(s).Some?
    ensures var parts := Split(s, '/');
            && ParseQuad(parts[0]) == Some(Parse(s).value.value)
            && ((|parts| == 1 && Parse(s).value.length == 32)
                || (|parts| == 2 && ParseLength(parts[1]) == Some(Parse(s).value.length)))
  {
  }

  lemma ParsedIsIpv4(s: string)
    requires Parse(s).Some?
    ensures Parse(s).value.version == 4 && WellFormed(Parse(s).value)
  {
    hide Split, Value, Power;
    WidthOfIpv4();
  }

  // ------------------------------------------------------------------ masks

  lemma {:induction false} PowerGrows(m: nat, n: nat)
    requires m <= n
    ensures Power(m) <= Power(n) && (m < n ==> Power(m) < Power(n))
  {
    if m < n {
      PowerGrows(m, n - 1);
    }
  }

  /** Different lengths have different masks. */
  lemma MasksDiffer(k: nat, l: nat)
    requires k <= 32 && l <= 32 && k != l
    ensures Netmask(k) != Netmask(l) && Hostmask(k) != Hostmask(l)
  {
    hide Power;
    PowerGrows(if k < l then 32 - l else 32 - k, if k < l then 32 - k else 32 - l);
  }

  /** The only values that are a netmask and a hostmask are the two ends. */
  lemma MaskIsBothOnlyAtEnds(k: nat, l: nat)
    requires k <= 32 && l <= 32
    ensures Netmask(k) == Hostmask(l) <==> (k == 0 && l == 32) || (k == 32 && l == 0)
  {
    hide Power;
    WidthOfIpv4();
    PowerUnfolds(k, l);
    if l == 32 {
      PowerGrows(32 - k, 32);
    } else if k == 32 {
      PowerGrows(32 - l, 32);
    } else {
      // An even mask against an odd one.
      assert Netmask(k) % 2 == 0;
      assert Hostmask(l) == 2 * (Power(31 - l) - 1) + 1;
    }
  }

  lemma PowerUnfolds(k: nat, l: nat)
    requires k <= 32 && l <= 32
    ensures Power(0) == 1 && (k < 32 ==> Power(32 - k) == 2 * Power(31 - k)) && (l < 32 ==> Power(32 - l) == 2 * Power(31 - l))
  {
  }

  /** A quad is not a numeral. */
  lemma QuadIsNoNumeral(v: nat)
    ensures !IsNumeral(ShowQuad(v))
  {
    hide Decimal;
    var high := v / 256 / 256;
    var a := Decimal(high / 256 % 256);
    assert ShowQuad(v)[|a|] == '.';
  }

  /** A netmask means its prefix length. */
  lemma NetmaskMeansItsLength(length: nat)
    requires length <= 32
    ensures ParseLength(ShowQuad(Netmask(length))) == Some(length)
  {
    hide Power, ParseQuad, ShowQuad;
    WidthOfIpv4();
    QuadIsNoNumeral(Netmask(length));
    QuadRoundTrip(Netmask(length));
    var found := FindNetmask(Netmask(length), 0);
    if found != Some(length) {
      MasksDiffer(found.value, length);
    }
  }

  /** A hostmask means its prefix length, but for the masks of the two ends: they read as netmasks. */
  lemma HostmaskMeansItsLengthIff(length: nat)
    requires length <= 32
    ensures ParseLength(ShowQuad(Hostmask(length))) == Some(length) <==> 0 < length < 32
    ensures ParseLength(ShowQuad(Hostmask(length))).Some?
  {
    hide Power, ParseQuad, ShowQuad;
    WidthOfIpv4();
    PowerGrows(32 - length, 32);
    QuadIsNoNumeral(Hostmask(length));
    QuadRoundTrip(Hostmask(length));
    var net, host := FindNetmask(Hostmask(length), 0), FindHostmask(Hostmask(length), 0);
    if net.Some? {
      MaskIsBothOnlyAtEnds(net.value, length);
    } else {
      if length == 0 {
        MaskIsBothOnlyAtEnds(32, 0);
      } else if length == 32 {
        MaskIsBothOnlyAtEnds(0, 32);
      }
      if host != Some(length) {
        MasksDiffer(host.value, length);
      }
    }
  }
}
