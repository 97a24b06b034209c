/** The text of IPv6 networks (section 2.2 of RFC 4291): groups of hexadecimal digits, one run of zero
    groups left out, and a dotted quad for the last two groups. */
module Ipv6Text {
  import opened Ipv4Text
  import opened MihomoRules
  import opened Strings
  import opened Wrappers

  /** The groups of an address. */
  const GROUPS := 8

  // ------------------------------------------------------------ one group

  const DIGITS := "0123456789abcdef"

  predicate IsHexDigit(c: char) {
    '0' <= c <= '9' || 'a' <= c <= 'f' || 'A' <= c <= 'F'
  }

  function DigitValue(c: char): nat
    requires IsHexDigit(c)
  {
    if c <= '9' then c as int - '0' as int else if c <= 'F' then c as int - 'A' as int + 10 else c as int - 'a' as int + 10
  }

  /** The digits of both cases, by code point, and what they are worth. */
  lemma HexDigitsAre(c: char)
    ensures IsHexDigit(c) <==> 48 <= c as int < 58 || 65 <= c as int < 71 || 97 <= c as int < 103
    ensures IsHexDigit(c) ==>
              DigitValue(c) == (if c as int < 58 then c as int - 48 else if c as int < 71 then c as int - 55 else c as int - 87)
  {
  }

  /** `'%x' % n`. */
  function Hex(n: nat): (s: string)
    ensures s != [] && forall c | c in s :: IsHexDigit(c)
  {
    if n < 16 then [DIGITS[n]] else Hex(n / 16) + [DIGITS[n % 16]]
  }

  function HexValue(s: string): nat
    requires forall c | c in s :: IsHexDigit(c)
  {
    if s == [] then 0 else 16 * HexValue(s[..|s| - 1]) + DigitValue(s[|s| - 1])
  }

  predicate IsGroup(s: string) {
    1 <= |s| <= 4 && forall c | c in s :: IsHexDigit(c)
  }

  lemma DigitRoundTrip(n: nat)
    requires n < 16
    ensures DigitValue(DIGITS[n]) == n
  {
  }

  lemma {:induction false} HexRoundTrip(n: nat)
    ensures HexValue(Hex(n)) == n
  {
    hide DigitValue, IsHexDigit;
    DigitRoundTrip(n % 16);
    var s := Hex(n);
    assert s[|s| - 1] == DIGITS[n % 16];
    if n < 16 {
      assert s[..|s| - 1] == "" && HexValue("") == 0;
    } else {
      HexRoundTrip(n / 16);
      assert s[..|s| - 1] == Hex(n / 16);
    }
  }

  lemma HexIsGroup(n: nat)
    requires n < 0x1_0000
    ensures IsGroup(Hex(n))
  {
    hide IsHexDigit;
    HexLength(n / 16 / 16 / 16);
    HexLength(n / 16 / 16);
    HexLength(n / 16);
    HexLength(n);
  }

  lemma HexLength(n: nat)
    ensures |Hex(n)| == if n < 16 then 1 else 1 + |Hex(n / 16)|
  {
  }

  lemma {:induction false} PowerOfDigit(n: nat)
    ensures Power(n + 4) == 16 * Power(n)
  {
    assert Power(n + 1) == 2 * Power(n) && Power(n + 2) == 2 * Power(n + 1);
    assert Power(n + 3) == 2 * Power(n + 2);
  }

  lemma PowerOfGroup(n: nat)
    ensures Power(n + 16) == 0x1_0000 * Power(n)
  {
    hide Power;
    PowerOfDigit(n);
    PowerOfDigit(n + 4);
    PowerOfDigit(n + 8);
    PowerOfDigit(n + 12);
  }

  lemma {:induction false} HexBound(s: string)
    requires forall c | c in s :: IsHexDigit(c)
    ensures HexValue(s) < Power(4 * |s|)
  {
    if s != [] {
      HexBound(s[..|s| - 1]);
      PowerOfDigit(4 * (|s| - 1));
      assert s[|s| - 1] in s;
    }
  }

  lemma GroupBound(s: string)
    requires IsGroup(s)
    ensures HexValue(s) < 0x1_0000
  {
    hide Power, HexValue;
    HexBound(s);
    PowerOfDigit(0);
    PowerOfDigit(4);
    PowerOfDigit(8);
    PowerOfDigit(12);
    assert Power(0) == 1 by {
      PowerOfNothing();
    }
  }

  lemma PowerOfNothing()
    ensures Power(0) == 1
  {
  }

  // ---------------------------------------------------------------- groups

  /** Eight numbers of sixteen bits each. */
  predicate AreGroups(g: seq<nat>) {
    |g| == GROUPS && InRange(g)
  }

  predicate InRange(g: seq<nat>) {
    forall i | 0 <= i < |g| :: g[i] < 0x1_0000
  }

  /** The address of its groups, first group first. */
  function Number(g: seq<nat>): nat {
    if g == [] then 0 else Number(g[..|g| - 1]) * 0x1_0000 + g[|g| - 1]
  }

  /** The last `n` groups of an address. */
  function Groups(v: nat, n: nat): (g: seq<nat>)
    ensures |g| == n && InRange(g)
  {
    if n == 0 then [] else Groups(v / 0x1_0000, n - 1) + [v % 0x1_0000]
  }

  lemma {:induction false} NumberBound(g: seq<nat>)
    requires InRange(g)
    ensures Number(g) < Power(16 * |g|)
  {
    if g != [] {
      var front := g[..|g| - 1];
      NumberBound(front);
      PowerOfGroup(16 * |front|);
    }
  }

  lemma {:induction false} GroupsRoundTrip(v: nat, n: nat)
    requires v < Power(16 * n)
    ensures Number(Groups(v, n)) == v
  {
    if n > 0 {
      PowerOfGroup(16 * (n - 1));
      GroupsRoundTrip(v / 0x1_0000, n - 1);
      assert Groups(v, n)[..n - 1] == Groups(v / 0x1_0000, n - 1);
    }
  }

  // --------------------------------------------------------------- printing

  function Texts(g: seq<nat>): (r: seq<string>)
    ensures |r| == |g| && forall i | 0 <= i < |g| :: r[i] == Hex(g[i])
  {
    seq(|g|, i requires 0 <= i < |g| => Hex(g[i]))
  }

  /** How many zero groups follow from `i` on. */
  function ZerosFrom(g: seq<nat>, i: nat): (n: nat)
    requires i <= |g|
    ensures i + n <= |g|
    decreases |g| - i
  {
    if i == |g| || g[i] != 0 then 0 else 1 + ZerosFrom(g, i + 1)
  }

  /** The first of the longest runs of zero groups, as its place and its length. */
  function LongestRun(g: seq<nat>, from: nat): (r: (nat, nat))
    requires from <= |g|
    ensures from <= r.0 <= |g| && r.1 == ZerosFrom(g, r.0)
    decreases |g| - from
  {
    if from == |g| then (from, 0)
    else
      var rest := LongestRun(g, from + 1);
      if ZerosFrom(g, from) >= rest.1 then (from, ZerosFrom(g, from)) else rest
  }

  /** No run is longer, and no earlier one is as long. */
  lemma {:induction false} LongestRunIsFirst(g: seq<nat>, from: nat, i: nat)
    requires from <= i <= |g|
    ensures var r := LongestRun(g, from); ZerosFrom(g, i) <= r.1 && (i < r.0 ==> ZerosFrom(g, i) < r.1)
    decreases |g| - from
  {
    hide ZerosFrom;
    if from == |g| {
      NoZerosAtTheEnd(g);
    } else {
      var rest := LongestRun(g, from + 1);
      assert LongestRun(g, from) == if ZerosFrom(g, from) >= rest.1 then (from, ZerosFrom(g, from)) else rest;
      hide LongestRun;
      if from < i {
        LongestRunIsFirst(g, from + 1, i);
      }
    }
  }

  lemma NoZerosAtTheEnd(g: seq<nat>)
    ensures ZerosFrom(g, |g|) == 0
  {
  }

  /** One side of the gap; an empty side is an empty field, which doubles the colon. */
  function Side(g: seq<nat>): seq<string> {
    if g == [] then [""] else Texts(g)
  }

  /** `_compress_hextets`: a run of two or more zero groups becomes one empty field. */
  function Fields(g: seq<nat>): seq<string>
  {
    var (at, n) := LongestRun(g, 0);
    if n < 2 then Texts(g) else Side(g[..at]) + [""] + Side(g[at + n..])
  }

  function Join(fields: seq<string>): string
    requires fields != []
  {
    if |fields| == 1 then fields[0] else fields[0] + ":" + Join(fields[1..])
  }

  function ShowAddress(v: nat): string {
    Join(Fields(Groups(v, GROUPS)))
  }

  function Show(n: Network): string {
    ShowAddress(n.value) + "/" + Decimal(n.length)
  }

  // ---------------------------------------------------------------- parsing

  predicate AreTexts(fields: seq<string>) {
    forall i | 0 <= i < |fields| :: IsGroup(fields[i])
  }

  function Values(fields: seq<string>): (r: seq<nat>)
    requires AreTexts(fields)
    ensures |r| == |fields| && forall i | 0 <= i < |r| :: r[i] == HexValue(fields[i])
  {
    seq(|fields|, i requires 0 <= i < |fields| => HexValue(fields[i]))
  }

  /** A dotted quad in the last field stands for two groups. */
  function WithoutQuad(fields: seq<string>): Option<seq<string>>
    requires fields != []
  {
    var n := |fields| - 1;
    if '.' !in fields[n] then Some(fields)
    else
      var v := ParseQuad(fields[n]);
      if v.None? then None else Some(fields[..n] + [Hex(v.value / 0x1_0000), Hex(v.value % 0x1_0000)])
  }

  /** The first empty field that is neither the first nor the last one. */
  function Gap(fields: seq<string>, from: nat): (i: nat)
    requires 1 <= from < |fields|
    ensures from <= i < |fields| && (i < |fields| - 1 ==> fields[i] == "")
    ensures forall k | from <= k < i :: fields[k] != ""
    decreases |fields| - from
  {
    if from == |fields| - 1 || fields[from] == "" then from else Gap(fields, from + 1)
  }

  /** The first or the last side of the gap; an empty outer field has to touch the gap. */
  function SideOf(fields: seq<string>): Option<seq<nat>> {
    if fields == [""] then Some([]) else if AreTexts(fields) then Some(Values(fields)) else None
  }

  function Zeros(n: nat): (z: seq<nat>)
    ensures |z| == n && forall i | 0 <= i < n :: z[i] == 0
  {
    seq(n, _ => 0)
  }

  /** The groups of the fields of an address (`_ip_int_from_string`). */
  function ParseFields(fields: seq<string>): Option<seq<nat>>
    requires |fields| >= 3
  {
    var at := Gap(fields, 1);
    var last := |fields| - 1;
    if at == last then (if |fields| == GROUPS && AreTexts(fields) then Some(Values(fields)) else None)
    else
      var first, second := SideOf(fields[..at]), SideOf(fields[at + 1..]);
      if first.None? || second.None? || |first.value| + |second.value| >= GROUPS then None
      else Some(first.value + Zeros(GROUPS - |first.value| - |second.value|) + second.value)
  }

  function ParseAddress(s: string): Option<nat> {
    var fields := Split(s, ':');
    if |fields| < 3 then None
    else
      var plain := WithoutQuad(fields);
      if plain.None? then None
      else
        var g := ParseFields(plain.value);
        if g.None? then None else Some(Number(g.value))
  }

  function Parse(s: string): Option<Network> {
    var parts := Split(s, '/');
    if |parts| > 2 then None
    else
      var address := ParseAddress(parts[0]);
      if address.None? then None
      else if |parts| == 1 then Some(Network(6, address.value, 128))
      else if IsNumeral(parts[1]) && Value(parts[1]) <= 128 then Some(Network(6, address.value, Value(parts[1])))
      else None
  }

  // ------------------------------------------------------------- round trip

  lemma {:induction false} JoinRoundTrip(fields: seq<string>)
    requires fields != [] && forall i | 0 <= i < |fields| :: ':' !in fields[i]
    ensures Split(Join(fields), ':') == fields
  {
    hide Split;
    if |fields| == 1 {
      SplitNone(fields[0], ':');
    } else {
      JoinRoundTrip(fields[1..]);
      SplitFirst(fields[0], ':', Join(fields[1..]));
      assert fields[0] + ":" + Join(fields[1..]) == fields[0] + [':'] + Join(fields[1..]);
    }
  }

  lemma TextsRoundTrip(g: seq<nat>)
    requires InRange(g)
    ensures AreTexts(Texts(g)) && Values(Texts(g)) == g
    ensures forall i | 0 <= i < |g| :: Texts(g)[i] != "" && ':' !in Texts(g)[i] && '.' !in Texts(g)[i]
  {
    hide Hex, HexValue;
    forall i | 0 <= i < |g|
      ensures IsGroup(Texts(g)[i]) && HexValue(Texts(g)[i]) == g[i] && ':' !in Hex(g[i]) && '.' !in Hex(g[i])
    {
      HexIsGroup(g[i]);
      HexRoundTrip(g[i]);
    }
  }

  lemma SideRoundTrip(g: seq<nat>)
    requires InRange(g)
    ensures SideOf(Side(g)) == Some(g)
    ensures forall i | 0 <= i < |Side(g)| :: ':' !in Side(g)[i] && '.' !in Side(g)[i]
    ensures g != [] ==> forall i | 0 <= i < |Side(g)| :: Side(g)[i] != ""
  {
    hide Texts, Values;
    TextsRoundTrip(g);
    if g != [] {
      assert Texts(g)[0] != "";
    }
  }

  /** The fields of eight groups parse back. */
  lemma FieldsRoundTrip(g: seq<nat>)
    requires AreGroups(g)
    ensures |Fields(g)| >= 3 && ParseFields(Fields(g)) == Some(g)
    ensures forall i | 0 <= i < |Fields(g)| :: ':' !in Fields(g)[i] && '.' !in Fields(g)[i]
  {
    hide Side, Texts, ParseFields, LongestRun, ZerosFrom, Zeros;
    var (at, n) := LongestRun(g, 0);
    if n < 2 {
      PlainFields(g);
    } else {
      var a, b := g[..at], g[at + n..];
      SideRoundTrip(a);
      SideRoundTrip(b);
      GapStandsForGroups(a, b);
      RunIsZeros(g, at);
    }
  }

  /** A run goes on to the end, or to a group that is not zero. */
  lemma {:induction false} RunEnds(g: seq<nat>, i: nat)
    requires i <= |g|
    ensures var n := ZerosFrom(g, i); i + n == |g| || g[i + n] != 0
    decreases |g| - i
  {
    if i < |g| && g[i] == 0 {
      RunEnds(g, i + 1);
    }
  }

  lemma {:induction false} AreZeros(g: seq<nat>, at: nat, k: nat)
    requires at <= k < |g| && k < at + ZerosFrom(g, at)
    ensures g[k] == 0
    decreases k - at
  {
    if at < k {
      AreZeros(g, at + 1, k);
    }
  }

  lemma RunIsZeros(g: seq<nat>, at: nat)
    requires at <= |g|
    ensures var n := ZerosFrom(g, at); g[..at] + Zeros(n) + g[at + n..] == g
  {
    hide ZerosFrom;
    var n := ZerosFrom(g, at);
    forall k | at <= k < at + n
      ensures g[k] == 0
    {
      AreZeros(g, at, k);
    }
  }

  lemma PlainFields(g: seq<nat>)
    requires AreGroups(g)
    ensures ParseFields(Texts(g)) == Some(g)
    ensures forall i | 0 <= i < |g| :: ':' !in Texts(g)[i] && '.' !in Texts(g)[i]
  {
    hide Texts, Values, SideOf;
    TextsRoundTrip(g);
  }

  /** A gap stands for at least one group: around it there are at most seven, and then it stands for all
      the others. */
  lemma GapStandsForGroups(a: seq<nat>, b: seq<nat>)
    requires InRange(a) && InRange(b)
    ensures var fields := Side(a) + [""] + Side(b);
            && |fields| >= 3
            && (ParseFields(fields).Some? <==> |a| + |b| < 8)
            && (ParseFields(fields).Some? ==> ParseFields(fields).value == a + Zeros(8 - |a| - |b|) + b)
  {
    hide Side, SideOf;
    SideRoundTrip(a);
    SideRoundTrip(b);
    GapBetween(a, b);
  }

  /** Both sides are found again around the gap. */
  lemma GapBetween(a: seq<nat>, b: seq<nat>)
    requires InRange(a) && InRange(b)
    ensures var fields := Side(a) + [""] + Side(b);
            && |fields| >= 3
            && Gap(fields, 1) == |Side(a)| < |fields| - 1
            && fields[..|Side(a)|] == Side(a) && fields[|Side(a)| + 1..] == Side(b)
  {
    hide Texts, Values, SideOf;
    SideRoundTrip(a);
    var fields := Side(a) + [""] + Side(b);
    var at := |Side(a)|;
    assert fields[at] == "";
    forall k | 1 <= k < at
      ensures fields[k] != ""
    {
      assert fields[k] == Side(a)[k];
    }
  }

  lemma AddressRoundTrip(v: nat)
    requires v < Power(128)
    ensures ParseAddress(ShowAddress(v)) == Some(v)
  {
    hide Split, Fields, ParseFields, Groups, Number, Join, Power;
    GroupsRoundTrip(v, GROUPS);
    var fields := Fields(Groups(v, GROUPS));
    FieldsRoundTrip(Groups(v, GROUPS));
    JoinRoundTrip(fields);
  }

  /** The text of an address has hexadecimal digits and at least one colon. */
  lemma {:induction false} JoinIsPlain(fields: seq<string>)
    requires fields != [] && forall i, c | 0 <= i < |fields| && c in fields[i] :: IsHexDigit(c)
    ensures forall c | c in Join(fields) :: IsHexDigit(c) || c == ':'
    ensures |fields| > 1 ==> ':' in Join(fields)
  {
    if |fields| > 1 {
      JoinIsPlain(fields[1..]);
      assert Join(fields)[|fields[0]|] == ':';
    }
  }

  lemma AddressIsPlain(v: nat)
    ensures forall c | c in ShowAddress(v) :: IsHexDigit(c) || c == ':'
    ensures ':' in ShowAddress(v)
  {
    hide Join, Texts, Hex, Groups, LongestRun, ParseFields;
    var g := Groups(v, GROUPS);
    FieldsRoundTrip(g);
    forall i, c | 0 <= i < |Fields(g)| && c in Fields(g)[i]
      ensures IsHexDigit(c)
    {
    }
    JoinIsPlain(Fields(g));
  }

  lemma ShowRoundTrip(n: Network)
    requires WellFormed(n) && n.version == 6
    ensures Parse(Show(n)) == Some(n)
  {
    hide Decimal, ParseAddress, ShowAddress, Split, Value, Power;
    AddressRoundTrip(n.value);
    AddressIsPlain(n.value);
    DecimalIsNumeral(n.length);
    NoSeparator(n.length);
    SplitNone(Decimal(n.length), '/');
    SplitFirst(ShowAddress(n.value), '/', Decimal(n.length));
    assert Show(n) == ShowAddress(n.value) + ['/'] + Decimal(n.length);
  }

  /** At most one slash, and nothing but decimal digits after it. */
  lemma LengthIsANumeral(s: string)
    requires Parse(s).Some?
    ensures var parts := Split(s, '/');
            |parts| == 1 || (|parts| == 2 && IsNumeral(parts[1]) && Value(parts[1]) == Parse(s).value.length)
  {
  }

  lemma ParsedIsIpv6(s: string)
    requires Parse(s).Some?
    ensures Parse(s).value.version == 6 && WellFormed(Parse(s).value)
  {
    hide Split, Value, Power, ParseFields, Number, ParseQuad, Hex;
    var plain := WithoutQuad(Split(Split(s, '/')[0], ':')).value;
    ParsedGroups(plain);
    NumberBound(ParseFields(plain).value);
  }

  lemma ParsedGroups(fields: seq<string>)
    requires |fields| >= 3 && ParseFields(fields).Some?
    ensures AreGroups(ParseFields(fields).value)
  {
    hide HexValue, IsHexDigit;
    forall s: string | IsGroup(s)
      ensures HexValue(s) < 0x1_0000
    {
      GroupBound(s);
    }
  }
}
