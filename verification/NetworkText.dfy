/** The text of networks of both families (`ip_network` and `str`): IPv4 first, then IPv6. */
module NetworkText {
  import opened MihomoRules
  import opened Strings
  import opened Wrappers
  import Ipv4Text
  import Ipv6Text

  function Parse(s: string): Option<Network> {
    var v4 := Ipv4Text.Parse(s);
    if v4.Some? then v4 else Ipv6Text.Parse(s)
  }

  function Show(n: Network): string {
    if n.version == 4 then Ipv4Text.Show(n) else Ipv6Text.Show(n)
  }

  const CODEC := Codec(Parse, Show)

  lemma SplitStep(s: string, sep: char)
    ensures var i := Find(s, sep, 0);
            Split(s, sep) == if i == |s| then [s] else [s[..i]] + Split(s[i + 1..], sep)
  {
  }

  /** A character other than the separator is in some field. */
  lemma {:induction false} FieldHolds(s: string, sep: char, c: char) returns (k: nat)
    requires c in s && c != sep
    ensures k < |Split(s, sep)| && c in Split(s, sep)[k]
    decreases |s|
  {
    hide Split, Find;
    SplitStep(s, sep);
    var i := Find(s, sep, 0);
    if i == |s| || c in s[..i] {
      k := 0;
    } else {
      var rest := s[i + 1..];
      assert s == s[..i] + [s[i]] + rest;
      assert c in rest;
      k := FieldHolds(rest, sep, c);
      k := k + 1;
    }
  }

  /** No text with a colon is a dotted quad. */
  lemma ColonIsNoQuad(s: string)
    requires ':' in s
    ensures Ipv4Text.ParseQuad(s).None?
  {
    hide Split, Ipv4Text.Value, Ipv4Text.Join;
    var i := FieldHolds(s, '.', ':');
    assert !Ipv4Text.IsOctet(Split(s, '.')[i]);
  }

  lemma Ipv6IsNoIpv4(n: Network)
    ensures Ipv4Text.Parse(Ipv6Text.Show(n)).None?
  {
    hide Ipv6Text.ShowAddress, Split, Ipv4Text.ParseQuad, Decimal;
    Ipv6Text.AddressIsPlain(n.value);
    Ipv4Text.NoSeparator(n.length);
    SplitFirst(Ipv6Text.ShowAddress(n.value), '/', Decimal(n.length));
    assert Ipv6Text.Show(n) == Ipv6Text.ShowAddress(n.value) + ['/'] + Decimal(n.length);
    ColonIsNoQuad(Ipv6Text.ShowAddress(n.value));
  }

  lemma ShowRoundTrip(n: Network)
    requires WellFormed(n)
    ensures Parse(Show(n)) == Some(n)
  {
    hide Ipv4Text.Parse, Ipv4Text.Show, Ipv6Text.Parse, Ipv6Text.Show;
    if n.version == 4 {
      Ipv4Text.ShowRoundTrip(n);
    } else {
      Ipv6IsNoIpv4(n);
      Ipv6Text.ShowRoundTrip(n);
    }
  }

  /** Hexadecimal digits, colons, dots and a slash. */
  lemma ShowIsPlain(n: Network)
    ensures Show(n) != [] && Stripped(Show(n)) && !Unsafe(Show(n))
  {
    hide Ipv6Text.ShowAddress, Ipv4Text.ShowQuad;
    if n.version == 4 {
      Ipv4Text.ShowIsPlain(n);
    } else {
      Ipv6Text.AddressIsPlain(n.value);
      PlainText(Ipv6Text.Show(n));
    }
  }

  lemma PlainText(s: string)
    requires s != [] && forall c | c in s :: Ipv6Text.IsHexDigit(c) || c == ':' || c == '/'
    ensures Stripped(s) && !Unsafe(s)
  {
    assert s[0] in s && s[|s| - 1] in s;
    forall i | 0 <= i < |s|
      ensures s[i] != ',' && s[i] >= ' '
    {
      assert s[i] in s;
    }
  }

  /** The assumptions of the rule compiler hold for the text of both families. */
  lemma CodecIsLawful()
    ensures Lawful(CODEC)
  {
    hide Parse, Show, Unsafe, Power;
    forall s | CODEC.parse(s).Some?
      ensures WellFormed(CODEC.parse(s).value) && ShownBack(CODEC, Masked(CODEC.parse(s).value))
    {
      ParsedIsWellFormed(s);
      var n := Parse(s).value;
      MaskingKeepsMatches(n, Address(4, 0));
      ShowRoundTrip(Masked(n));
      ShowIsPlain(Masked(n));
    }
  }

  lemma ParsedIsWellFormed(s: string)
    requires Parse(s).Some?
    ensures WellFormed(Parse(s).value)
  {
    hide Ipv4Text.Parse, Ipv6Text.Parse;
    if Ipv4Text.Parse(s).Some? {
      Ipv4Text.ParsedIsIpv4(s);
    } else {
      Ipv6Text.ParsedIsIpv6(s);
    }
  }
}
