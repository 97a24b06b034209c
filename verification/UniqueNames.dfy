/** Names of rendered proxies (backend/app/domain/subscription_render.py, _unique_name and
    _clash_proxy). */
module UniqueNames {
  import opened Strings

  /** The k-th candidate: base, base-2, base-3, ... */
  function Candidate(base: string, k: nat): string
    requires k >= 1
  {
    if k == 1 then base else base + "-" + Decimal(k)
  }

  lemma CandidatesAreDistinct(base: string, i: nat, j: nat)
    requires i >= 1 && j >= 1 && Candidate(base, i) == Candidate(base, j)
    ensures i == j
  {
    if i != 1 && j != 1 {
      var a, b := base + "-" + Decimal(i), base + "-" + Decimal(j);
      assert a[|base| + 1..] == Decimal(i) && b[|base| + 1..] == Decimal(j);
      DecimalInjective(i, j);
    }
  }

  function Base(candidate: string): string {
    if candidate == "" then "proxy" else candidate
  }

  /** The first free candidate. */
  predicate FirstFree(base: string, used: set<string>, k: nat) {
    k >= 1 && Candidate(base, k) !in used && forall j | 1 <= j < k :: Candidate(base, j) in used
  }

  /** `_unique_name`: it ends within |used| + 1 tries, because the candidates are distinct. */
  method UniqueName(candidate: string, used: set<string>) returns (name: string, used': set<string>, ghost tries: nat)
    ensures FirstFree(Base(candidate), used, tries) && name == Candidate(Base(candidate), tries)
    ensures tries <= |used| + 1
    ensures used' == used + {name} && name !in used
  {
    hide Decimal;
    var base := Base(candidate);
    name := base;
    var suffix := 2;
    ghost var tried: set<string> := {};
    tries := 1;
    while name in used
      invariant suffix == tries + 1 && tries >= 1 && name == Candidate(base, tries)
      invariant tried <= used && |tried| == tries - 1
      invariant forall x :: x in tried <==> exists j | 1 <= j < tries :: x == Candidate(base, j)
      decreases |used| - |tried|
    {
      forall j | 1 <= j < tries
        ensures Candidate(base, j) != name
      {
        if Candidate(base, j) == Candidate(base, tries) {
          CandidatesAreDistinct(base, j, tries);
        }
      }
      ghost var more := tried + {name};
      Smaller(more, used);
      tried := more;
      name := base + "-" + Decimal(suffix);
      suffix := suffix + 1;
      tries := tries + 1;
    }
    Smaller(tried, used);
    forall j | 1 <= j < tries
      ensures Candidate(base, j) in used
    {
      assert Candidate(base, j) in tried;
    }
    used' := used + {name};
  }

  lemma Smaller(a: set<string>, b: set<string>)
    requires a <= b
    ensures |a| <= |b|
  {
    if a != {} {
      var x :| x in a;
      Smaller(a - {x}, b - {x});
    }
  }

  /** What a connection link says about its name. */
  datatype Link = Vmess(ps: string) | Uri(scheme: string, fragment: string)

  function NameOf(l: Link): string {
    match l
    case Vmess(ps) => if ps == "" then "vmess" else ps
    case Uri(scheme, fragment) => if fragment == "" then scheme else fragment
  }

  /** The name a link asks for, from its fields: its own text when it has one, its scheme otherwise, and
      never nothing. */
  lemma WantedName(l: Link)
    ensures l.Vmess? && l.ps != "" ==> Base(NameOf(l)) == l.ps
    ensures l.Vmess? && l.ps == "" ==> Base(NameOf(l)) == "vmess"
    ensures l.Uri? && l.fragment != "" ==> Base(NameOf(l)) == l.fragment
    ensures l.Uri? && l.fragment == "" && l.scheme != "" ==> Base(NameOf(l)) == l.scheme
    ensures l.Uri? && l.fragment == "" && l.scheme == "" ==> Base(NameOf(l)) == "proxy"
  {
  }

  /** A second link of the same name is rendered as name-2, a third as name-3. */
  lemma CandidatesAreNumbered(base: string)
    ensures Candidate(base, 1) == base && Candidate(base, 2) == base + "-2" && Candidate(base, 3) == base + "-3"
    ensures Candidate(base, 10) == base + "-10"
  {
    assert Decimal(1) == "1" && Decimal(10) == "10";
  }

  /** The name is one of the first `n` candidates of its link. */
  ghost predicate NamedWithin(l: Link, name: string, n: nat) {
    exists k :: 1 <= k <= n && name == Candidate(Base(NameOf(l)), k)
  }

  /** The link keeps its own name exactly when no earlier proxy has it. */
  predicate KeepsFree(l: Link, name: string, earlier: seq<string>) {
    name == Base(NameOf(l)) <==> Base(NameOf(l)) !in earlier
  }

  /** Names pairwise distinct, each fair to its link. */
  ghost predicate Rendered(links: seq<Link>, names: seq<string>) {
    && |names| <= |links|
    && (forall i, j | 0 <= i < j < |names| :: names[i] != names[j])
    && (forall i | 0 <= i < |names| :: NamedWithin(links[i], names[i], i + 1) && KeepsFree(links[i], names[i], names[..i]))
  }

  lemma RenderedAppend(links: seq<Link>, names: seq<string>, name: string)
    requires Rendered(links, names) && |names| < |links| && name !in names
    requires NamedWithin(links[|names|], name, |names| + 1) && KeepsFree(links[|names|], name, names)
    ensures Rendered(links, names + [name])
  {
    hide NamedWithin, KeepsFree;
    var all := names + [name];
    forall i | 0 <= i < |all|
      ensures NamedWithin(links[i], all[i], i + 1) && KeepsFree(links[i], all[i], all[..i])
    {
      assert all[..i] == names[..i];
      assert i == |names| ==> names[..i] == names;
    }
  }

  /** `render_subscription`, its proxy names: pairwise distinct for every list of links. */
  method RenderNames(links: seq<Link>) returns (names: seq<string>)
    ensures |names| == |links| && Rendered(links, names)
  {
    hide NamedWithin, KeepsFree, Rendered, Candidate, Base, NameOf;
    names := [];
    var used: set<string> := {};
    assert Rendered(links, names) by {
      NothingRendered(links);
    }
    for n := 0 to |links|
      invariant |names| == n && |used| == n
      invariant forall x :: x in used <==> x in names
      invariant Rendered(links, names)
    {
      var name, used', tries := UniqueName(NameOf(links[n]), used);
      NameIsFair(links[n], used, names, tries);
      RenderedAppend(links, names, name);
      names, used := names + [name], used';
    }
  }

  lemma NothingRendered(links: seq<Link>)
    ensures Rendered(links, [])
  {
  }

  lemma NameIsFair(l: Link, used: set<string>, earlier: seq<string>, k: nat)
    requires FirstFree(Base(NameOf(l)), used, k) && k <= |used| + 1
    requires forall x :: x in used <==> x in earlier
    ensures NamedWithin(l, Candidate(Base(NameOf(l)), k), |used| + 1)
    ensures KeepsFree(l, Candidate(Base(NameOf(l)), k), earlier)
  {
    FirstKeepsTheName(Base(NameOf(l)), used, k);
  }

  lemma FirstKeepsTheName(base: string, used: set<string>, k: nat)
    requires FirstFree(base, used, k)
    ensures Candidate(base, k) == base <==> base !in used
  {
    if k != 1 {
      assert Candidate(base, 1) in used;
    }
  }
}
