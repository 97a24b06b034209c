/** Text as the program compares it: code-point order, blank text, ASCII case, decimal numerals. */
module Strings {

  /** `a <= b` on str: code-point order. */
  predicate Le(a: string, b: string) {
    a == [] || (b != [] && (a[0] < b[0] || (a[0] == b[0] && Le(a[1..], b[1..]))))
  }

  lemma {:induction false} LeTotal(a: string, b: string)
    ensures Le(a, b) || Le(b, a)
  {
    if a != [] && b != [] && a[0] == b[0] {
      LeTotal(a[1..], b[1..]);
    }
  }

  lemma {:induction false} LeAntisymmetric(a: string, b: string)
    requires Le(a, b) && Le(b, a)
    ensures a == b
  {
    if a != [] && b != [] {
      LeAntisymmetric(a[1..], b[1..]);
      assert a == [a[0]] + a[1..] && b == [b[0]] + b[1..];
    }
  }

  lemma {:induction false} LeTransitive(a: string, b: string, c: string)
    requires Le(a, b) && Le(b, c)
    ensures Le(a, c)
  {
    if a != [] && a[0] == b[0] && b[0] == c[0] {
      LeTransitive(a[1..], b[1..], c[1..]);
    }
  }

  ghost predicate IsLeast<T>(le: (T, T) -> bool, x: T, s: set<T>) {
    x in s && forall y | y in s :: le(x, y)
  }

  lemma {:induction false} LeastExists<T(!new)>(le: (T, T) -> bool, s: set<T>)
    requires s != {}
    requires forall x, y :: le(x, y) || le(y, x)
    requires forall x, y, z :: le(x, y) && le(y, z) ==> le(x, z)
    ensures exists x :: IsLeast(le, x, s)
    decreases |s|
  {
    var x :| x in s;
    var rest := s - {x};
    if rest == {} {
      assert s == {x};
      assert IsLeast(le, x, s);
    } else {
      LeastExists(le, rest);
      var z :| IsLeast(le, z, rest);
      var m := if le(x, z) then x else z;
      forall y | y in s
        ensures le(m, y)
      {
        assert y != x ==> y in rest && le(z, y);
        assert le(x, x) && (le(x, z) || le(z, x));
      }
      assert IsLeast(le, m, s);
    }
  }

  lemma LeIsOrder()
    ensures forall x, y :: Le(x, y) || Le(y, x)
    ensures forall x, y, z :: Le(x, y) && Le(y, z) ==> Le(x, z)
    ensures forall x, y :: Le(x, y) && Le(y, x) ==> x == y
  {
    forall x, y
      ensures Le(x, y) || Le(y, x)
    {
      LeTotal(x, y);
    }
    forall x, y, z | Le(x, y) && Le(y, z)
      ensures Le(x, z)
    {
      LeTransitive(x, y, z);
    }
    forall x, y | Le(x, y) && Le(y, x)
      ensures x == y
    {
      LeAntisymmetric(x, y);
    }
  }

  function Least(s: set<string>): (x: string)
    requires s != {}
    ensures x in s && forall y | y in s :: Le(x, y)
  {
    LeIsOrder();
    LeastExists(Le, s);
    assert exists x :: x in s && forall y | y in s :: Le(x, y) by {
      var x :| IsLeast(Le, x, s);
    }
    var x :| x in s && forall y | y in s :: Le(x, y);
    x
  }

  /** `sorted(...)` over distinct text. */
  function Sorted(s: set<string>): (r: seq<string>)
    ensures forall x :: x in r <==> x in s
    ensures forall i, j | 0 <= i < j < |r| :: r[i] != r[j] && Le(r[i], r[j])
    ensures |r| == |s|
    decreases |s|
  {
    if s == {} then []
    else
      var x := Least(s);
      [x] + Sorted(s - {x})
  }

  predicate IsSpace(c: char) {
    c == ' ' || '\t' <= c <= '\r' || '\U{1c}' <= c <= '\U{1f}' || c == '\U{85}' || c == '\U{a0}'
  }

  /** `not s.strip()`. */
  predicate Blank(s: string) {
    forall i | 0 <= i < |s| :: IsSpace(s[i])
  }

  /** `s != s.strip()` does not hold. */
  predicate Stripped(s: string) {
    s == [] || (!IsSpace(s[0]) && !IsSpace(s[|s| - 1]))
  }

  function Strip(s: string): (r: string)
    ensures Stripped(r) && |r| <= |s|
    ensures Blank(s) <==> r == []
    ensures Stripped(s) ==> r == s
    ensures forall c | c in r :: c in s
  {
    if s == [] then []
    else if IsSpace(s[0]) then
      assert Blank(s) <==> Blank(s[1..]) by {
        assert forall i | 1 <= i < |s| :: s[i] == s[1..][i - 1];
      }
      Strip(s[1..])
    else if IsSpace(s[|s| - 1]) then Strip(s[..|s| - 1])
    else s
  }

  /** The white space of Latin-1, by code point. */
  lemma SpacesAre(c: char)
    ensures IsSpace(c) <==> c as int in {9, 10, 11, 12, 13, 28, 29, 30, 31, 32, 133, 160}
  {
  }

  lemma BlankEnds(c: char, s: string)
    requires IsSpace(c) && Blank(s)
    ensures Blank([c] + s) && Blank(s + [c])
  {
  }

  lemma StripStep(s: string)
    ensures s != [] && IsSpace(s[0]) ==> Strip(s) == Strip(s[1..])
    ensures s != [] && !IsSpace(s[0]) && IsSpace(s[|s| - 1]) ==> Strip(s) == Strip(s[..|s| - 1])
    ensures s == [] || (!IsSpace(s[0]) && !IsSpace(s[|s| - 1])) ==> Strip(s) == s
  {
  }

  /** Stripping takes white space off both ends and nothing else. */
  lemma {:induction false} StripExactly(s: string) returns (before: string, after: string)
    ensures s == before + Strip(s) + after && Blank(before) && Blank(after)
    decreases |s|
  {
    hide Strip, IsSpace, Blank;
    NothingIsBlank();
    StripStep(s);
    before, after := [], [];
    if s != [] && IsSpace(s[0]) {
      before, after := StripExactly(s[1..]);
      BlankEnds(s[0], before);
      assert [s[0]] + (before + Strip(s[1..]) + after) == ([s[0]] + before) + Strip(s[1..]) + after;
      before := [s[0]] + before;
    } else if s != [] && IsSpace(s[|s| - 1]) {
      var last := |s| - 1;
      before, after := StripExactly(s[..last]);
      BlankEnds(s[last], after);
      assert (before + Strip(s[..last]) + after) + [s[last]] == before + Strip(s[..last]) + (after + [s[last]]);
      after := after + [s[last]];
    }
  }

  lemma NothingIsBlank()
    ensures Blank([])
  {
  }

  function LowerChar(c: char): char {
    if 'A' <= c <= 'Z' then c - 'A' + 'a' else c
  }

  /** `lower()` on ASCII letters. */
  function Lower(s: string): (r: string)
    ensures |r| == |s| && forall i | 0 <= i < |s| :: r[i] == LowerChar(s[i])
  {
    seq(|s|, i requires 0 <= i < |s| => LowerChar(s[i]))
  }

  function Digit(d: nat): char
    requires d < 10
  {
    '0' + d as char
  }

  /** The decimal numeral of a natural number. */
  function Decimal(n: nat): (r: string)
    ensures r != [] && forall c | c in r :: '0' <= c <= '9'
  {
    if n < 10 then [Digit(n)] else Decimal(n / 10) + [Digit(n % 10)]
  }

  lemma {:induction false} DecimalInjective(a: nat, b: nat)
    requires Decimal(a) == Decimal(b)
    ensures a == b
  {
    var x, y := Decimal(a), Decimal(b);
    assert x[|x| - 1] == Digit(a % 10) && y[|y| - 1] == Digit(b % 10);
    if a >= 10 && b >= 10 {
      assert x[..|x| - 1] == Decimal(a / 10) && y[..|y| - 1] == Decimal(b / 10);
      DecimalInjective(a / 10, b / 10);
    }
  }
}
