/** Sums over the rows of a table. */
module Sums {

  function Sum<T>(rows: seq<T>, f: T -> nat): nat {
    if rows == [] then 0 else Sum(rows[..|rows| - 1], f) + f(rows[|rows| - 1])
  }

  lemma SumAppend<T>(rows: seq<T>, r: T, f: T -> nat)
    ensures Sum(rows + [r], f) == Sum(rows, f) + f(r)
  {
  }

  lemma {:induction false} SumUpdate<T>(rows: seq<T>, i: nat, r: T, f: T -> nat)
    requires i < |rows|
    ensures Sum(rows[i := r], f) + f(rows[i]) == Sum(rows, f) + f(r)
  {
    var n := |rows| - 1;
    if i < n {
      SumUpdate(rows[..n], i, r, f);
      assert rows[i := r][..n] == rows[..n][i := r];
    } else {
      assert rows[i := r][..n] == rows[..n];
    }
  }

  lemma {:induction false} SumConcat<T>(a: seq<T>, b: seq<T>, f: T -> nat)
    ensures Sum(a + b, f) == Sum(a, f) + Sum(b, f)
  {
    if b == [] {
      assert a + b == a;
    } else {
      var n := |b| - 1;
      SumConcat(a, b[..n], f);
      assert (a + b)[..|a| + n] == a + b[..n];
    }
  }

  function Keep<T>(rows: seq<T>, p: T -> bool): seq<T> {
    if rows == [] then []
    else
      var n := |rows| - 1;
      Keep(rows[..n], p) + if p(rows[n]) then [rows[n]] else []
  }

  lemma {:induction false} KeepMembers<T>(rows: seq<T>, p: T -> bool)
    ensures forall x :: x in Keep(rows, p) <==> x in rows && p(x)
  {
    if rows != [] {
      var n := |rows| - 1;
      KeepMembers(rows[..n], p);
      assert rows == rows[..n] + [rows[n]];
    }
  }

  /** The rows of `r` are the rows of `rows` at `places`, in the same order. */
  ghost predicate TakenFrom<T>(r: seq<T>, rows: seq<T>, places: seq<nat>) {
    && |places| == |r|
    && (forall k | 0 <= k < |r| :: places[k] < |rows| && r[k] == rows[places[k]])
    && (forall k, l | 0 <= k < l < |r| :: places[k] < places[l])
  }

  /** Exactly the rows with `p` remain, each as often as before and in their order. */
  ghost predicate IsSelection<T>(r: seq<T>, rows: seq<T>, p: T -> bool) {
    exists places :: TakenFrom(r, rows, places) && forall i: nat | i < |rows| :: i in places <==> p(rows[i])
  }

  lemma TakenLonger<T>(r: seq<T>, rows: seq<T>, n: nat, places: seq<nat>)
    requires n <= |rows| && TakenFrom(r, rows[..n], places)
    ensures TakenFrom(r, rows, places) && forall k | 0 <= k < |places| :: places[k] < n
  {
  }

  lemma TakenOne<T>(r: seq<T>, rows: seq<T>, n: nat, places: seq<nat>)
    requires n < |rows| && TakenFrom(r, rows, places) && forall k | 0 <= k < |places| :: places[k] < n
    ensures TakenFrom(r + [rows[n]], rows, places + [n])
  {
  }

  lemma {:induction false} KeepSelects<T>(rows: seq<T>, p: T -> bool) returns (places: seq<nat>)
    ensures TakenFrom(Keep(rows, p), rows, places)
    ensures forall i: nat | i < |rows| :: i in places <==> p(rows[i])
  {
    hide TakenFrom;
    if rows == [] {
      places := [];
      assert TakenFrom(Keep(rows, p), rows, places) by {
        NothingTaken(rows);
      }
    } else {
      var n := |rows| - 1;
      var front := KeepSelects(rows[..n], p);
      TakenLonger(Keep(rows[..n], p), rows, n, front);
      TakenOne(Keep(rows[..n], p), rows, n, front);
      assert Keep(rows[..n], p) + [] == Keep(rows[..n], p);
      places := if p(rows[n]) then front + [n] else front;
      forall i: nat | i < |rows|
        ensures i in places <==> p(rows[i])
      {
        assert i < n ==> (i in front <==> p(rows[..n][i]));
      }
    }
  }

  lemma NothingTaken<T>(rows: seq<T>)
    ensures TakenFrom([], rows, [])
  {
  }

  /** Splitting a table splits its sums. */
  lemma SumKeepStep<T>(rows: seq<T>, p: T -> bool, f: T -> nat)
    requires rows != []
    ensures var n := |rows| - 1;
            Sum(Keep(rows, p), f) == Sum(Keep(rows[..n], p), f) + if p(rows[n]) then f(rows[n]) else 0
  {
    var n := |rows| - 1;
    var front := Keep(rows[..n], p);
    if p(rows[n]) {
      SumAppend(front, rows[n], f);
    } else {
      assert front + [] == front;
    }
  }

  lemma {:induction false} SumSplit<T>(rows: seq<T>, p: T -> bool, q: T -> bool, f: T -> nat)
    requires forall i | 0 <= i < |rows| :: q(rows[i]) <==> !p(rows[i])
    ensures Sum(Keep(rows, p), f) + Sum(Keep(rows, q), f) == Sum(rows, f)
  {
    hide Keep;
    if rows == [] {
      KeepNothing(p);
      KeepNothing(q);
    } else {
      var n := |rows| - 1;
      SumKeepStep(rows, p, f);
      SumKeepStep(rows, q, f);
      SumSplit(rows[..n], p, q, f);
    }
  }

  lemma KeepNothing<T>(p: T -> bool)
    ensures Keep([], p) == []
  {
  }
}
