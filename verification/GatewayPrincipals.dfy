/** The human-triggered rewrite of route principals: a read-only preflight and one conditional
    transaction (ops/reconciliation/gateway_principals.py). */
module GatewayPrincipals {
  import opened Durable
  import opened Strings
  import opened Wrappers

  /** An active route binding joined with its subscription. A unique index keeps the principals of
      active bindings distinct after every statement. */
  datatype Row = Row(id: nat, subscribed: bool, account: string, principal: string)

  datatype Lookup = Found(principal: string) | NotText | LookupRaises

  type Directory = string -> Lookup

  ghost predicate Identified(rows: seq<Row>) {
    forall i, j | 0 <= i < j < |rows| :: rows[i].id != rows[j].id
  }

  ghost predicate DistinctPrincipals(rows: seq<Row>) {
    forall i, j | 0 <= i < j < |rows| :: rows[i].principal != rows[j].principal
  }

  /** `_active_snapshot` accepts the row. */
  predicate Clean(r: Row) {
    r.subscribed && !Blank(r.account) && Stripped(r.account) && !Blank(r.principal)
  }

  predicate Resolves(d: Directory, account: string) {
    d(account).Found? && !Blank(d(account).principal) && Stripped(d(account).principal)
  }

  function TargetOf(d: Directory, r: Row): string {
    if d(r.account).Found? then d(r.account).principal else r.principal
  }

  /** Two rewrites never meet: targets are distinct, and none is the old principal of another row. */
  ghost predicate ConflictFree(rows: seq<Row>, d: Directory) {
    && (forall i, j | 0 <= i < j < |rows| :: TargetOf(d, rows[i]) != TargetOf(d, rows[j]))
    && (forall i, j | 0 <= i < |rows| && 0 <= j < |rows| && i != j :: TargetOf(d, rows[i]) != rows[j].principal)
  }

  /** When `_phase_a` hands over to the rewrite. */
  ghost predicate Acceptable(rows: seq<Row>, d: Directory) {
    && (forall i | 0 <= i < |rows| :: Clean(rows[i]) && Resolves(d, rows[i].account))
    && (forall i, j | 0 <= i < j < |rows| :: rows[i].account != rows[j].account)
    && ConflictFree(rows, d)
  }

  /** `_active_snapshot`, then every check of `_phase_a`. */
  method PhaseA(rows: seq<Row>, d: Directory) returns (targets: Option<map<nat, string>>)
    requires Identified(rows) && DistinctPrincipals(rows)
    ensures targets.Some? <==> Acceptable(rows, d)
    ensures targets.Some? ==>
              forall i | 0 <= i < |rows| :: rows[i].id in targets.value && targets.value[rows[i].id] == TargetOf(d, rows[i])
  {
    var clean := CheckSnapshot(rows);
    if !clean {
      return None;
    }
    var found := ResolveTargets(rows, d);
    if found.None? {
      return None;
    }
    var free := NoOldOwner(rows, d);
    targets := if free then found else None;
  }

  method CheckSnapshot(rows: seq<Row>) returns (clean: bool)
    ensures clean <==>
            && (forall i | 0 <= i < |rows| :: Clean(rows[i]))
            && (forall i, j | 0 <= i < j < |rows| :: rows[i].account != rows[j].account)
  {
    hide Clean;
    var accounts: set<string> := {};
    for n := 0 to |rows|
      invariant forall i | 0 <= i < n :: Clean(rows[i])
      invariant forall i, j | 0 <= i < j < n :: rows[i].account != rows[j].account
      invariant forall a :: a in accounts <==> exists i :: 0 <= i < n && rows[i].account == a
    {
      if !Clean(rows[n]) || rows[n].account in accounts {
        return false;
      }
      accounts := accounts + {rows[n].account};
    }
    clean := true;
  }

  method ResolveTargets(rows: seq<Row>, d: Directory) returns (targets: Option<map<nat, string>>)
    requires Identified(rows)
    ensures targets.Some? <==>
            && (forall i | 0 <= i < |rows| :: Resolves(d, rows[i].account))
            && (forall i, j | 0 <= i < j < |rows| :: TargetOf(d, rows[i]) != TargetOf(d, rows[j]))
    ensures targets.Some? ==>
              forall i | 0 <= i < |rows| :: rows[i].id in targets.value && targets.value[rows[i].id] == TargetOf(d, rows[i])
  {
    hide Resolves, TargetOf;
    var found: map<nat, string> := map[];
    var values: set<string> := {};
    for n := 0 to |rows|
      invariant forall i | 0 <= i < n :: Resolves(d, rows[i].account)
      invariant forall i, j | 0 <= i < j < n :: TargetOf(d, rows[i]) != TargetOf(d, rows[j])
      invariant forall v :: v in values <==> exists i :: 0 <= i < n && TargetOf(d, rows[i]) == v
      invariant forall i | 0 <= i < n :: rows[i].id in found && found[rows[i].id] == TargetOf(d, rows[i])
    {
      var target := TargetOf(d, rows[n]);
      if !Resolves(d, rows[n].account) || target in values {
        return None;
      }
      values := values + {target};
      found := found[rows[n].id := target];
    }
    targets := Some(found);
  }

  /** The map of old owners, and the search for a target that belongs to another row. */
  method NoOldOwner(rows: seq<Row>, d: Directory) returns (free: bool)
    requires Identified(rows) && DistinctPrincipals(rows)
    ensures free <==> forall i, j | 0 <= i < |rows| && 0 <= j < |rows| && i != j :: TargetOf(d, rows[i]) != rows[j].principal
  {
    var owner: map<string, nat> := map[];
    for n := 0 to |rows|
      invariant forall i | 0 <= i < n :: rows[i].principal in owner && owner[rows[i].principal] == rows[i].id
      invariant forall p | p in owner :: exists i :: 0 <= i < n && rows[i].principal == p && owner[p] == rows[i].id
    {
      owner := owner[rows[n].principal := rows[n].id];
    }
    for n := 0 to |rows|
      invariant forall i, j | 0 <= i < n && 0 <= j < |rows| && i != j :: TargetOf(d, rows[i]) != rows[j].principal
    {
      var t := TargetOf(d, rows[n]);
      if t in owner && owner[t] != rows[n].id {
        return false;
      }
    }
    free := true;
  }

  // -------------------------------------------------------- between updates

  /** The table with the rows of `done` rewritten and the others not. */
  function Mixed(rows: seq<Row>, d: Directory, done: set<nat>): seq<Row> {
    seq(|rows|, i requires 0 <= i < |rows| =>
      if i in done then rows[i].(principal := TargetOf(d, rows[i])) else rows[i])
  }

  /** The preflight condition is exactly what keeps the principals distinct whichever rows have been
      rewritten so far: no order of updates can trip the unique index. */
  lemma ConflictFreeIsSafeEverywhere(rows: seq<Row>, d: Directory)
    requires DistinctPrincipals(rows)
    ensures ConflictFree(rows, d) <==> forall done: set<nat> :: DistinctPrincipals(Mixed(rows, d, done))
  {
    if forall done: set<nat> :: DistinctPrincipals(Mixed(rows, d, done)) {
      forall i, j | 0 <= i < j < |rows|
        ensures TargetOf(d, rows[i]) != TargetOf(d, rows[j])
      {
        var m := Mixed(rows, d, {i, j});
        assert m[i].principal != m[j].principal;
      }
      forall i, j | 0 <= i < |rows| && 0 <= j < |rows| && i != j
        ensures TargetOf(d, rows[i]) != rows[j].principal
      {
        var m := Mixed(rows, d, {i});
        assert DistinctPrincipals(m);
        assert m[i].principal == TargetOf(d, rows[i]) && m[j].principal == rows[j].principal;
        assert m[i].principal != m[j].principal;
      }
    }
  }

  /** The table after the first `n` rows have been handled. */
  function Partly(rows: seq<Row>, d: Directory, n: nat): seq<Row> {
    seq(|rows|, i requires 0 <= i < |rows| =>
      if i < n then rows[i].(principal := TargetOf(d, rows[i])) else rows[i])
  }

  function Below(n: nat): (s: set<nat>)
    ensures forall i: nat :: i in s <==> i < n
  {
    if n == 0 then {} else Below(n - 1) + {n - 1}
  }

  lemma PartlySafe(rows: seq<Row>, d: Directory, n: nat)
    requires DistinctPrincipals(rows) && ConflictFree(rows, d) && Identified(rows)
    ensures DistinctPrincipals(Partly(rows, d, n)) && Identified(Partly(rows, d, n))
  {
  }

  lemma PartlyNext(rows: seq<Row>, d: Directory, n: nat)
    requires n < |rows|
    ensures |Partly(rows, d, n)| == |rows| && Partly(rows, d, n)[n] == rows[n]
    ensures Partly(rows, d, n + 1) == Partly(rows, d, n)[n := rows[n].(principal := TargetOf(d, rows[n]))]
    ensures rows[n].principal == TargetOf(d, rows[n]) ==> Partly(rows, d, n + 1) == Partly(rows, d, n)
  {
  }

  // ------------------------------------------------------------ the rewrite

  datatype Mode = DryRun | Confirmed

  datatype Status = Success | CommittedWithWarning | Aborted

  datatype Result = Result(status: Status, total: nat, kept: nat, wouldUpdate: nat, updated: nat)

  /** The environment of phase B: the lock, a statement that fails, the commit, the release. */
  datatype Env = Env(locked: bool, failsAt: Option<nat>, commit: Commit, released: bool)

  function AtTargets(rows: seq<Row>, d: Directory): seq<Row> {
    seq(|rows|, i requires 0 <= i < |rows| => rows[i].(principal := TargetOf(d, rows[i])))
  }

  lemma PartlyEnds(rows: seq<Row>, d: Directory)
    ensures Partly(rows, d, 0) == rows && Partly(rows, d, |rows|) == AtTargets(rows, d)
  {
  }

  /** One conditional update: a row moves from its old principal to its target. */
  ghost predicate OneUpdate(before: seq<Row>, after: seq<Row>, rows: seq<Row>, d: Directory) {
    |before| == |rows| &&
    exists n :: 0 <= n < |rows| && before[n] == rows[n] && after == before[n := rows[n].(principal := TargetOf(d, rows[n]))]
  }

  lemma UpdateMoves(rows: seq<Row>, d: Directory, n: nat)
    requires n < |rows|
    ensures OneUpdate(Partly(rows, d, n), Partly(rows, d, n + 1), rows, d)
  {
    PartlyNext(rows, d, n);
  }

  /** The statement that fails, if any, is not one of the rewrite. */
  predicate Completes(rows: seq<Row>, d: Directory, failsAt: Option<nat>) {
    failsAt.Some? && failsAt.value < |rows| ==> TargetOf(d, rows[failsAt.value]) == rows[failsAt.value].principal
  }

  function Unchanged(rows: seq<Row>, d: Directory, n: nat): nat
    requires n <= |rows|
  {
    if n == 0 then 0 else Unchanged(rows, d, n - 1) + if rows[n - 1].principal == TargetOf(d, rows[n - 1]) then 1 else 0
  }

  lemma {:induction false} UnchangedBound(rows: seq<Row>, d: Directory, n: nat)
    requires n <= |rows|
    ensures Unchanged(rows, d, n) <= n
  {
    if n > 0 {
      UnchangedBound(rows, d, n - 1);
    }
  }

  /** The rewrite runs to its commit, and that commit lands while the session is told otherwise. */
  ghost predicate LandsUnacknowledged(snapshot: seq<Row>, now: seq<Row>, d: Directory, env: Env) {
    Acceptable(snapshot, d) && env.locked && now == snapshot && Completes(now, d, env.failsAt) && env.commit == LostLanded
  }

  /** Such a table: one binding that has to move. */
  lemma AbortCanHaveLanded()
    ensures exists rows: seq<Row>, d: Directory, env: Env ::
              && Identified(rows) && DistinctPrincipals(rows) && LandsUnacknowledged(rows, rows, d, env)
              && AtTargets(rows, d) != rows
  {
    var rows := [Row(1, true, "a", "old")];
    var d: Directory := account => Found("new");
    var env := Env(true, None, LostLanded, true);
    assert !IsSpace("a"[0]) && !IsSpace("old"[0]) && !IsSpace("new"[0]) && !IsSpace("new"[2]);
    assert Clean(rows[0]) && Resolves(d, "a");
    assert TargetOf(d, rows[0]) == "new" && "new"[0] != "old"[0];
    assert AtTargets(rows, d)[0].principal != rows[0].principal;
    assert LandsUnacknowledged(rows, rows, d, env);
  }

  class Table {
    var durable: seq<Row>
    var work: seq<Row>

    constructor (rows: seq<Row>)
      ensures durable == work == rows
    {
      durable, work := rows, rows;
    }

    /** `_conditional_update`: the number of rows that still hold the expected principal. */
    method ConditionalUpdate(row: Row, target: string) returns (count: nat)
      requires Identified(work)
      modifies this`work
      ensures count <= 1
      ensures count == 1 <==> exists i :: 0 <= i < |old(work)| && old(work)[i].id == row.id && old(work)[i].principal == row.principal
      ensures count == 0 ==> work == old(work)
      ensures forall i | 0 <= i < |old(work)| && old(work)[i].id == row.id && old(work)[i].principal == row.principal ::
                work == old(work)[i := old(work)[i].(principal := target)]
    {
      count := 0;
      ghost var before := work;
      for i := 0 to |work|
        invariant |work| == |before| && count <= 1
        invariant count == 1 <==> exists k :: 0 <= k < i && before[k].id == row.id && before[k].principal == row.principal
        invariant count == 0 ==> work == before
        invariant forall k | 0 <= k < i && before[k].id == row.id && before[k].principal == row.principal ::
                    work == before[k := before[k].(principal := target)]
        invariant forall k | i <= k < |work| :: work[k] == before[k]
      {
        if work[i].id == row.id && work[i].principal == row.principal {
          work := work[i := work[i].(principal := target)];
          count := count + 1;
        }
      }
    }

    /** Phase B inside the lock: every row that is not at its target, in id order. `trace` is the table
        after each update: one row moves to its target at a time, and the principals are distinct in
        every one of these tables. */
    method Rewrite(rows: seq<Row>, targets: map<nat, string>, ghost d: Directory, failsAt: Option<nat>)
      returns (updated: Option<nat>, ghost trace: seq<seq<Row>>)
      requires work == rows && Identified(rows) && DistinctPrincipals(rows) && ConflictFree(rows, d)
      requires forall i | 0 <= i < |rows| :: rows[i].id in targets && targets[rows[i].id] == TargetOf(d, rows[i])
      modifies this`work
      ensures trace != [] && trace[0] == rows && trace[|trace| - 1] == work
      ensures forall k | 0 <= k < |trace| :: DistinctPrincipals(trace[k])
      ensures forall k | 0 <= k < |trace| - 1 :: OneUpdate(trace[k], trace[k + 1], rows, d)
      ensures updated.Some? ==> work == AtTargets(rows, d) && updated.value == |trace| - 1
      ensures updated.Some? ==> Unchanged(rows, d, |rows|) + updated.value == |rows|
      ensures updated.Some? <==> Completes(rows, d, failsAt)
    {
      hide Unchanged, Partly, TargetOf, ConflictFree, DistinctPrincipals, OneUpdate;
      var count := 0;
      trace := [rows];
      NothingCounted(rows, d);
      PartlyEnds(rows, d);
      for n := 0 to |rows|
        invariant work == Partly(rows, d, n)
        invariant Unchanged(rows, d, n) + count == n
        invariant |trace| == count + 1 && trace[0] == rows && trace[count] == work
        invariant forall k | 0 <= k < |trace| :: DistinctPrincipals(trace[k])
        invariant forall k | 0 <= k < |trace| - 1 :: OneUpdate(trace[k], trace[k + 1], rows, d)
        invariant failsAt.Some? && failsAt.value < n ==> TargetOf(d, rows[failsAt.value]) == rows[failsAt.value].principal
      {
        var row := rows[n];
        var target := targets[row.id];
        CountNext(rows, d, n);
        PartlyNext(rows, d, n);
        PartlySafe(rows, d, n);
        PartlySafe(rows, d, n + 1);
        if target != row.principal {
          if failsAt == Some(n) {
            return None, trace;
          }
          var changed := ConditionalUpdate(row, target);
          assert changed == 1;
          assert OneUpdate(trace[count], work, rows, d) by {
            UpdateMoves(rows, d, n);
          }
          trace := trace + [work];
          count := count + 1;
        }
      }
      updated := Some(count);
    }

    /** `reconcile_gateway_principals`. `now` is the table when the lock is held, whatever other
        writers did since the preflight. Either nothing of the table changes, or every binding is at
        its looked-up target. A run that reports an abort has changed something exactly when its rewrite
        completed and the commit landed without its acknowledgement. */
    method Reconcile(d: Directory, mode: Mode, durableGateway: bool, now: seq<Row>, env: Env)
      returns (r: Option<Result>, died: bool)
      requires work == durable && Identified(durable) && DistinctPrincipals(durable)
      requires Identified(now) && DistinctPrincipals(now)
      modifies this
      ensures var before := if mode.DryRun? then old(durable) else now;
              && (durable == before || (durable == AtTargets(before, d) && before == old(durable)))
              && (r.Some? && r.value.status.Aborted? && durable != before <==>
                    && mode.Confirmed? && !durableGateway && LandsUnacknowledged(old(durable), now, d, env)
                    && AtTargets(now, d) != now)
      ensures r.None? <==> died || (mode.Confirmed? && durableGateway)
      ensures mode.Confirmed? && durableGateway ==> !died && durable == now
      ensures mode.DryRun? ==> !died
      ensures r.Some? && !r.value.status.Aborted? ==>
                && Acceptable(old(durable), d)
                && r.value.total == |old(durable)| == r.value.kept + r.value.wouldUpdate
                && r.value.kept == Unchanged(old(durable), d, |old(durable)|)
                && (if mode.DryRun? then r.value.updated == 0 && r.value.status.Success?
                    else durable == AtTargets(old(durable), d) && r.value.updated == r.value.wouldUpdate
                         && (r.value.status.Success? <==> env.released))
    {
      died := false;
      if mode.Confirmed? && durableGateway {
        durable, work := now, now;
        return None, false;
      }
      var snapshot := durable;
      var targets := PhaseA(snapshot, d);
      if mode.Confirmed? {
        durable, work := now, now;
      }
      if targets.None? {
        return Some(Result(Aborted, 0, 0, 0, 0)), false;
      }
      var kept := CountUnchanged(snapshot, d);
      UnchangedBound(snapshot, d, |snapshot|);
      var wouldUpdate := |snapshot| - kept;
      if mode.DryRun? {
        return Some(Result(Status.Success, |snapshot|, kept, wouldUpdate, 0)), false;
      }
      if !env.locked || now != snapshot {
        return Some(Result(Aborted, |snapshot|, 0, |snapshot|, 0)), false;
      }
      var updated, trace := Rewrite(snapshot, targets.value, d, env.failsAt);
      if updated.None? {
        work := durable;
        return Some(Result(Aborted, |snapshot|, 0, |snapshot|, 0)), false;
      }
      if env.commit.Lands() {
        durable := work;
      }
      work := durable;
      if env.commit.Crashes() {
        return None, true;
      }
      if env.commit.Raises() {
        return Some(Result(Aborted, |snapshot|, 0, |snapshot|, 0)), false;
      }
      r := Some(Result(if env.released then Status.Success else CommittedWithWarning, |snapshot|, kept, wouldUpdate, updated.value));
    }
  }

  lemma NothingCounted(rows: seq<Row>, d: Directory)
    ensures Unchanged(rows, d, 0) == 0
  {
  }

  lemma CountNext(rows: seq<Row>, d: Directory, n: nat)
    requires n < |rows|
    ensures Unchanged(rows, d, n + 1) == Unchanged(rows, d, n) + if rows[n].principal == TargetOf(d, rows[n]) then 1 else 0
  {
  }

  method CountUnchanged(rows: seq<Row>, d: Directory) returns (count: nat)
    ensures count == Unchanged(rows, d, |rows|)
  {
    count := 0;
    for n := 0 to |rows|
      invariant count == Unchanged(rows, d, n)
    {
      if rows[n].principal == TargetOf(d, rows[n]) {
        count := count + 1;
      }
    }
  }
}
