/** The traffic collector: counters of live connections, attributed to days, sides and hosts
    (ops/forwarder/collect_mihomo_usage.py). Tables are sequences of rows; times count seconds. */
module TrafficCollector {
  import opened Strings
  import opened Sums
  import opened Wrappers

  datatype Side = AIRPORT | RESIDENTIAL

  datatype Direction = Upload | Download

  /** A pair of byte counts. */
  datatype Bytes = Bytes(up: nat, down: nat) {
    function Of(d: Direction): nat {
      if d.Upload? then up else down
    }
  }

  datatype Maximum = Maximum(id: string, side: Side, host: string, bytes: Bytes, seen: int)

  datatype Daily = Daily(day: int, side: Side, bytes: Bytes)

  datatype Domain = Domain(day: int, host: string, side: Side, bytes: Bytes)

  datatype Store = Store(maxima: seq<Maximum>, daily: seq<Daily>, domain: seq<Domain>)

  /** A connection as the controller reports it. */
  datatype Connection = Connection(id: string, chains: seq<string>, host: string, destination: string, up: int, down: int)

  // ----------------------------------------------------------------- helpers

  function NonNegative(n: int): nat {
    if n < 0 then 0 else n
  }

  function Reported(c: Connection): Bytes {
    Bytes(NonNegative(c.up), NonNegative(c.down))
  }

  /** `classify_connection`. */
  function Classify(c: Connection, residentialChain: string): Side {
    if residentialChain in c.chains then RESIDENTIAL else AIRPORT
  }

  function WithoutTrailingDots(s: string): string {
    if s != [] && s[|s| - 1] == '.' then WithoutTrailingDots(s[..|s| - 1]) else s
  }

  /** `normalized_host`. */
  function NormalizedHost(c: Connection): (h: string)
    ensures h != [] && |h| <= 253
  {
    var named := if c.host != [] then c.host else if c.destination != [] then c.destination else "UNKNOWN";
    var lower := Lower(WithoutTrailingDots(named));
    if lower == [] then "UNKNOWN" else if |lower| > 253 then lower[..253] else lower
  }

  function Plus(a: Bytes, b: Bytes): Bytes {
    Bytes(a.up + b.up, a.down + b.down)
  }

  function Max(a: Bytes, b: Bytes): Bytes {
    Bytes(if a.up >= b.up then a.up else b.up, if a.down >= b.down then a.down else b.down)
  }

  /** What `b` has beyond `a`. */
  function Excess(b: Bytes, a: Bytes): Bytes {
    Bytes(NonNegative(b.up - a.up), NonNegative(b.down - a.down))
  }

  function FindMaximum(rows: seq<Maximum>, id: string, from: nat): (r: Option<nat>)
    requires from <= |rows|
    ensures r.Some? ==> from <= r.value < |rows| && rows[r.value].id == id
    ensures r.None? ==> forall i | from <= i < |rows| :: rows[i].id != id
    decreases |rows| - from
  {
    if from == |rows| then None else if rows[from].id == id then Some(from) else FindMaximum(rows, id, from + 1)
  }

  function FindDaily(rows: seq<Daily>, day: int, side: Side, from: nat): (r: Option<nat>)
    requires from <= |rows|
    ensures r.Some? ==> from <= r.value < |rows| && rows[r.value].day == day && rows[r.value].side == side
    ensures r.None? ==> forall i | from <= i < |rows| :: rows[i].day != day || rows[i].side != side
    decreases |rows| - from
  {
    if from == |rows| then None
    else if rows[from].day == day && rows[from].side == side then Some(from)
    else FindDaily(rows, day, side, from + 1)
  }

  function FindDomain(rows: seq<Domain>, day: int, host: string, side: Side, from: nat): (r: Option<nat>)
    requires from <= |rows|
    ensures r.Some? ==>
              from <= r.value < |rows| && rows[r.value].day == day && rows[r.value].host == host && rows[r.value].side == side
    ensures r.None? ==> forall i | from <= i < |rows| :: rows[i].day != day || rows[i].host != host || rows[i].side != side
    decreases |rows| - from
  {
    if from == |rows| then None
    else if rows[from].day == day && rows[from].host == host && rows[from].side == side then Some(from)
    else FindDomain(rows, day, host, side, from + 1)
  }

  // -------------------------------------------------------------- the writes

  /** `INSERT ... ON CONFLICT DO UPDATE` on daily_usage. */
  function UpsertDaily(rows: seq<Daily>, day: int, side: Side, b: Bytes): seq<Daily> {
    var i := FindDaily(rows, day, side, 0);
    if i.None? then rows + [Daily(day, side, b)]
    else rows[i.value := rows[i.value].(bytes := Plus(rows[i.value].bytes, b))]
  }

  /** The same on domain_usage. */
  function UpsertDomain(rows: seq<Domain>, day: int, host: string, side: Side, b: Bytes): seq<Domain> {
    var i := FindDomain(rows, day, host, side, 0);
    if i.None? then rows + [Domain(day, host, side, b)]
    else rows[i.value := rows[i.value].(bytes := Plus(rows[i.value].bytes, b))]
  }

  /** `add_usage`. */
  function AddUsage(s: Store, day: int, side: Side, host: string, b: Bytes): Store {
    if b == Bytes(0, 0) then s
    else s.(daily := UpsertDaily(s.daily, day, side, b), domain := UpsertDomain(s.domain, day, host, side, b))
  }

  /** One connection of a batch: the new store, and the bytes that were new. */
  function IngestOne(s: Store, c: Connection, day: int, now: int, chain: string): (Store, Bytes) {
    if c.id == [] then (s, Bytes(0, 0))
    else
      var i := FindMaximum(s.maxima, c.id, 0);
      var b := Reported(c);
      if i.None? then
        var row := Maximum(c.id, Classify(c, chain), NormalizedHost(c), b, now);
        (AddUsage(s.(maxima := s.maxima + [row]), day, row.side, row.host, b), b)
      else
        var row := s.maxima[i.value];
        var delta := Excess(b, row.bytes);
        (AddUsage(s.(maxima := s.maxima[i.value := row.(bytes := Max(row.bytes, b), seen := now)]), day, row.side, row.host, delta),
         delta)
  }

  /** `ingest_connections`: one transaction over the batch. */
  function Ingest(s: Store, batch: seq<Connection>, day: int, now: int, chain: string): (Store, Bytes) {
    if batch == [] then (s, Bytes(0, 0))
    else
      var before := Ingest(s, batch[..|batch| - 1], day, now, chain);
      var one := IngestOne(before.0, batch[|batch| - 1], day, now, chain);
      (one.0, Plus(before.1, one.1))
  }

  function SeenSince(cutoff: int): Maximum -> bool {
    (m: Maximum) => m.seen >= cutoff
  }

  function SeenBefore(cutoff: int): Maximum -> bool {
    (m: Maximum) => m.seen < cutoff
  }

  /** `prune_connection_maxima`. */
  function Prune(s: Store, cutoff: int): Store {
    s.(maxima := Keep(s.maxima, SeenSince(cutoff)))
  }

  // ---------------------------------------------------------- conservation

  ghost predicate UniqueMaxima(rows: seq<Maximum>) {
    forall i, j | 0 <= i < j < |rows| :: rows[i].id != rows[j].id
  }

  ghost predicate UniqueDaily(rows: seq<Daily>) {
    forall i, j | 0 <= i < j < |rows| :: rows[i].day != rows[j].day || rows[i].side != rows[j].side
  }

  ghost predicate UniqueDomain(rows: seq<Domain>) {
    forall i, j | 0 <= i < j < |rows| ::
      rows[i].day != rows[j].day || rows[i].host != rows[j].host || rows[i].side != rows[j].side
  }

  function LiveBytes(side: Side, host: string, d: Direction): Maximum -> nat {
    (m: Maximum) => if m.side == side && m.host == host then m.bytes.Of(d) else 0
  }

  function HostBytes(side: Side, host: string, d: Direction): Domain -> nat {
    (r: Domain) => if r.side == side && r.host == host then r.bytes.Of(d) else 0
  }

  function DayBytes(day: int, side: Side, d: Direction): Domain -> nat {
    (r: Domain) => if r.day == day && r.side == side then r.bytes.Of(d) else 0
  }

  function DailyBytes(day: int, side: Side, d: Direction): Daily -> nat {
    (r: Daily) => if r.day == day && r.side == side then r.bytes.Of(d) else 0
  }

  /** The store with the connections it has forgotten, as they were when they were pruned. */
  datatype History = History(store: Store, pruned: seq<Maximum>)

  /** Per side, host and direction, what was recorded is what the connections, live and pruned, had
      at most. */
  ghost predicate Conserved(h: History) {
    forall side, host, d ::
      Sum(h.store.domain, HostBytes(side, host, d)) ==
      Sum(h.store.maxima, LiveBytes(side, host, d)) + Sum(h.pruned, LiveBytes(side, host, d))
  }

  /** Per day, side and direction, the daily total is the sum over the hosts. */
  ghost predicate DailyIsSumOfHosts(s: Store) {
    forall day, side, d :: Sum(s.daily, DailyBytes(day, side, d)) == Sum(s.domain, DayBytes(day, side, d))
  }

  ghost predicate Inv(h: History) {
    && UniqueMaxima(h.store.maxima) && UniqueDaily(h.store.daily) && UniqueDomain(h.store.domain)
    && Conserved(h) && DailyIsSumOfHosts(h.store)
  }

  lemma UpsertDomainSums(rows: seq<Domain>, day: int, host: string, side: Side, b: Bytes, f: Domain -> nat)
    requires forall x, y :: f(Domain(day, host, side, Plus(x, y))) == f(Domain(day, host, side, x)) + f(Domain(day, host, side, y))
    ensures Sum(UpsertDomain(rows, day, host, side, b), f) == Sum(rows, f) + f(Domain(day, host, side, b))
  {
    var i := FindDomain(rows, day, host, side, 0);
    if i.None? {
      SumAppend(rows, Domain(day, host, side, b), f);
    } else {
      var previous := rows[i.value];
      var updated := previous.(bytes := Plus(previous.bytes, b));
      SumUpdate(rows, i.value, updated, f);
      assert previous == Domain(day, host, side, previous.bytes) && updated == Domain(day, host, side, Plus(previous.bytes, b));
    }
  }

  lemma UpsertDailySums(rows: seq<Daily>, day: int, side: Side, b: Bytes, f: Daily -> nat)
    requires forall x, y :: f(Daily(day, side, Plus(x, y))) == f(Daily(day, side, x)) + f(Daily(day, side, y))
    ensures Sum(UpsertDaily(rows, day, side, b), f) == Sum(rows, f) + f(Daily(day, side, b))
  {
    var i := FindDaily(rows, day, side, 0);
    if i.None? {
      SumAppend(rows, Daily(day, side, b), f);
    } else {
      var previous := rows[i.value];
      var updated := previous.(bytes := Plus(previous.bytes, b));
      SumUpdate(rows, i.value, updated, f);
      assert previous == Daily(day, side, previous.bytes) && updated == Daily(day, side, Plus(previous.bytes, b));
    }
  }

  /** Adding usage adds the same bytes to a day and to one of its hosts. */
  lemma AddUsageSums(s: Store, day: int, side: Side, host: string, b: Bytes)
    ensures var r := AddUsage(s, day, side, host, b);
            && r.maxima == s.maxima
            && (forall side', host', d ::
                  Sum(r.domain, HostBytes(side', host', d)) ==
                  Sum(s.domain, HostBytes(side', host', d)) + if side' == side && host' == host then b.Of(d) else 0)
            && (DailyIsSumOfHosts(s) ==> DailyIsSumOfHosts(r))
            && (UniqueDaily(s.daily) ==> UniqueDaily(r.daily)) && (UniqueDomain(s.domain) ==> UniqueDomain(r.domain))
  {
    hide Sum, FindDaily, FindDomain;
    var r := AddUsage(s, day, side, host, b);
    if b != Bytes(0, 0) {
      forall side', host', d
        ensures Sum(r.domain, HostBytes(side', host', d)) ==
                Sum(s.domain, HostBytes(side', host', d)) + if side' == side && host' == host then b.Of(d) else 0
      {
        UpsertDomainSums(s.domain, day, host, side, b, HostBytes(side', host', d));
      }
      forall day', side', d
        ensures Sum(r.domain, DayBytes(day', side', d)) - Sum(s.domain, DayBytes(day', side', d)) ==
                Sum(r.daily, DailyBytes(day', side', d)) - Sum(s.daily, DailyBytes(day', side', d))
      {
        UpsertDomainSums(s.domain, day, host, side, b, DayBytes(day', side', d));
        UpsertDailySums(s.daily, day, side, b, DailyBytes(day', side', d));
      }
    }
  }

  /** Where the bytes of an ingest land: on one side, host and day, and nowhere else. */
  ghost predicate Lands(s: Store, r: Store, day: int, side: Side, host: string, up: nat, down: nat) {
    && (forall side', host' ::
          && Sum(r.domain, HostBytes(side', host', Upload)) ==
             Sum(s.domain, HostBytes(side', host', Upload)) + (if side' == side && host' == host then up else 0)
          && Sum(r.domain, HostBytes(side', host', Download)) ==
             Sum(s.domain, HostBytes(side', host', Download)) + (if side' == side && host' == host then down else 0))
    && (forall day', side' ::
          && Sum(r.daily, DailyBytes(day', side', Upload)) ==
             Sum(s.daily, DailyBytes(day', side', Upload)) + (if day' == day && side' == side then up else 0)
          && Sum(r.daily, DailyBytes(day', side', Download)) ==
             Sum(s.daily, DailyBytes(day', side', Download)) + (if day' == day && side' == side then down else 0))
  }

  lemma AddUsageLands(s: Store, day: int, side: Side, host: string, b: Bytes)
    ensures Lands(s, AddUsage(s, day, side, host, b), day, side, host, b.up, b.down)
  {
    hide Sum, FindDaily, FindDomain;
    var r := AddUsage(s, day, side, host, b);
    if b != Bytes(0, 0) {
      forall side', host', d
        ensures Sum(r.domain, HostBytes(side', host', d)) ==
                Sum(s.domain, HostBytes(side', host', d)) + if side' == side && host' == host then b.Of(d) else 0
      {
        UpsertDomainSums(s.domain, day, host, side, b, HostBytes(side', host', d));
      }
      forall day', side', d
        ensures Sum(r.daily, DailyBytes(day', side', d)) ==
                Sum(s.daily, DailyBytes(day', side', d)) + if day' == day && side' == side then b.Of(d) else 0
      {
        UpsertDailySums(s.daily, day, side, b, DailyBytes(day', side', d));
      }
    }
  }

  /** A connection seen for the first time: its bytes, in their own directions, land on the residential
      side when its chains hold the residential chain and on the airport side otherwise, on its host. */
  lemma NewConnectionLands(s: Store, c: Connection, day: int, now: int, chain: string)
    requires c.id != [] && FindMaximum(s.maxima, c.id, 0).None?
    ensures var (r, added) := IngestOne(s, c, day, now, chain);
            var up := if c.up > 0 then c.up else 0;
            var down := if c.down > 0 then c.down else 0;
            var side := if chain in c.chains then RESIDENTIAL else AIRPORT;
            && added.up == up && added.down == down
            && r.maxima == s.maxima + [Maximum(c.id, side, NormalizedHost(c), Bytes(up, down), now)]
            && Lands(s, r, day, side, NormalizedHost(c), up, down)
  {
    hide Sum, AddUsage, NormalizedHost, Lands;
    var row := Maximum(c.id, Classify(c, chain), NormalizedHost(c), Reported(c), now);
    var s' := s.(maxima := s.maxima + [row]);
    AddUsageLands(s', day, row.side, row.host, Reported(c));
    AddUsageSums(s', day, row.side, row.host, Reported(c));
    SameTablesLand(s, s', AddUsage(s', day, row.side, row.host, Reported(c)), day, row.side, row.host, Reported(c));
  }

  /** A connection seen before: what its counters have beyond their maxima lands where its first
      sighting put it, whatever its chains and its host say now. */
  lemma KnownConnectionLands(s: Store, c: Connection, day: int, now: int, chain: string, i: nat)
    requires c.id != [] && FindMaximum(s.maxima, c.id, 0) == Some(i)
    ensures i < |s.maxima|
    ensures var (r, added) := IngestOne(s, c, day, now, chain);
            var row := s.maxima[i];
            && added.up == (if c.up > row.bytes.up then c.up - row.bytes.up else 0)
            && added.down == (if c.down > row.bytes.down then c.down - row.bytes.down else 0)
            && r.maxima == s.maxima[i := Maximum(row.id, row.side, row.host, Bytes(row.bytes.up + added.up, row.bytes.down + added.down), now)]
            && Lands(s, r, day, row.side, row.host, added.up, added.down)
  {
    hide Sum, AddUsage, Lands;
    var row := s.maxima[i];
    var delta := Excess(Reported(c), row.bytes);
    var s' := s.(maxima := s.maxima[i := row.(bytes := Max(row.bytes, Reported(c)), seen := now)]);
    AddUsageLands(s', day, row.side, row.host, delta);
    AddUsageSums(s', day, row.side, row.host, delta);
    SameTablesLand(s, s', AddUsage(s', day, row.side, row.host, delta), day, row.side, row.host, delta);
  }

  lemma SameTablesLand(s: Store, s': Store, r: Store, day: int, side: Side, host: string, b: Bytes)
    requires s'.daily == s.daily && s'.domain == s.domain && Lands(s', r, day, side, host, b.up, b.down)
    ensures Lands(s, r, day, side, host, b.up, b.down)
  {
    hide Sum;
  }

  /** The host of a connection: its name, or else its address, or else UNKNOWN, without the dots at the
      end, in lower case, cut to 253 characters. */
  lemma HostExactly(c: Connection) returns (n: nat)
    ensures var named := if c.host != [] then c.host else if c.destination != [] then c.destination else "UNKNOWN";
            && n <= |named| && (forall i | n <= i < |named| :: named[i] == '.') && (n > 0 ==> named[n - 1] != '.')
            && NormalizedHost(c) == (if n == 0 then "UNKNOWN" else Lower(named[..n])[..if n > 253 then 253 else n])
  {
    var named := if c.host != [] then c.host else if c.destination != [] then c.destination else "UNKNOWN";
    n := DotsAtTheEnd(named);
    assert |Lower(named[..n])| == n;
  }

  lemma {:induction false} DotsAtTheEnd(s: string) returns (n: nat)
    ensures n <= |s| && WithoutTrailingDots(s) == s[..n] && (n > 0 ==> s[n - 1] != '.')
    ensures forall i | n <= i < |s| :: s[i] == '.'
  {
    if s != [] && s[|s| - 1] == '.' {
      n := DotsAtTheEnd(s[..|s| - 1]);
      assert s[..|s| - 1][..n] == s[..n];
    } else {
      n := |s|;
      assert s[..n] == s;
    }
  }

  lemma IngestOneKeeps(h: History, c: Connection, day: int, now: int, chain: string)
    requires Inv(h)
    ensures Inv(h.(store := IngestOne(h.store, c, day, now, chain).0))
  {
    hide Sum, AddUsage, Reported, Classify, NormalizedHost;
    if c.id != [] {
      var s := h.store;
      var i := FindMaximum(s.maxima, c.id, 0);
      var b := Reported(c);
      if i.None? {
        var row := Maximum(c.id, Classify(c, chain), NormalizedHost(c), b, now);
        var s' := s.(maxima := s.maxima + [row]);
        AddUsageSums(s', day, row.side, row.host, b);
        forall side, host, d
          ensures Sum(s'.maxima, LiveBytes(side, host, d)) ==
                  Sum(s.maxima, LiveBytes(side, host, d)) + if side == row.side && host == row.host then b.Of(d) else 0
        {
          SumAppend(s.maxima, row, LiveBytes(side, host, d));
        }
      } else {
        var row := s.maxima[i.value];
        var row' := row.(bytes := Max(row.bytes, b), seen := now);
        var delta := Excess(b, row.bytes);
        var s' := s.(maxima := s.maxima[i.value := row']);
        AddUsageSums(s', day, row.side, row.host, delta);
        forall side, host, d
          ensures Sum(s'.maxima, LiveBytes(side, host, d)) ==
                  Sum(s.maxima, LiveBytes(side, host, d)) + if side == row.side && host == row.host then delta.Of(d) else 0
        {
          SumUpdate(s.maxima, i.value, row', LiveBytes(side, host, d));
        }
      }
    }
  }

  lemma {:induction false} IngestKeeps(h: History, batch: seq<Connection>, day: int, now: int, chain: string)
    requires Inv(h)
    ensures Inv(h.(store := Ingest(h.store, batch, day, now, chain).0))
  {
    hide Inv, IngestOne;
    if batch != [] {
      IngestKeeps(h, batch[..|batch| - 1], day, now, chain);
      var before := h.(store := Ingest(h.store, batch[..|batch| - 1], day, now, chain).0);
      IngestOneKeeps(before, batch[|batch| - 1], day, now, chain);
    }
  }

  function RecordedOnHosts(d: Direction): Domain -> nat {
    (row: Domain) => row.bytes.Of(d)
  }

  function RecordedOnDays(d: Direction): Daily -> nat {
    (row: Daily) => row.bytes.Of(d)
  }

  lemma AddUsageRecords(s: Store, day: int, side: Side, host: string, b: Bytes, d: Direction)
    ensures var r := AddUsage(s, day, side, host, b);
            && Sum(r.domain, RecordedOnHosts(d)) == Sum(s.domain, RecordedOnHosts(d)) + b.Of(d)
            && Sum(r.daily, RecordedOnDays(d)) == Sum(s.daily, RecordedOnDays(d)) + b.Of(d)
  {
    hide Sum, FindDaily, FindDomain;
    UpsertDomainSums(s.domain, day, host, side, b, RecordedOnHosts(d));
    UpsertDailySums(s.daily, day, side, b, RecordedOnDays(d));
  }

  lemma IngestOneRecords(s: Store, c: Connection, day: int, now: int, chain: string, d: Direction)
    ensures var (r, added) := IngestOne(s, c, day, now, chain);
            && Sum(r.domain, RecordedOnHosts(d)) == Sum(s.domain, RecordedOnHosts(d)) + added.Of(d)
            && Sum(r.daily, RecordedOnDays(d)) == Sum(s.daily, RecordedOnDays(d)) + added.Of(d)
  {
    hide Sum, AddUsage, Reported, Classify, NormalizedHost;
    var i := FindMaximum(s.maxima, c.id, 0);
    var b := Reported(c);
    if c.id != [] && i.None? {
      var row := Maximum(c.id, Classify(c, chain), NormalizedHost(c), b, now);
      AddUsageRecords(s.(maxima := s.maxima + [row]), day, row.side, row.host, b, d);
    } else if c.id != [] {
      var row := s.maxima[i.value];
      var s' := s.(maxima := s.maxima[i.value := row.(bytes := Max(row.bytes, b), seen := now)]);
      AddUsageRecords(s', day, row.side, row.host, Excess(b, row.bytes), d);
    }
  }

  /** The totals an ingest reports are the bytes by which the recorded usage grew, in both tables. */
  lemma {:induction false} IngestReportsItsGrowth(s: Store, batch: seq<Connection>, day: int, now: int, chain: string, d: Direction)
    ensures var (r, added) := Ingest(s, batch, day, now, chain);
            && Sum(r.domain, RecordedOnHosts(d)) == Sum(s.domain, RecordedOnHosts(d)) + added.Of(d)
            && Sum(r.daily, RecordedOnDays(d)) == Sum(s.daily, RecordedOnDays(d)) + added.Of(d)
  {
    hide IngestOne, Sum;
    if batch != [] {
      IngestReportsItsGrowth(s, batch[..|batch| - 1], day, now, chain, d);
      IngestOneRecords(Ingest(s, batch[..|batch| - 1], day, now, chain).0, batch[|batch| - 1], day, now, chain, d);
    }
  }

  function Forgotten(s: Store, cutoff: int): seq<Maximum> {
    Keep(s.maxima, SeenBefore(cutoff))
  }

  lemma {:induction false} KeepUnique(rows: seq<Maximum>, p: Maximum -> bool)
    requires UniqueMaxima(rows)
    ensures UniqueMaxima(Keep(rows, p))
  {
    if rows != [] {
      var n := |rows| - 1;
      KeepUnique(rows[..n], p);
      KeepMembers(rows[..n], p);
      var front := Keep(rows[..n], p);
      forall i | 0 <= i < |front|
        ensures front[i].id != rows[n].id
      {
        assert front[i] in front && front[i] in rows[..n];
      }
    }
  }

  lemma PruneKeeps(h: History, cutoff: int)
    requires Inv(h)
    ensures Inv(History(Prune(h.store, cutoff), h.pruned + Forgotten(h.store, cutoff)))
  {
    hide Sum, Keep;
    KeepUnique(h.store.maxima, SeenSince(cutoff));
    forall side, host, d
      ensures Sum(Prune(h.store, cutoff).maxima, LiveBytes(side, host, d)) + Sum(h.pruned + Forgotten(h.store, cutoff), LiveBytes(side, host, d)) ==
              Sum(h.store.maxima, LiveBytes(side, host, d)) + Sum(h.pruned, LiveBytes(side, host, d))
    {
      var f := LiveBytes(side, host, d);
      SumSplit(h.store.maxima, SeenSince(cutoff), SeenBefore(cutoff), f);
      SumConcat(h.pruned, Forgotten(h.store, cutoff), f);
    }
  }

  /** Pruning forgets exactly the connections not seen since the cutoff and keeps the order of the
      others. It touches no recorded usage, and pruning again with an earlier or the same cutoff removes
      nothing more. */
  lemma PruneForgetsExactly(s: Store, cutoff: int, earlier: int)
    requires earlier <= cutoff
    ensures IsSelection(Prune(s, cutoff).maxima, s.maxima, SeenSince(cutoff))
    ensures forall m :: m in Prune(s, cutoff).maxima <==> m in s.maxima && m.seen >= cutoff
    ensures Prune(s, cutoff).daily == s.daily && Prune(s, cutoff).domain == s.domain
    ensures Prune(Prune(s, cutoff), earlier) == Prune(s, cutoff)
  {
    var places := KeepSelects(s.maxima, SeenSince(cutoff));
    KeepMembers(s.maxima, SeenSince(cutoff));
    var kept := Prune(s, cutoff).maxima;
    forall i | 0 <= i < |kept|
      ensures SeenSince(earlier)(kept[i])
    {
      assert kept[i] in kept;
    }
    KeepAll(kept, SeenSince(earlier));
  }

  lemma {:induction false} KeepAll(rows: seq<Maximum>, p: Maximum -> bool)
    requires forall i | 0 <= i < |rows| :: p(rows[i])
    ensures Keep(rows, p) == rows
  {
    if rows != [] {
      var n := |rows| - 1;
      KeepAll(rows[..n], p);
      assert rows == rows[..n] + [rows[n]];
    }
  }

  datatype Step = IngestStep(batch: seq<Connection>, day: int, now: int) | PruneStep(cutoff: int)

  function Exec(h: History, steps: seq<Step>, chain: string): History
    decreases |steps|
  {
    if steps == [] then h
    else
      match steps[0]
      case IngestStep(batch, day, now) => Exec(h.(store := Ingest(h.store, batch, day, now, chain).0), steps[1..], chain)
      case PruneStep(cutoff) => Exec(History(Prune(h.store, cutoff), h.pruned + Forgotten(h.store, cutoff)), steps[1..], chain)
  }

  /** Conservation. Over any run of ingests and prunes, per side and per host the recorded bytes are
      the live maxima plus the maxima at prune time, and daily totals are the sums over hosts. */
  lemma {:induction false} CollectorConserves(h: History, steps: seq<Step>, chain: string)
    requires Inv(h)
    ensures Inv(Exec(h, steps, chain))
    decreases |steps|
  {
    hide Inv, Ingest, Prune, Forgotten;
    if steps != [] {
      match steps[0] {
        case IngestStep(batch, day, now) =>
          IngestKeeps(h, batch, day, now, chain);
          CollectorConserves(h.(store := Ingest(h.store, batch, day, now, chain).0), steps[1..], chain);
        case PruneStep(cutoff) =>
          PruneKeeps(h, cutoff);
          CollectorConserves(History(Prune(h.store, cutoff), h.pruned + Forgotten(h.store, cutoff)), steps[1..], chain);
      }
    }
  }

  lemma EmptyStoreConserves()
    ensures Inv(History(Store([], [], []), []))
  {
  }

  // ------------------------------------------------------------- repetition

  /** The report of a connection is not beyond what the store has seen of it. */
  predicate Covered(s: Store, c: Connection) {
    c.id == [] ||
    var i := FindMaximum(s.maxima, c.id, 0);
    i.Some? && Reported(c).up <= s.maxima[i.value].bytes.up && Reported(c).down <= s.maxima[i.value].bytes.down
  }

  /** The rows of two stores differ only in when they were seen. */
  ghost predicate SameCounts(s: Store, t: Store) {
    && s.daily == t.daily && s.domain == t.domain && |s.maxima| == |t.maxima|
    && forall i | 0 <= i < |s.maxima| :: t.maxima[i] == s.maxima[i].(seen := t.maxima[i].seen)
  }

  lemma {:induction false} FindSame(s: seq<Maximum>, t: seq<Maximum>, id: string, from: nat)
    requires |s| == |t| && from <= |s| && forall i | 0 <= i < |s| :: s[i].id == t[i].id
    ensures FindMaximum(s, id, from) == FindMaximum(t, id, from)
    decreases |s| - from
  {
    if from < |s| {
      FindSame(s, t, id, from + 1);
    }
  }

  lemma FindAfterAppend(rows: seq<Maximum>, row: Maximum, id: string, from: nat)
    requires from <= |rows|
    ensures var i := FindMaximum(rows, id, from);
            FindMaximum(rows + [row], id, from) == (if i.Some? then i else if row.id == id then Some(|rows|) else None)
    decreases |rows| - from
  {
    if from < |rows| {
      FindAfterAppend(rows, row, id, from + 1);
    } else {
      assert (rows + [row])[from] == row;
    }
  }

  lemma AddUsageKeepsMaxima(s: Store, day: int, side: Side, host: string, b: Bytes)
    ensures AddUsage(s, day, side, host, b).maxima == s.maxima
  {
  }

  /** Ingesting a connection covers it and uncovers no other. */
  lemma IngestOneCovers(s: Store, c: Connection, day: int, now: int, chain: string, other: Connection)
    ensures var r := IngestOne(s, c, day, now, chain).0;
            Covered(r, c) && (Covered(s, other) ==> Covered(r, other))
  {
    hide AddUsage, NormalizedHost, Classify;
    if c.id != [] {
      var i := FindMaximum(s.maxima, c.id, 0);
      if i.None? {
        var row := Maximum(c.id, Classify(c, chain), NormalizedHost(c), Reported(c), now);
        AddUsageKeepsMaxima(s.(maxima := s.maxima + [row]), day, row.side, row.host, Reported(c));
        FindAfterAppend(s.maxima, row, c.id, 0);
        FindAfterAppend(s.maxima, row, other.id, 0);
      } else {
        var row := s.maxima[i.value];
        var t := s.(maxima := s.maxima[i.value := row.(bytes := Max(row.bytes, Reported(c)), seen := now)]);
        AddUsageKeepsMaxima(t, day, row.side, row.host, Excess(Reported(c), row.bytes));
        FindSame(s.maxima, t.maxima, c.id, 0);
        FindSame(s.maxima, t.maxima, other.id, 0);
      }
    }
  }

  lemma {:induction false} IngestCovers(s: Store, batch: seq<Connection>, day: int, now: int, chain: string, other: Connection)
    ensures var r := Ingest(s, batch, day, now, chain).0;
            && (forall k | 0 <= k < |batch| :: Covered(r, batch[k]))
            && (Covered(s, other) ==> Covered(r, other))
  {
    hide IngestOne, Covered;
    if batch != [] {
      var n := |batch| - 1;
      var front := Ingest(s, batch[..n], day, now, chain).0;
      IngestCovers(s, batch[..n], day, now, chain, other);
      IngestOneCovers(front, batch[n], day, now, chain, other);
      forall k | 0 <= k < n
        ensures Covered(Ingest(s, batch, day, now, chain).0, batch[k])
      {
        assert batch[..n][k] == batch[k];
        IngestOneCovers(front, batch[n], day, now, chain, batch[k]);
      }
    }
  }

  lemma CoveredAddsNothing(s: Store, c: Connection, day: int, now: int, chain: string)
    requires Covered(s, c)
    ensures var r := IngestOne(s, c, day, now, chain); r.1 == Bytes(0, 0) && SameCounts(s, r.0)
  {
  }

  lemma SameCountsCovers(s: Store, t: Store, c: Connection)
    requires SameCounts(s, t)
    ensures Covered(s, c) <==> Covered(t, c)
  {
    FindSame(s.maxima, t.maxima, c.id, 0);
  }

  lemma SameCountsTrans(a: Store, b: Store, c: Store)
    requires SameCounts(a, b) && SameCounts(b, c)
    ensures SameCounts(a, c)
  {
  }

  lemma {:induction false} CoveredBatchAddsNothing(s: Store, batch: seq<Connection>, day: int, now: int, chain: string)
    requires forall k | 0 <= k < |batch| :: Covered(s, batch[k])
    ensures var r := Ingest(s, batch, day, now, chain); r.1 == Bytes(0, 0) && SameCounts(s, r.0)
  {
    hide Covered, IngestOne, SameCounts;
    if batch == [] {
      SameCountsSelf(s);
    } else {
      var n := |batch| - 1;
      forall k | 0 <= k < n
        ensures Covered(s, batch[..n][k])
      {
        assert batch[..n][k] == batch[k];
      }
      CoveredBatchAddsNothing(s, batch[..n], day, now, chain);
      var front := Ingest(s, batch[..n], day, now, chain).0;
      SameCountsCovers(s, front, batch[n]);
      CoveredAddsNothing(front, batch[n], day, now, chain);
      SameCountsTrans(s, front, IngestOne(front, batch[n], day, now, chain).0);
    }
  }

  lemma SameCountsSelf(s: Store)
    ensures SameCounts(s, s)
  {
  }

  /** Ingesting a batch again, with no prune between and on whatever day, adds nothing. */
  lemma ReingestAddsNothing(s: Store, batch: seq<Connection>, day: int, now: int, day': int, now': int, chain: string)
    ensures var once := Ingest(s, batch, day, now, chain).0;
            var twice := Ingest(once, batch, day', now', chain);
            twice.1 == Bytes(0, 0) && SameCounts(once, twice.0)
  {
    hide Covered, Ingest, IngestOne;
    var once := Ingest(s, batch, day, now, chain).0;
    if batch != [] {
      IngestCovers(s, batch, day, now, chain, batch[0]);
    }
    CoveredBatchAddsNothing(once, batch, day', now', chain);
  }

  // ----------------------------------------------------------------- report

  /** One day of the report. */
  datatype Bucket = Bucket(day: int, airport: nat, residential: nat)

  datatype Report = Report(airport: nat, residential: nat, daily: seq<Bucket>)

  function Both(b: Bytes): nat {
    b.up + b.down
  }

  function SideTotal(side: Side): Daily -> nat {
    (r: Daily) => if r.side == side then Both(r.bytes) else 0
  }

  function DaySide(day: int, side: Side): Daily -> nat {
    (r: Daily) => if r.day == day && r.side == side then Both(r.bytes) else 0
  }

  function BucketOf(side: Side): Bucket -> nat {
    (b: Bucket) => if side.AIRPORT? then b.airport else b.residential
  }

  ghost predicate HasDay(buckets: seq<Bucket>, day: int) {
    exists i :: 0 <= i < |buckets| && buckets[i].day == day
  }

  /** The days of a report over the rows so far. */
  ghost predicate BucketsOk(rows: seq<Daily>, buckets: seq<Bucket>) {
    && (forall i, j | 0 <= i < j < |buckets| :: buckets[i].day != buckets[j].day)
    && (forall i | 0 <= i < |buckets| ::
          && buckets[i].airport == Sum(rows, DaySide(buckets[i].day, AIRPORT))
          && buckets[i].residential == Sum(rows, DaySide(buckets[i].day, RESIDENTIAL)))
    && (forall k | 0 <= k < |rows| :: HasDay(buckets, rows[k].day))
  }

  /** A day without rows gets an empty bucket. */
  lemma OpenBucket(rows: seq<Daily>, buckets: seq<Bucket>, day: int)
    requires BucketsOk(rows, buckets) && !HasDay(buckets, day)
    ensures BucketsOk(rows, buckets + [Bucket(day, 0, 0)])
    ensures forall side :: Sum(buckets + [Bucket(day, 0, 0)], BucketOf(side)) == Sum(buckets, BucketOf(side))
  {
    hide Sum;
    NoRowOfTheDay(rows, buckets, day);
    var more := buckets + [Bucket(day, 0, 0)];
    forall side
      ensures Sum(more, BucketOf(side)) == Sum(buckets, BucketOf(side))
    {
      SumAppend(buckets, Bucket(day, 0, 0), BucketOf(side));
    }
    forall k | 0 <= k < |rows|
      ensures HasDay(more, rows[k].day)
    {
      DayStays(buckets, more, rows[k].day);
    }
  }

  lemma DayStays(buckets: seq<Bucket>, more: seq<Bucket>, day: int)
    requires HasDay(buckets, day) && |buckets| <= |more|
    requires forall i | 0 <= i < |buckets| :: more[i].day == buckets[i].day
    ensures HasDay(more, day)
  {
  }

  function Filled(b: Bucket, row: Daily): Bucket {
    if row.side.AIRPORT? then b.(airport := Both(row.bytes)) else b.(residential := Both(row.bytes))
  }

  /** The first row of its day and side fills its bucket. */
  lemma FillBucket(rows: seq<Daily>, buckets: seq<Bucket>, i: nat, row: Daily)
    requires BucketsOk(rows, buckets) && i < |buckets| && buckets[i].day == row.day
    requires Sum(rows, DaySide(row.day, row.side)) == 0
    ensures BucketsOk(rows + [row], buckets[i := Filled(buckets[i], row)])
    ensures forall side :: Sum(buckets[i := Filled(buckets[i], row)], BucketOf(side)) ==
                           Sum(buckets, BucketOf(side)) + SideTotal(side)(row)
  {
    hide Sum;
    var after := buckets[i := Filled(buckets[i], row)];
    forall side
      ensures Sum(after, BucketOf(side)) == Sum(buckets, BucketOf(side)) + SideTotal(side)(row)
    {
      SumUpdate(buckets, i, after[i], BucketOf(side));
    }
    forall k, side | 0 <= k < |after|
      ensures BucketOf(side)(after[k]) == Sum(rows + [row], DaySide(after[k].day, side))
    {
      SumAppend(rows, row, DaySide(after[k].day, side));
      BucketSays(rows, buckets, k, side);
    }
    forall k | 0 <= k < |after|
      ensures after[k].airport == Sum(rows + [row], DaySide(after[k].day, AIRPORT))
      ensures after[k].residential == Sum(rows + [row], DaySide(after[k].day, RESIDENTIAL))
    {
      assert BucketOf(AIRPORT)(after[k]) == after[k].airport && BucketOf(RESIDENTIAL)(after[k]) == after[k].residential;
    }
    forall k | 0 <= k < |rows + [row]|
      ensures HasDay(after, (rows + [row])[k].day)
    {
      if k < |rows| {
        DayStays(buckets, after, rows[k].day);
      } else {
        assert after[i].day == row.day;
      }
    }
  }

  lemma BucketSays(rows: seq<Daily>, buckets: seq<Bucket>, k: nat, side: Side)
    requires BucketsOk(rows, buckets) && k < |buckets|
    ensures BucketOf(side)(buckets[k]) == Sum(rows, DaySide(buckets[k].day, side))
  {
  }

  /** `build_report`, its totals and its days. The row of a day and side is assigned, not added, so
      this relies on the primary key of daily_usage. */
  method BuildReport(daily: seq<Daily>) returns (r: Report)
    requires UniqueDaily(daily)
    ensures r.airport == Sum(daily, SideTotal(AIRPORT)) && r.residential == Sum(daily, SideTotal(RESIDENTIAL))
    ensures r.airport == Sum(r.daily, BucketOf(AIRPORT)) && r.residential == Sum(r.daily, BucketOf(RESIDENTIAL))
    ensures BucketsOk(daily, r.daily)
  {
    hide Sum, BucketsOk;
    var airport, residential := 0, 0;
    var buckets: seq<Bucket> := [];
    EmptySums();
    for n := 0 to |daily|
      invariant airport == Sum(daily[..n], SideTotal(AIRPORT)) == Sum(buckets, BucketOf(AIRPORT))
      invariant residential == Sum(daily[..n], SideTotal(RESIDENTIAL)) == Sum(buckets, BucketOf(RESIDENTIAL))
      invariant BucketsOk(daily[..n], buckets)
    {
      var row := daily[n];
      assert daily[..n + 1] == daily[..n] + [row];
      SumAppend(daily[..n], row, SideTotal(AIRPORT));
      SumAppend(daily[..n], row, SideTotal(RESIDENTIAL));
      NothingYet(daily, n);
      var i := 0;
      while i < |buckets| && buckets[i].day != row.day
        invariant 0 <= i <= |buckets|
        invariant forall k | 0 <= k < i :: buckets[k].day != row.day
      {
        i := i + 1;
      }
      if i == |buckets| {
        OpenBucket(daily[..n], buckets, row.day);
        buckets := buckets + [Bucket(row.day, 0, 0)];
      }
      FillBucket(daily[..n], buckets, i, row);
      buckets := buckets[i := Filled(buckets[i], row)];
      if row.side.AIRPORT? {
        airport := airport + Both(row.bytes);
      } else {
        residential := residential + Both(row.bytes);
      }
    }
    assert daily[..|daily|] == daily;
    r := Report(airport, residential, buckets);
  }

  lemma EmptySums()
    ensures forall f: Daily -> nat :: Sum([], f) == 0
    ensures forall f: Bucket -> nat :: Sum([], f) == 0
    ensures BucketsOk([], [])
  {
  }

  /** The primary key: no earlier row has the day and side of this one. */
  lemma NothingYet(daily: seq<Daily>, n: nat)
    requires UniqueDaily(daily) && n < |daily|
    ensures Sum(daily[..n], DaySide(daily[n].day, daily[n].side)) == 0
  {
    AllZero(daily[..n], DaySide(daily[n].day, daily[n].side));
  }

  lemma NoRowOfTheDay(rows: seq<Daily>, buckets: seq<Bucket>, day: int)
    requires !HasDay(buckets, day)
    requires forall k | 0 <= k < |rows| :: HasDay(buckets, rows[k].day)
    ensures forall side :: Sum(rows, DaySide(day, side)) == 0
  {
  }

  lemma {:induction false} AllZero<T>(rows: seq<T>, f: T -> nat)
    requires forall i | 0 <= i < |rows| :: f(rows[i]) == 0
    ensures Sum(rows, f) == 0
  {
    if rows != [] {
      AllZero(rows[..|rows| - 1], f);
    }
  }

  /** The totals an ingest returns. */
  datatype Totals = Totals(connections: nat, bytes: Bytes)

  function Identified(c: Connection): nat {
    if c.id == [] then 0 else 1
  }

  lemma NothingIngested(s: Store, day: int, now: int, chain: string)
    ensures Ingest(s, [], day, now, chain) == (s, Bytes(0, 0)) && Sum([], Identified) == 0
  {
  }

  lemma NothingIdentified(s: Store, c: Connection, day: int, now: int, chain: string)
    requires c.id == []
    ensures IngestOne(s, c, day, now, chain) == (s, Bytes(0, 0))
  {
  }

  // --------------------------------------------------------------- in place

  /** The database of the collector. */
  class Collector {
    var maxima: seq<Maximum>
    var daily: seq<Daily>
    var domain: seq<Domain>

    constructor (s: Store)
      ensures Now() == s
    {
      maxima, daily, domain := s.maxima, s.daily, s.domain;
    }

    function Now(): Store
      reads this
    {
      Store(maxima, daily, domain)
    }

    method Add(day: int, side: Side, host: string, b: Bytes)
      modifies this`daily, this`domain
      ensures Now() == AddUsage(old(Now()), day, side, host, b)
    {
      if b.up == 0 && b.down == 0 {
        return;
      }
      daily := UpsertDaily(daily, day, side, b);
      domain := UpsertDomain(domain, day, host, side, b);
    }

    /** `ingest_connections`: one transaction. `failsAt` is the item whose statements raise, or the
        length of the batch when the statement after the items does. */
    method IngestConnections(batch: seq<Connection>, day: int, now: int, chain: string, failsAt: Option<nat>)
      returns (r: Option<Totals>)
      modifies this
      ensures r.None? <==> failsAt.Some? && failsAt.value <= |batch|
      ensures r.None? ==> Now() == old(Now())
      ensures r.Some? ==> (Now(), r.value.bytes) == Ingest(old(Now()), batch, day, now, chain)
      ensures r.Some? ==> r.value.connections == Sum(batch, Identified)
      ensures r.Some? ==> forall d ::
                && Sum(domain, RecordedOnHosts(d)) == Sum(old(domain), RecordedOnHosts(d)) + r.value.bytes.Of(d)
                && Sum(daily, RecordedOnDays(d)) == Sum(old(daily), RecordedOnDays(d)) + r.value.bytes.Of(d)
    {
      hide Ingest, Sum;
      var begin := Now();
      r := IngestItems(batch, day, now, chain, failsAt);
      if r.None? || failsAt == Some(|batch|) {
        Rollback(begin);
        return None;
      }
      forall d {
        IngestReportsItsGrowth(begin, batch, day, now, chain, d);
      }
    }

    method IngestItems(batch: seq<Connection>, day: int, now: int, chain: string, failsAt: Option<nat>)
      returns (r: Option<Totals>)
      modifies this
      ensures r.None? <==> failsAt.Some? && failsAt.value < |batch|
      ensures r.Some? ==> (Now(), r.value.bytes) == Ingest(old(Now()), batch, day, now, chain)
      ensures r.Some? ==> r.value.connections == Sum(batch, Identified)
    {
      hide IngestOne, Sum;
      var added, connections := Bytes(0, 0), 0;
      ghost var begin := Now();
      NothingIngested(begin, day, now, chain);
      for n := 0 to |batch|
        invariant (Now(), added) == Ingest(begin, batch[..n], day, now, chain)
        invariant connections == Sum(batch[..n], Identified)
        invariant failsAt.Some? ==> n <= failsAt.value
      {
        if failsAt == Some(n) {
          return None;
        }
        assert batch[..n + 1] == batch[..n] + [batch[n]];
        SumAppend(batch[..n], batch[n], Identified);
        var c := batch[n];
        if c.id != [] {
          var delta := IngestConnection(c, day, now, chain);
          added := Plus(added, delta);
          connections := connections + 1;
        } else {
          NothingIdentified(Now(), c, day, now, chain);
        }
      }
      assert batch[..|batch|] == batch;
      r := Some(Totals(connections, added));
    }

    method Rollback(begin: Store)
      modifies this
      ensures Now() == begin
    {
      maxima, daily, domain := begin.maxima, begin.daily, begin.domain;
    }

    method IngestConnection(c: Connection, day: int, now: int, chain: string) returns (delta: Bytes)
      requires c.id != []
      modifies this
      ensures (Now(), delta) == IngestOne(old(Now()), c, day, now, chain)
    {
      var i := 0;
      while i < |maxima| && maxima[i].id != c.id
        invariant 0 <= i <= |maxima|
        invariant FindMaximum(maxima, c.id, 0) == FindMaximum(maxima, c.id, i)
      {
        i := i + 1;
      }
      var b := Reported(c);
      var side, host;
      if i == |maxima| {
        side, host, delta := Classify(c, chain), NormalizedHost(c), b;
        maxima := maxima + [Maximum(c.id, side, host, b, now)];
      } else {
        var row := maxima[i];
        side, host, delta := row.side, row.host, Excess(b, row.bytes);
        maxima := maxima[i := row.(bytes := Max(row.bytes, b), seen := now)];
      }
      Add(day, side, host, delta);
    }

    /** `prune_connection_maxima`: a connection stays exactly when it was seen since the cutoff, in its
        place among the others; recorded usage is not touched. */
    method PruneConnectionMaxima(cutoff: int)
      modifies this`maxima
      ensures Now() == Prune(old(Now()), cutoff)
      ensures IsSelection(maxima, old(maxima), SeenSince(cutoff))
      ensures forall m :: m in maxima <==> m in old(maxima) && m.seen >= cutoff
    {
      ghost var places := KeepSelects(maxima, SeenSince(cutoff));
      KeepMembers(maxima, SeenSince(cutoff));
      maxima := Keep(maxima, SeenSince(cutoff));
    }
  }
}
