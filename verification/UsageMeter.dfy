/** The ledger against the truth: real traffic, real counter resets, and the syncs that sample them. */
module UsageMeter {
  import opened UsageLedger
  import opened Wrappers

  /** `counter` is what the accounting provider would report, `total` all traffic there ever was. */
  datatype World = World(ledger: Ledger, counter: nat, total: nat)

  datatype Event = Traffic(bytes: nat) | Reset | Sampled(now: int) | Other(step: Step)

  function Happens(w: World, e: Event, grace: nat): (r: World)
    requires w.ledger.current < |w.ledger.periods|
    ensures r.ledger.current < |r.ledger.periods|
  {
    match e
    case Traffic(n) => w.(counter := w.counter + n, total := w.total + n)
    case Reset => w.(counter := 0)
    case Sampled(now) => w.(ledger := Sync(w.ledger, w.counter, now, grace).0)
    case Other(step) => if step.SyncStep? then w else w.(ledger := Next(w.ledger, step, grace))
  }

  function History(w: World, events: seq<Event>, grace: nat): World
    requires w.ledger.current < |w.ledger.periods|
    decreases |events|
  {
    if events == [] then w else History(Happens(w, events[0], grace), events[1..], grace)
  }

  /** The sync times of a history never go back, nor before `from`. */
  predicate ClockForward(events: seq<Event>, from: Option<int>)
    decreases |events|
  {
    events == [] ||
    if events[0].Sampled? then
      (from.Some? ==> from.value <= events[0].now) && ClockForward(events[1..], Some(events[0].now))
    else ClockForward(events[1..], from)
  }

  function LastCounter(samples: seq<Sample>): nat {
    if samples == [] then 0 else samples[|samples| - 1].counter
  }

  function LastTime(samples: seq<Sample>): Option<int> {
    if samples == [] then None else Some(samples[|samples| - 1].at)
  }

  /** The counters seen just before each observed drop. */
  function BeforeDrops(samples: seq<Sample>): nat {
    if |samples| <= 1 then 0
    else
      var n := |samples| - 1;
      BeforeDrops(samples[..n]) + if samples[n].counter < samples[n - 1].counter then samples[n - 1].counter else 0
  }

  /** What the next sync would add. */
  function Unsampled(w: World): nat {
    var last := LastCounter(w.ledger.samples);
    if w.counter >= last then w.counter - last else w.counter
  }

  predicate InTimeOrder(samples: seq<Sample>) {
    forall i, j | 0 <= i < j < |samples| :: samples[i].at <= samples[j].at
  }

  lemma LatestIsLast(samples: seq<Sample>)
    requires InTimeOrder(samples)
    ensures PreviousCounter(samples) == if samples == [] then None else Some(LastCounter(samples))
  {
  }

  /** One sync adds one sample and one delta, and nothing else moves the two tables. */
  lemma SyncShape(l: Ledger, counter: nat, now: int, grace: nat)
    requires l.current < |l.periods|
    ensures var r := Sync(l, counter, now, grace).0;
            && r.current < |r.periods|
            && r.samples == l.samples + [Sample(counter, now)]
            && SumAll(r.deltas) == SumAll(l.deltas) + DeltaBytes(PreviousCounter(l.samples), counter)
  {
  }

  ghost predicate Metered(w: World) {
    && w.ledger.current < |w.ledger.periods|
    && InTimeOrder(w.ledger.samples)
    && SumAll(w.ledger.deltas) == LastCounter(w.ledger.samples) + BeforeDrops(w.ledger.samples)
    && SumAll(w.ledger.deltas) + Unsampled(w) <= w.total
  }

  lemma SampleKeeps(w: World, now: int, grace: nat)
    requires Metered(w)
    requires var t := LastTime(w.ledger.samples); t.Some? ==> t.value <= now
    ensures var w' := Happens(w, Sampled(now), grace);
            Metered(w') && LastTime(w'.ledger.samples) == Some(now) && Unsampled(w') == 0
            && SumAll(w'.ledger.deltas) == SumAll(w.ledger.deltas) + Unsampled(w)
  {
    hide Sync, PreviousCounter, SumAll;
    LatestIsLast(w.ledger.samples);
    SyncShape(w.ledger, w.counter, now, grace);
    var samples := w.ledger.samples + [Sample(w.counter, now)];
    assert samples[..|samples| - 1] == w.ledger.samples;
  }

  lemma HappensKeeps(w: World, e: Event, grace: nat)
    requires Metered(w) && !e.Sampled?
    ensures var w' := Happens(w, e, grace);
            && Metered(w') && w'.ledger.samples == w.ledger.samples
            && (!e.Reset? ==>
                  w'.counter - w.counter == w'.total - w.total >= 0 && SumAll(w'.ledger.deltas) == SumAll(w.ledger.deltas))
  {
  }

  /** Usage never overcounts. For every history of traffic, counter resets and other ledger steps
      whose syncs do not go back in time, the metered bytes are the last counter plus the counter
      before each observed drop, and never more than the true traffic. */
  lemma {:induction false} NeverOvercounts(w: World, events: seq<Event>, grace: nat)
    requires Metered(w) && ClockForward(events, LastTime(w.ledger.samples))
    ensures Metered(History(w, events, grace))
    decreases |events|
  {
    hide Happens, InTimeOrder, SumAll, LastTime, Unsampled;
    if events != [] {
      if events[0].Sampled? {
        StepForward(w, events[0].now, grace);
      } else {
        StepAside(w, events[0], grace);
      }
      NeverOvercounts(Happens(w, events[0], grace), events[1..], grace);
    }
  }

  lemma StepForward(w: World, now: int, grace: nat)
    requires Metered(w)
    requires var t := LastTime(w.ledger.samples); t.Some? ==> t.value <= now
    ensures var w' := Happens(w, Sampled(now), grace);
            w'.ledger.current < |w'.ledger.periods| && Metered(w') && LastTime(w'.ledger.samples) == Some(now)
  {
    SampleKeeps(w, now, grace);
  }

  lemma StepAside(w: World, e: Event, grace: nat)
    requires Metered(w) && !e.Sampled?
    ensures var w' := Happens(w, e, grace);
            w'.ledger.current < |w'.ledger.periods| && Metered(w') && LastTime(w'.ledger.samples) == LastTime(w.ledger.samples)
  {
    HappensKeeps(w, e, grace);
  }

  /** Every byte has been metered or is still to be sampled. */
  ghost predicate Complete(w: World) {
    && Metered(w) && w.counter >= LastCounter(w.ledger.samples)
    && SumAll(w.ledger.deltas) + Unsampled(w) == w.total
  }

  /** Without a counter reset nothing is lost: after any sync the metered bytes are exactly the true
      traffic. */
  lemma {:induction false} ExactWithoutResets(w: World, events: seq<Event>, grace: nat)
    requires Complete(w) && ClockForward(events, LastTime(w.ledger.samples))
    requires forall k | 0 <= k < |events| :: !events[k].Reset?
    ensures Complete(History(w, events, grace))
    ensures var r := History(w, events, grace);
            r.counter == LastCounter(r.ledger.samples) ==> SumAll(r.ledger.deltas) == r.total
    decreases |events|
  {
    hide Happens, LastTime, SumAll, BeforeDrops;
    if events != [] {
      if events[0].Sampled? {
        StepForward(w, events[0].now, grace);
        CompleteStep(w, events[0], grace);
      } else {
        StepAside(w, events[0], grace);
        CompleteStep(w, events[0], grace);
      }
      ExactWithoutResets(Happens(w, events[0], grace), events[1..], grace);
    }
  }

  lemma CompleteStep(w: World, e: Event, grace: nat)
    requires Complete(w) && !e.Reset?
    requires var t := LastTime(w.ledger.samples); e.Sampled? && t.Some? ==> t.value <= e.now
    ensures var w' := Happens(w, e, grace); w'.ledger.current < |w'.ledger.periods| && Complete(w')
  {
    if e.Sampled? {
      SampleKeeps(w, e.now, grace);
      SyncShape(w.ledger, w.counter, e.now, grace);
    } else {
      HappensKeeps(w, e, grace);
    }
  }

  /** A new purchase has metered nothing and lost nothing. */
  lemma NewLedgerIsComplete(now: int, duration: nat, quota: int)
    ensures Complete(World(Prepared(now, duration, quota), 0, 0))
  {
  }

  // ----------------------------------------------- clocks that may go back

  /** The latest sample by time holds the last counter: what a sync needs to find. */
  predicate FindsLastCounter(samples: seq<Sample>) {
    samples == [] || PreviousCounter(samples) == Some(LastCounter(samples))
  }

  /** Every sync of the history finds it. */
  predicate EverySyncFindsIt(w: World, events: seq<Event>, grace: nat)
    requires w.ledger.current < |w.ledger.periods|
    decreases |events|
  {
    events == [] ||
    (&& (events[0].Sampled? ==> FindsLastCounter(w.ledger.samples))
     && EverySyncFindsIt(Happens(w, events[0], grace), events[1..], grace))
  }

  /** What the ledger has beyond the truth, once the counter is sampled. */
  function Surplus(w: World): int {
    SumAll(w.ledger.deltas) + Unsampled(w) - w.total
  }

  /** Without resets no sample is above a later one. */
  predicate Rising(w: World) {
    && w.ledger.current < |w.ledger.periods|
    && (forall i, j | 0 <= i < j < |w.ledger.samples| :: w.ledger.samples[i].counter <= w.ledger.samples[j].counter)
    && w.counter >= LastCounter(w.ledger.samples)
  }

  lemma PreviousIsNotAbove(w: World)
    requires Rising(w) && w.ledger.samples != []
    ensures PreviousCounter(w.ledger.samples).Some? && PreviousCounter(w.ledger.samples).value <= LastCounter(w.ledger.samples)
  {
  }

  /** One event: the surplus never shrinks, and stays exactly when a sync finds the last counter. */
  lemma SurplusStep(w: World, e: Event, grace: nat)
    requires Rising(w) && !e.Reset?
    ensures var w' := Happens(w, e, grace);
            && Rising(w') && Surplus(w') >= Surplus(w)
            && (Surplus(w') == Surplus(w) <==> (e.Sampled? ==> FindsLastCounter(w.ledger.samples)))
  {
    hide Sync, SumAll, PreviousCounter, Latest;
    if e.Sampled? {
      SyncShape(w.ledger, w.counter, e.now, grace);
      NothingBefore();
      if w.ledger.samples != [] {
        PreviousIsNotAbove(w);
      }
    } else {
      OtherEventsMeterNothing(w, e, grace);
    }
  }

  lemma NothingBefore()
    ensures PreviousCounter([]) == None
  {
  }

  lemma OtherEventsMeterNothing(w: World, e: Event, grace: nat)
    requires w.ledger.current < |w.ledger.periods| && !e.Sampled? && !e.Reset?
    ensures var w' := Happens(w, e, grace);
            && w'.ledger.samples == w.ledger.samples && SumAll(w'.ledger.deltas) == SumAll(w.ledger.deltas)
            && w'.counter - w.counter == w'.total - w.total >= 0
  {
  }

  /** Exact metering, whatever the clock does. In a history without counter resets the surplus never
      shrinks, and the ledger meters no byte too many if and only if every sync found the last counter
      in its latest sample. */
  lemma {:induction false} ExactIffEverySyncFindsIt(w: World, events: seq<Event>, grace: nat)
    requires Rising(w) && forall k | 0 <= k < |events| :: !events[k].Reset?
    ensures var r := History(w, events, grace);
            && Rising(r) && Surplus(r) >= Surplus(w)
            && (Surplus(r) == Surplus(w) <==> EverySyncFindsIt(w, events, grace))
    decreases |events|
  {
    hide Happens, Surplus, FindsLastCounter;
    if events != [] {
      var next := Happens(w, events[0], grace);
      SurplusStep(w, events[0], grace);
      ExactIffEverySyncFindsIt(next, events[1..], grace);
    }
  }

  /** From a new purchase: right after a sync the metered bytes are the true traffic if and only if
      every sync found the last counter in its latest sample, and otherwise they exceed it. */
  lemma MeteredIsTrueTrafficIff(now: int, duration: nat, quota: int, events: seq<Event>, grace: nat)
    requires forall k | 0 <= k < |events| :: !events[k].Reset?
    ensures var w := World(Prepared(now, duration, quota), 0, 0);
            var r := History(w, events, grace);
            && Rising(r)
            && (r.counter == LastCounter(r.ledger.samples) ==>
                  && SumAll(r.ledger.deltas) >= r.total
                  && (SumAll(r.ledger.deltas) == r.total <==> EverySyncFindsIt(w, events, grace)))
  {
    hide History, EverySyncFindsIt, SumAll;
    var w := World(Prepared(now, duration, quota), 0, 0);
    NothingMetered(now, duration, quota);
    ExactIffEverySyncFindsIt(w, events, grace);
  }

  /** Sync times that do not go back are enough for it. */
  lemma {:induction false} ForwardClockFindsIt(w: World, events: seq<Event>, grace: nat)
    requires Metered(w) && ClockForward(events, LastTime(w.ledger.samples))
    ensures EverySyncFindsIt(w, events, grace)
    decreases |events|
  {
    hide Happens, SumAll, LastTime, Unsampled, PreviousCounter, BeforeDrops;
    if events != [] {
      if events[0].Sampled? {
        LatestIsLast(w.ledger.samples);
        StepForward(w, events[0].now, grace);
      } else {
        StepAside(w, events[0], grace);
      }
      ForwardClockFindsIt(Happens(w, events[0], grace), events[1..], grace);
    }
  }

  /** A history that fails: a sync dated before its predecessor is not the latest sample for the next
      one, and the same traffic is metered twice. */
  lemma ClockGoingBackOvercounts()
    ensures exists events: seq<Event> ::
              var w := World(Prepared(0, 1, 0), 0, 0);
              var r := History(w, events, 0);
              && (forall k | 0 <= k < |events| :: !events[k].Reset?)
              && SumAll(r.ledger.deltas) > r.total && !EverySyncFindsIt(w, events, 0)
  {
    hide Happens, Sync, SumAll, Latest, PreviousCounter, Prepared, History;
    var w0 := World(Prepared(0, 1, 0), 0, 0);
    NothingMetered(0, 1, 0);
    var w1 := AfterTraffic(w0, 100);
    var w2 := AfterSample(w1, 10);
    var w3 := AfterTraffic(w2, 50);
    var w4 := AfterSample(w3, 5);
    var w5 := AfterTraffic(w4, 10);
    var w6 := AfterSample(w5, 11);
    LatestByTime();
    assert w1.ledger.samples == [] && w3.ledger.samples == [Sample(100, 10)];
    assert w5.ledger.samples == [Sample(100, 10), Sample(150, 5)];
    var e := [Traffic(100), Sampled(10), Traffic(50), Sampled(5), Traffic(10), Sampled(11)];
    HistoryOfSix(w0, e, 0);
    assert History(w0, e, 0) == w6;
    assert SumAll(w6.ledger.deltas) == 210 && w6.total == 160;
    assert forall k | 0 <= k < |e| :: !e[k].Reset?;
    MeteredIsTrueTrafficIff(0, 1, 0, e, 0);
    assert w6.ledger.samples[2] == Sample(160, 11);
  }

  lemma NothingMetered(now: int, duration: nat, quota: int)
    ensures var l := Prepared(now, duration, quota); l.samples == [] && SumAll(l.deltas) == 0 && l.current < |l.periods|
  {
  }

  lemma LatestByTime()
    ensures PreviousCounter([]) == None && PreviousCounter([Sample(100, 10)]) == Some(100)
    ensures PreviousCounter([Sample(100, 10), Sample(150, 5)]) == Some(100)
  {
  }

  lemma AfterTraffic(w: World, n: nat) returns (r: World)
    requires w.ledger.current < |w.ledger.periods|
    ensures r == Happens(w, Traffic(n), 0) == w.(counter := w.counter + n, total := w.total + n)
  {
    r := Happens(w, Traffic(n), 0);
  }

  lemma AfterSample(w: World, now: int) returns (r: World)
    requires w.ledger.current < |w.ledger.periods|
    ensures r == Happens(w, Sampled(now), 0) && r.counter == w.counter && r.total == w.total
    ensures r.ledger.samples == w.ledger.samples + [Sample(w.counter, now)]
    ensures SumAll(r.ledger.deltas) == SumAll(w.ledger.deltas) + DeltaBytes(PreviousCounter(w.ledger.samples), w.counter)
  {
    r := Happens(w, Sampled(now), 0);
    SyncShape(w.ledger, w.counter, now, 0);
  }

  lemma HistoryOfSix(w: World, e: seq<Event>, grace: nat)
    requires w.ledger.current < |w.ledger.periods| && |e| == 6
    ensures var w1 := Happens(w, e[0], grace);
            w1.ledger.current < |w1.ledger.periods| &&
            var w2 := Happens(w1, e[1], grace);
            w2.ledger.current < |w2.ledger.periods| &&
            var w3 := Happens(w2, e[2], grace);
            w3.ledger.current < |w3.ledger.periods| &&
            var w4 := Happens(w3, e[3], grace);
            w4.ledger.current < |w4.ledger.periods| &&
            var w5 := Happens(w4, e[4], grace);
            w5.ledger.current < |w5.ledger.periods| &&
            History(w, e, grace) == Happens(w5, e[5], grace)
  {
    hide Happens;
    var w1 := Happens(w, e[0], grace);
    assert History(w, e, grace) == History(w1, e[1..], grace);
    var w2 := Happens(w1, e[1], grace);
    assert e[1..][1..] == e[2..] && History(w1, e[1..], grace) == History(w2, e[2..], grace);
    var w3 := Happens(w2, e[2], grace);
    assert e[2..][1..] == e[3..] && History(w2, e[2..], grace) == History(w3, e[3..], grace);
    var w4 := Happens(w3, e[3], grace);
    assert e[3..][1..] == e[4..] && History(w3, e[3..], grace) == History(w4, e[4..], grace);
    var w5 := Happens(w4, e[4], grace);
    assert e[4..][1..] == e[5..] && History(w4, e[4..], grace) == History(w5, e[5..], grace);
    var w6 := Happens(w5, e[5], grace);
    assert e[5..][1..] == [] && History(w5, e[5..], grace) == History(w6, [], grace);
  }
}
