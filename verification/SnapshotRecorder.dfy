/**
 The in-process side of the memory-failure snapshots (src/failure_memory_diagnostics.py): a bounded queue of
 events with separate places for the latest critical and the latest high-water event, flushed into the shared
 document and taken back when that fails.
 */
module SnapshotRecorder {
  import opened FailureSnapshots
  import opened Wrappers

  const MAX_PENDING: nat := 64

  // ----- The document, rewritten in place -----

  class SnapshotFile {
    var rows: seq<Process>

    constructor ()
      ensures rows == []
    {
      rows := [];
    }

    /** Either the whole flush is written or, when it cannot be made to fit, nothing is. */
    method Flush(batch: seq<Event>, size: Measure, limit: nat) returns (ok: bool)
      modifies this
      ensures ok <==> Flushed(old(rows), batch, size, limit).Some?
      ensures rows == if ok then Flushed(old(rows), batch, size, limit).value else old(rows)
    {
      hide AllAdded, KeptRows, Fitted;
      var added := AddEvents(rows, batch);
      var ranks := RankRows(added);
      var kept := Rows(Tail(Sort(ranks, RankAbove), MAX_PROCESSES));
      KeptRowsUnfold(added, ranks);
      var fitted := FitDocument(kept, size, limit);
      if fitted.None? {
        return false;
      }
      rows := fitted.value;
      return true;
    }
  }

  lemma KeptRowsUnfold(ps: seq<Process>, ranks: seq<Rank>)
    requires ranks == Ranks(ps)
    ensures KeptRows(ps) == Rows(Tail(Sort(ranks, RankAbove), MAX_PROCESSES))
  {
  }

  method AddEvents(rows: seq<Process>, batch: seq<Event>) returns (ps: seq<Process>)
    ensures ps == AllAdded(rows, batch)
  {
    hide Usable, WithEvent;
    ps := rows;
    for n := 0 to |batch|
      invariant ps == AllAdded(rows, batch[..n])
    {
      assert batch[..n + 1][..n] == batch[..n];
      var e := batch[n];
      if Usable(e) {
        var i := IndexOf(ps, e.process);
        if i == |ps| {
          ps := ps + [Process(e.process, [], [], map[])];
        }
        ps := ps[i := WithEvent(ps[i], e)];
      }
    }
    assert batch[..|batch|] == batch;
  }

  /** Every candidate is offered to the slots, and the best of all candidates ranks the row. */
  method RefreshRow(p: Process) returns (row: Process, best: Option<Event>)
    ensures row == Refreshed(p)
    ensures if Candidates(p) == [] then best == None else best == Some(Freshest(Candidates(p)))
  {
    hide Ranked, SlotEvents, Fresher, Eligible, Note, SomeBaselines, Tail;
    var events, baselines := Ranked(p.events), Ranked(p.baselines);
    var cs := events + baselines + SlotEvents(p.latest);
    assert cs == Candidates(p);
    var latest: map<Slot, Event> := map[];
    best := None;
    for n := 0 to |cs|
      invariant latest == LatestOf(cs[..n])
      invariant if n == 0 then best == None else best == Some(Freshest(cs[..n]))
    {
      assert cs[..n + 1][..n] == cs[..n];
      latest := Note(latest, cs[n]);
      best := if best.None? || Fresher(cs[n], best.value) then Some(cs[n]) else best;
    }
    assert cs[..|cs|] == cs;
    row := Process(p.id, Tail(events, MAX_EVENTS), SomeBaselines(baselines), latest);
  }

  method RankRows(ps: seq<Process>) returns (ranks: seq<Rank>)
    ensures ranks == Ranks(ps)
  {
    hide Candidates, Refreshed, Freshest;
    ranks := [];
    for n := 0 to |ps|
      invariant ranks == Ranks(ps[..n])
    {
      assert ps[..n + 1][..n] == ps[..n];
      var row, best := RefreshRow(ps[n]);
      if best.Some? {
        ranks := ranks + [Rank(best.value, row)];
      }
    }
    assert ps[..|ps|] == ps;
  }

  method FitDocument(rows: seq<Process>, size: Measure, limit: nat) returns (fitted: Option<seq<Process>>)
    ensures fitted == Fitted(rows, size, limit)
  {
    hide Reduced, Weight;
    var ps := rows;
    while size(ps) > limit
      invariant Fitted(rows, size, limit) == Fitted(ps, size, limit)
      decreases Weight(ps)
    {
      ReductionShrinks(ps);
      var reduced := Reduced(ps);
      if reduced.None? {
        return None;
      }
      ps := reduced.value;
    }
    return Some(ps);
  }

  // ----- The recorder -----

  datatype Flight = Flight(batch: seq<Event>, critical: Option<Event>, hwm: Option<Event>)

  function Extended(batch: seq<Event>, e: Option<Event>): seq<Event> {
    if e.Some? && e.value !in batch then batch + [e.value] else batch
  }

  datatype Queue = Queue(pending: seq<Event>, critical: Option<Event>, hwm: Option<Event>, dropped: nat, failures: nat)

  const EMPTY_QUEUE: Queue := Queue([], None, None, 0, 0)

  /** A full queue forgets its oldest event and counts it; the latest special events are also kept apart. */
  function Recording(q: Queue, e: Event): Queue {
    q.(pending := Tail(q.pending + [e], MAX_PENDING),
       dropped := q.dropped + if |q.pending| == MAX_PENDING then 1 else 0,
       critical := if Eligible(e, LatestCritical) then Some(e) else q.critical,
       hwm := if e.hwmPeak then Some(e) else q.hwm)
  }

  /** A flush takes everything pending and the special events that fell out of the queue. */
  function FlightOf(q: Queue): Flight {
    Flight(Extended(Extended(q.pending, q.critical), q.hwm), q.critical, q.hwm)
  }

  function Emptied(q: Queue): Queue { q.(pending := [], critical := None, hwm := None) }

  /** A failed batch goes back in front, as much of its end as fits; the rest is counted as dropped. */
  function TakenBack(q: Queue, f: Flight): Queue {
    var room := if |q.pending| <= MAX_PENDING then MAX_PENDING - |q.pending| else 0;
    q.(pending := Tail(f.batch, room) + q.pending,
       dropped := q.dropped + |f.batch| - |Tail(f.batch, room)|,
       critical := if q.critical.None? then f.critical else q.critical,
       hwm := if q.hwm.None? then f.hwm else q.hwm,
       failures := q.failures + 1)
  }

  class Recorder {
    var pending: seq<Event>
    var critical: Option<Event>
    var hwm: Option<Event>
    var dropped: nat
    var failures: nat

    predicate Valid()
      reads this
    {
      |pending| <= MAX_PENDING
    }

    ghost function Value(): Queue
      reads this
    {
      Queue(pending, critical, hwm, dropped, failures)
    }

    constructor ()
      ensures Valid() && Value() == EMPTY_QUEUE
    {
      pending, critical, hwm, dropped, failures := [], None, None, 0, 0;
    }

    method Record(e: Event)
      requires Valid()
      modifies this
      ensures Valid() && Value() == Recording(old(Value()), e)
    {
      if |pending| == MAX_PENDING {
        dropped := dropped + 1;
        pending := pending[1..];
      }
      pending := pending + [e];
      if Eligible(e, LatestCritical) {
        critical := Some(e);
      }
      if e.hwmPeak {
        hwm := Some(e);
      }
    }

    method BeginFlush() returns (f: Flight)
      requires Valid()
      modifies this
      ensures Valid() && Value() == Emptied(old(Value())) && f == FlightOf(old(Value()))
    {
      var batch := pending;
      if critical.Some? && critical.value !in batch {
        batch := batch + [critical.value];
      }
      if hwm.Some? && hwm.value !in batch {
        batch := batch + [hwm.value];
      }
      f := Flight(batch, critical, hwm);
      pending, critical, hwm := [], None, None;
    }

    method TakeBack(f: Flight)
      requires Valid()
      modifies this
      ensures Valid() && Value() == TakenBack(old(Value()), f)
    {
      failures := failures + 1;
      critical := if critical.None? then f.critical else critical;
      hwm := if hwm.None? then f.hwm else hwm;
      var index;
      pending, index := PrependFitting(pending, f.batch);
      dropped := dropped + (|f.batch| - index);
    }
  }

  /** Appending to the left, youngest first, until the queue is full. */
  method PrependFitting(newer: seq<Event>, batch: seq<Event>) returns (all: seq<Event>, index: nat)
    requires |newer| <= MAX_PENDING
    ensures index <= |batch| && index == |Tail(batch, MAX_PENDING - |newer|)|
    ensures all == Tail(batch, MAX_PENDING - |newer|) + newer && |all| <= MAX_PENDING
  {
    all, index := newer, 0;
    assert batch[|batch|..] + newer == newer;
    while index < |batch| && |all| < MAX_PENDING
      invariant index <= |batch| && all == batch[|batch| - index..] + newer && |all| <= MAX_PENDING
    {
      index := index + 1;
      all := [batch[|batch| - index]] + all;
    }
  }

  // ----- The latest critical event is never lost -----

  /** The recorder over time, with the events delivered so far and the latest special events recorded. */
  datatype Life = Life(
    queue: Queue, flight: Option<Flight>, delivered: seq<Event>, lastCritical: Option<Event>, lastHwm: Option<Event>)

  datatype Step = Recorded(e: Event) | Begun | Ended(ok: bool)

  const Born: Life := Life(EMPTY_QUEUE, None, [], None, None)

  function Next(l: Life, s: Step): Life {
    match s
    case Recorded(e) =>
      l.(queue := Recording(l.queue, e),
         lastCritical := if Eligible(e, LatestCritical) then Some(e) else l.lastCritical,
         lastHwm := if e.hwmPeak then Some(e) else l.lastHwm)
    case Begun =>
      if l.flight.Some? then l else l.(queue := Emptied(l.queue), flight := Some(FlightOf(l.queue)))
    case Ended(ok) =>
      if l.flight.None? then l
      else if ok then l.(flight := None, delivered := l.delivered + l.flight.value.batch)
      else l.(flight := None, queue := TakenBack(l.queue, l.flight.value))
  }

  /** The latest special event is held, in flight with nothing newer held, or delivered. */
  ghost predicate Guarded(last: Option<Event>, held: Option<Event>, flying: Option<Event>, delivered: seq<Event>) {
    last.Some? ==> held == last || (held.None? && flying == last) || last.value in delivered
  }

  function Flying(l: Life, critical: bool): Option<Event> {
    if l.flight.None? then None else if critical then l.flight.value.critical else l.flight.value.hwm
  }

  ghost predicate Inv(l: Life) {
    && Guarded(l.lastCritical, l.queue.critical, Flying(l, true), l.delivered)
    && Guarded(l.lastHwm, l.queue.hwm, Flying(l, false), l.delivered)
    && (l.flight.Some? ==>
          && (l.flight.value.critical.Some? ==> l.flight.value.critical.value in l.flight.value.batch)
          && (l.flight.value.hwm.Some? ==> l.flight.value.hwm.value in l.flight.value.batch))
  }

  function Run(l: Life, steps: seq<Step>): Life
    decreases |steps|
  {
    if steps == [] then l else Run(Next(l, steps[0]), steps[1..])
  }

  lemma {:induction false} StepKeepsInv(l: Life, s: Step)
    requires Inv(l)
    ensures Inv(Next(l, s))
  {
    hide Eligible;
  }

  lemma {:induction false} RunKeepsInv(l: Life, steps: seq<Step>)
    requires Inv(l)
    ensures Inv(Run(l, steps))
    decreases |steps|
  {
    if steps != [] {
      hide Inv, Next;
      StepKeepsInv(l, steps[0]);
      RunKeepsInv(Next(l, steps[0]), steps[1..]);
    }
  }

  /**
   However full the queue and however often flushes fail, the latest critical and the latest high-water event
   are either delivered or go out with the next flush.
   */
  lemma {:induction false} LatestSpecialEventsSurvive(steps: seq<Step>)
    ensures var l := Run(Born, steps);
            l.flight.None? ==>
              var after := Next(Next(l, Begun), Ended(true));
              && (l.lastCritical.Some? ==> l.lastCritical.value in after.delivered)
              && (l.lastHwm.Some? ==> l.lastHwm.value in after.delivered)
  {
    hide Run, Eligible;
    RunKeepsInv(Born, steps);
    var l := Run(Born, steps);
    if l.flight.None? {
      StepKeepsInv(l, Begun);
    }
  }

  // ----- No event vanishes uncounted -----

  /** A recorded event goes last; with 64 pending the oldest one makes room and is counted as dropped. */
  lemma RecordingExactly(q: Queue, e: Event)
    requires |q.pending| <= 64
    ensures var after := Recording(q, e);
            && (|q.pending| < 64 ==> after.pending == q.pending + [e] && after.dropped == q.dropped)
            && (|q.pending| == 64 ==> after.pending == q.pending[1..] + [e] && after.dropped == q.dropped + 1)
            && after.failures == q.failures
  {
  }

  /** A flush takes the pending events in order, then each special event that is no longer among them. */
  lemma FlightExactly(q: Queue)
    ensures var f := FlightOf(q);
            && q.pending <= f.batch && |f.batch| <= |q.pending| + 2
            && (q.critical.Some? ==> q.critical.value in f.batch)
            && (q.hwm.Some? ==> q.hwm.value in f.batch)
            && (forall i :: |q.pending| <= i < |f.batch| ==>
                  f.batch[i] !in q.pending && (q.critical == Some(f.batch[i]) || q.hwm == Some(f.batch[i])))
            && (|f.batch| == |q.pending| + 2 ==> f.batch[|q.pending|] != f.batch[|q.pending| + 1])
            && f.critical == q.critical && f.hwm == q.hwm
  {
  }

  /** A failed batch goes in front of what came since: as much of its end as 64 places allow, the rest is dropped. */
  lemma TakingBackExactly(q: Queue, f: Flight)
    requires |q.pending| <= 64
    ensures var after := TakenBack(q, f);
            var back := |after.pending| - |q.pending|;
            && 0 <= back <= |f.batch| && (back == |f.batch| || |after.pending| == 64) && |after.pending| <= 64
            && after.pending == f.batch[|f.batch| - back..] + q.pending
            && after.dropped == q.dropped + |f.batch| - back && after.failures == q.failures + 1
            && after.critical == (if q.critical.Some? then q.critical else f.critical)
            && after.hwm == (if q.hwm.Some? then q.hwm else f.hwm)
  {
  }

  function Recordings(steps: seq<Step>): nat
    decreases |steps|
  {
    if steps == [] then 0 else (if steps[0].Recorded? then 1 else 0) + Recordings(steps[1..])
  }

  /** Special events that had fallen out of the queue and went out with a batch once more. */
  function Readded(l: Life, steps: seq<Step>): nat
    decreases |steps|
  {
    if steps == [] then 0
    else
      (if steps[0].Begun? && l.flight.None? && |FlightOf(l.queue).batch| >= |l.queue.pending|
       then |FlightOf(l.queue).batch| - |l.queue.pending| else 0)
      + Readded(Next(l, steps[0]), steps[1..])
  }

  function Holding(l: Life): nat {
    |l.queue.pending| + l.queue.dropped + |l.delivered| + if l.flight.Some? then |l.flight.value.batch| else 0
  }

  lemma {:induction false} StepAccounts(l: Life, s: Step)
    requires |l.queue.pending| <= 64
    ensures |Next(l, s).queue.pending| <= 64
    ensures Holding(Next(l, s)) == Holding(l) + Recordings([s]) + Readded(l, [s])
  {
    hide Eligible;
    RecordingUnfolds(l, s);
    match s
    case Recorded(e) => RecordingExactly(l.queue, e);
    case Begun => FlightExactly(l.queue);
    case Ended(ok) =>
      if l.flight.Some? {
        TakingBackExactly(l.queue, l.flight.value);
      }
  }

  lemma RecordingUnfolds(l: Life, s: Step)
    ensures Recordings([s]) == if s.Recorded? then 1 else 0
    ensures Readded(l, [s]) == if s.Begun? && l.flight.None? && |FlightOf(l.queue).batch| >= |l.queue.pending|
                               then |FlightOf(l.queue).batch| - |l.queue.pending| else 0
  {
    assert [s][1..] == [];
  }

  lemma {:induction false} RunAccounts(l: Life, steps: seq<Step>)
    requires |l.queue.pending| <= 64
    ensures |Run(l, steps).queue.pending| <= 64
    ensures Holding(Run(l, steps)) == Holding(l) + Recordings(steps) + Readded(l, steps)
    decreases |steps|
  {
    if steps != [] {
      hide Holding, Next;
      StepAccounts(l, steps[0]);
      RecordingUnfolds(l, steps[0]);
      RunAccounts(Next(l, steps[0]), steps[1..]);
    }
  }

  /** In every run each event recorded, or sent again, is pending, in flight, delivered or counted as dropped. */
  lemma EveryEventIsCounted(steps: seq<Step>)
    ensures var l := Run(Born, steps);
            |l.queue.pending| + (if l.flight.Some? then |l.flight.value.batch| else 0) + |l.delivered|
            + l.queue.dropped == Recordings(steps) + Readded(Born, steps)
  {
    RunAccounts(Born, steps);
  }
}
