/**
 Batches of telemetry and their flush (src/phase_memory_telemetry.py): the pending batch is swapped out,
 merged into the document all processes share, and merged back in front of newer entries when that fails.
 */
module TelemetryFlush {
  import opened PhaseTelemetry
  import opened Wrappers

  datatype Batch = Batch(
    total: nat, failures: nat, persistFailures: nat, overall: Aggregate, phases: map<Phase, Aggregate>,
    details: Ring<Detail>, samples: nat, sampleFailures: nat, sampled: Ring<nat>)

  const EMPTY_RING: Ring<nat> := Ring(0, 0, [])
  const EMPTY_BATCH := Batch(0, 0, 0, EMPTY, map[], EMPTY_RING, 0, 0, EMPTY_RING)

  function At(phases: map<Phase, Aggregate>, p: Phase): Aggregate { if p in phases then phases[p] else EMPTY }

  function AddRecord(b: Batch, r: Record): Batch {
    b.(total := SaturatedSum(b.total, 1),
       failures := SaturatedSum(b.failures, Bit(r.measurementFailed)),
       overall := MergeRecord(b.overall, r),
       phases := b.phases[r.phase := MergeRecord(At(b.phases, r.phase), r)],
       details := if r.detailRetained then Push(b.details, r.detail, DETAIL_EVENT_LIMIT) else b.details)
  }

  function AddSample(b: Batch, failed: bool, event: Option<nat>): Batch {
    b.(samples := SaturatedSum(b.samples, 1),
       sampleFailures := SaturatedSum(b.sampleFailures, Bit(failed)),
       sampled := if event.Some? then Push(b.sampled, event.value, SAMPLER_EVENT_LIMIT) else b.sampled)
  }

  function MergePhases(a: map<Phase, Aggregate>, b: map<Phase, Aggregate>): map<Phase, Aggregate> {
    map p | p in a.Keys + b.Keys :: if p in b then MergeValues(At(a, p), b[p]) else a[p]
  }

  /** The document after a batch was merged into it. */
  function Persisted(d: Batch, b: Batch): Batch {
    Batch(
      SaturatedSum(d.total, b.total), SaturatedSum(d.failures, b.failures),
      SaturatedSum(d.persistFailures, b.persistFailures),
      MergeValues(d.overall, b.overall), MergePhases(d.phases, b.phases),
      JoinRings(d.details, b.details, DETAIL_EVENT_LIMIT),
      SaturatedSum(d.samples, b.samples), SaturatedSum(d.sampleFailures, b.sampleFailures),
      JoinRings(d.sampled, b.sampled, SAMPLER_EVENT_LIMIT))
  }

  /** A batch that could not be persisted goes back in front of the entries recorded since. */
  function MergedBack(current: Batch, b: Batch): Batch {
    Batch(
      SaturatedSum(current.total, b.total), SaturatedSum(current.failures, b.failures),
      SaturatedSum(current.persistFailures, SaturatedSum(b.persistFailures, 1)),
      MergeValues(current.overall, b.overall), MergePhases(current.phases, b.phases),
      JoinRings(b.details, current.details, DETAIL_EVENT_LIMIT),
      SaturatedSum(current.samples, b.samples), SaturatedSum(current.sampleFailures, b.sampleFailures),
      JoinRings(b.sampled, current.sampled, SAMPLER_EVENT_LIMIT))
  }

  function Pending(b: Option<Batch>): Batch { if b.Some? then b.value else EMPTY_BATCH }

  /** There is something to flush. */
  predicate Dirty(b: Option<Batch>) { b.Some? && (b.value.total > 0 || b.value.samples > 0) }

  // ----- The process-wide pending batch and the document, updated in place -----

  /** One phase after the other is merged into the target's aggregates. */
  method MergeEachPhase(target: map<Phase, Aggregate>, source: map<Phase, Aggregate>)
    returns (merged: map<Phase, Aggregate>)
    ensures merged == MergePhases(target, source)
  {
    hide MergeValues, MergePhases, At;
    merged := target;
    var todo := source.Keys;
    NoPhasesMerged(target, source - todo);
    while todo != {}
      invariant todo <= source.Keys && merged == MergePhases(target, source - todo)
      decreases |todo|
    {
      var p :| p in todo;
      OnePhaseMerged(target, source, todo, p);
      merged := merged[p := MergeValues(At(merged, p), source[p])];
      todo := todo - {p};
    }
    assert source - todo == source;
  }

  lemma NoPhasesMerged(target: map<Phase, Aggregate>, source: map<Phase, Aggregate>)
    requires source == map[]
    ensures MergePhases(target, source) == target
  {
  }

  lemma OnePhaseMerged(target: map<Phase, Aggregate>, source: map<Phase, Aggregate>, todo: set<Phase>, p: Phase)
    requires p in todo && todo <= source.Keys
    ensures var merged := MergePhases(target, source - todo);
            merged[p := MergeValues(At(merged, p), source[p])] == MergePhases(target, source - (todo - {p}))
  {
    hide MergeValues;
    var merged := MergePhases(target, source - todo);
    assert At(merged, p) == At(target, p);
    var after := MergePhases(target, source - (todo - {p}));
    assert after.Keys == merged.Keys + {p};
  }

  class TelemetryFile {
    var document: Batch

    constructor ()
      ensures document == EMPTY_BATCH
    {
      document := EMPTY_BATCH;
    }

    /** `ok` says whether the locked write went through; a failed one leaves the document alone. */
    method PersistBatch(b: Batch, ok: bool)
      modifies this
      ensures document == if ok then Persisted(old(document), b) else old(document)
    {
      if ok {
        var phases := MergeEachPhase(document.phases, b.phases);
        document := Batch(
          SaturatedSum(document.total, b.total), SaturatedSum(document.failures, b.failures),
          SaturatedSum(document.persistFailures, b.persistFailures),
          MergeValues(document.overall, b.overall), phases,
          JoinRings(document.details, b.details, DETAIL_EVENT_LIMIT),
          SaturatedSum(document.samples, b.samples), SaturatedSum(document.sampleFailures, b.sampleFailures),
          JoinRings(document.sampled, b.sampled, SAMPLER_EVENT_LIMIT));
      }
    }
  }

  const SAMPLER_RSS_BYTES: int := 230 * 1024 * 1024
  const SAMPLER_HWM_DELTA_BYTES: int := 5 * 1024 * 1024

  /** A sample is kept as an event when memory is high, or its high-water mark rose since the last reading. */
  predicate Triggers(rss: Option<int>, hwm: Option<int>, previous: Option<int>) {
    || (rss.Some? && rss.value >= SAMPLER_RSS_BYTES)
    || (hwm.Some? && previous.Some? && hwm.value - previous.value >= SAMPLER_HWM_DELTA_BYTES)
  }

  class Recorder {
    var pending: Option<Batch>
    var lastHwm: Option<int>

    constructor ()
      ensures pending == None && lastHwm == None
    {
      pending, lastHwm := None, None;
    }

    method AddPendingRecord(r: Record)
      modifies this`pending
      ensures pending == Some(AddRecord(Pending(old(pending)), r))
    {
      var batch := Pending(pending);
      batch := batch.(phases := batch.phases[r.phase := MergeRecord(At(batch.phases, r.phase), r)]);
      batch := batch.(overall := MergeRecord(batch.overall, r), total := SaturatedSum(batch.total, 1));
      batch := batch.(failures := SaturatedSum(batch.failures, Bit(r.measurementFailed)));
      if r.detailRetained {
        var events, evicted := batch.details.events, batch.details.evicted;
        if |events| >= DETAIL_EVENT_LIMIT {
          events, evicted := events[1..], SaturatedSum(evicted, 1);
        }
        batch := batch.(details := Ring(SaturatedSum(batch.details.retained, 1), evicted, events + [r.detail]));
      }
      pending := Some(batch);
    }

    /** One memory sample: missing readings count as failures, a high or risen reading keeps the event. */
    method RecordSample(rss: Option<int>, hwm: Option<int>, event: nat)
      modifies this
      ensures lastHwm == if hwm.Some? then hwm else old(lastHwm)
      ensures pending == Some(AddSample(Pending(old(pending)), rss.None? || hwm.None?,
                                        if Triggers(rss, hwm, old(lastHwm)) then Some(event) else None))
    {
      var previous := lastHwm;
      if hwm.Some? {
        lastHwm := hwm;
      }
      var batch := Pending(pending);
      batch := batch.(samples := SaturatedSum(batch.samples, 1));
      batch := batch.(sampleFailures := SaturatedSum(batch.sampleFailures, Bit(rss.None? || hwm.None?)));
      var high := rss.Some? && rss.value >= SAMPLER_RSS_BYTES;
      var risen := hwm.Some? && previous.Some? && hwm.value - previous.value >= SAMPLER_HWM_DELTA_BYTES;
      if high || risen {
        var events, evicted := batch.sampled.events, batch.sampled.evicted;
        if |events| >= SAMPLER_EVENT_LIMIT {
          events, evicted := events[1..], SaturatedSum(evicted, 1);
        }
        batch := batch.(sampled := Ring(SaturatedSum(batch.sampled.retained, 1), evicted, events + [event]));
      }
      pending := Some(batch);
    }

    method BeginFlush() returns (batch: Option<Batch>)
      modifies this`pending
      ensures if Dirty(old(pending)) then batch == old(pending) && pending == None
              else batch == None && pending == old(pending)
    {
      batch := None;
      if pending.Some? && (pending.value.total > 0 || pending.value.samples > 0) {
        batch, pending := pending, None;
      }
    }

    method MergeBatchBack(b: Batch)
      modifies this`pending
      ensures pending == Some(MergedBack(Pending(old(pending)), b))
    {
      var current := Pending(pending);
      var phases := MergeEachPhase(current.phases, b.phases);
      pending := Some(Batch(
        SaturatedSum(current.total, b.total), SaturatedSum(current.failures, b.failures),
        SaturatedSum(current.persistFailures, SaturatedSum(b.persistFailures, 1)),
        MergeValues(current.overall, b.overall), phases,
        JoinRings(b.details, current.details, DETAIL_EVENT_LIMIT),
        SaturatedSum(current.samples, b.samples), SaturatedSum(current.sampleFailures, b.sampleFailures),
        JoinRings(b.sampled, current.sampled, SAMPLER_EVENT_LIMIT)));
    }
  }

  // ----- What a batch says about a history -----

  function Collect<T, U>(xs: seq<T>, f: T -> seq<U>): seq<U> {
    if xs == [] then [] else Collect(xs[..|xs| - 1], f) + f(xs[|xs| - 1])
  }

  lemma {:induction false} CollectConcat<T, U>(xs: seq<T>, ys: seq<T>, f: T -> seq<U>)
    ensures Collect(xs + ys, f) == Collect(xs, f) + Collect(ys, f)
  {
    if ys == [] {
      assert xs + ys == xs;
    } else {
      assert (xs + ys)[..|xs + ys| - 1] == xs + ys[..|ys| - 1];
      CollectConcat(xs, ys[..|ys| - 1], f);
    }
  }

  lemma CollectOne<T, U>(x: T, f: T -> seq<U>)
    ensures Collect([x], f) == f(x)
  {
    assert [x][..0] == [];
    assert Collect([x][..0], f) == [];
  }

  function RecordIn(e: Entry): seq<Record> { if e.Measured? then [e.record] else [] }
  function FailureIn(e: Entry): seq<Entry> { if e.Measured? && e.record.measurementFailed then [e] else [] }
  function DetailIn(e: Entry): seq<Detail> { if e.Measured? && e.record.detailRetained then [e.record.detail] else [] }
  function SampleIn(e: Entry): seq<Entry> { if e.Sampled? then [e] else [] }
  function SampleFailureIn(e: Entry): seq<Entry> { if e.Sampled? && e.failed then [e] else [] }
  function EventIn(e: Entry): seq<nat> { if e.Sampled? && e.event.Some? then [e.event.value] else [] }
  function FlushFailureIn(e: Entry): seq<Entry> { if e.FlushFailed? then [e] else [] }

  function OfPhase(rs: seq<Record>, p: Phase): seq<Record> {
    if rs == [] then [] else OfPhase(rs[..|rs| - 1], p) + if rs[|rs| - 1].phase == p then [rs[|rs| - 1]] else []
  }

  lemma {:induction false} OfPhaseConcat(xs: seq<Record>, ys: seq<Record>, p: Phase)
    ensures OfPhase(xs + ys, p) == OfPhase(xs, p) + OfPhase(ys, p)
  {
    if ys == [] {
      assert xs + ys == xs;
    } else {
      assert (xs + ys)[..|xs + ys| - 1] == xs + ys[..|ys| - 1];
      OfPhaseConcat(xs, ys[..|ys| - 1], p);
    }
  }

  ghost predicate CountsReflect(b: Batch, xs: seq<Entry>) {
    && b.total == Cap(|Collect(xs, RecordIn)|)
    && b.failures == Cap(|Collect(xs, FailureIn)|)
    && b.persistFailures == Cap(|Collect(xs, FlushFailureIn)|)
    && b.samples == Cap(|Collect(xs, SampleIn)|)
    && b.sampleFailures == Cap(|Collect(xs, SampleFailureIn)|)
  }

  ghost predicate EventsReflect(b: Batch, xs: seq<Entry>) {
    && b.details == RingOf(Collect(xs, DetailIn), 200)
    && b.sampled == RingOf(Collect(xs, EventIn), 96)
  }

  ghost predicate PhasesReflect(phases: map<Phase, Aggregate>, rs: seq<Record>) {
    forall p :: (p in phases <==> OfPhase(rs, p) != []) && Blur(At(phases, p)) == Blur(Agg(OfPhase(rs, p)))
  }

  /**
   The batch is a true account of the entries: every counter, per-phase and overall aggregate equals the
   one computed from the whole list, and the event lists are its youngest events with the rest counted.
   */
  ghost predicate Reflects(b: Batch, xs: seq<Entry>) {
    && CountsReflect(b, xs) && EventsReflect(b, xs)
    && Blur(b.overall) == Blur(Agg(Collect(xs, RecordIn)))
    && PhasesReflect(b.phases, Collect(xs, RecordIn))
  }

  lemma EmptyReflects()
    ensures Reflects(EMPTY_BATCH, [])
  {
    forall p: Phase
      ensures OfPhase(Collect([], RecordIn), p) == []
    {
    }
  }

  lemma CountsJoin(a: Batch, b: Batch, c: Batch, xs: seq<Entry>, ys: seq<Entry>)
    requires CountsReflect(a, xs) && CountsReflect(b, ys)
    requires c.total == SaturatedSum(a.total, b.total) && c.failures == SaturatedSum(a.failures, b.failures)
    requires c.persistFailures == SaturatedSum(a.persistFailures, b.persistFailures)
    requires c.samples == SaturatedSum(a.samples, b.samples)
    requires c.sampleFailures == SaturatedSum(a.sampleFailures, b.sampleFailures)
    ensures CountsReflect(c, xs + ys)
  {
    hide Cap, SaturatedSum, Collect;
    CollectConcat(xs, ys, RecordIn);
    CollectConcat(xs, ys, FailureIn);
    CollectConcat(xs, ys, FlushFailureIn);
    CollectConcat(xs, ys, SampleIn);
    CollectConcat(xs, ys, SampleFailureIn);
    CapsAdd(|Collect(xs, RecordIn)|, |Collect(ys, RecordIn)|);
    CapsAdd(|Collect(xs, FailureIn)|, |Collect(ys, FailureIn)|);
    CapsAdd(|Collect(xs, FlushFailureIn)|, |Collect(ys, FlushFailureIn)|);
    CapsAdd(|Collect(xs, SampleIn)|, |Collect(ys, SampleIn)|);
    CapsAdd(|Collect(xs, SampleFailureIn)|, |Collect(ys, SampleFailureIn)|);
  }

  lemma EventsJoin(a: Batch, b: Batch, c: Batch, xs: seq<Entry>, ys: seq<Entry>)
    requires EventsReflect(a, xs) && EventsReflect(b, ys)
    requires c.details == JoinRings(a.details, b.details, DETAIL_EVENT_LIMIT)
    requires c.sampled == JoinRings(a.sampled, b.sampled, SAMPLER_EVENT_LIMIT)
    ensures EventsReflect(c, xs + ys)
  {
    hide RingOf, JoinRings, Collect;
    CollectConcat(xs, ys, DetailIn);
    CollectConcat(xs, ys, EventIn);
    RingsJoin(Collect(xs, DetailIn), Collect(ys, DetailIn), DETAIL_EVENT_LIMIT);
    RingsJoin(Collect(xs, EventIn), Collect(ys, EventIn), SAMPLER_EVENT_LIMIT);
  }

  lemma {:induction false} PhaseMerges(
    a: map<Phase, Aggregate>, b: map<Phase, Aggregate>, xs: seq<Record>, ys: seq<Record>, p: Phase)
    requires PhasesReflect(a, xs) && PhasesReflect(b, ys)
    ensures At(MergePhases(a, b), p) == if p in b then MergeValues(At(a, p), At(b, p)) else At(a, p)
    ensures p in MergePhases(a, b) <==> OfPhase(xs, p) + OfPhase(ys, p) != []
    ensures Blur(At(MergePhases(a, b), p)) == Blur(Agg(OfPhase(xs, p) + OfPhase(ys, p)))
    ensures Blur(At(MergePhases(a, b), p)) == Blur(Agg(OfPhase(ys, p) + OfPhase(xs, p)))
  {
    hide MergeValues, Blur, Agg, OfPhase;
    MergeInAnyOrder(At(a, p), At(b, p), OfPhase(xs, p), OfPhase(ys, p));
    MergeInAnyOrder(At(b, p), At(a, p), OfPhase(ys, p), OfPhase(xs, p));
    if p !in b {
      assert OfPhase(xs, p) + [] == OfPhase(xs, p) == [] + OfPhase(xs, p);
    }
  }

  /** Merged in either direction, the phase aggregates are those of the older records followed by the newer. */
  lemma {:induction false} PhasesJoin(
    a: map<Phase, Aggregate>, b: map<Phase, Aggregate>, xs: seq<Record>, ys: seq<Record>)
    requires PhasesReflect(a, xs) && PhasesReflect(b, ys)
    ensures PhasesReflect(MergePhases(a, b), xs + ys) && PhasesReflect(MergePhases(a, b), ys + xs)
  {
    hide MergePhases, Blur, Agg, OfPhase;
    forall p
      ensures (p in MergePhases(a, b) <==> OfPhase(xs + ys, p) != [])
      ensures Blur(At(MergePhases(a, b), p)) == Blur(Agg(OfPhase(xs + ys, p)))
    {
      OfPhaseConcat(xs, ys, p);
      PhaseMerges(a, b, xs, ys, p);
    }
    forall p
      ensures (p in MergePhases(a, b) <==> OfPhase(ys + xs, p) != [])
      ensures Blur(At(MergePhases(a, b), p)) == Blur(Agg(OfPhase(ys + xs, p)))
    {
      OfPhaseConcat(ys, xs, p);
      PhaseMerges(a, b, xs, ys, p);
    }
  }

  lemma PersistingReflects(d: Batch, b: Batch, xs: seq<Entry>, ys: seq<Entry>)
    requires Reflects(d, xs) && Reflects(b, ys)
    ensures Reflects(Persisted(d, b), xs + ys)
  {
    hide CountsReflect, EventsReflect, PhasesReflect, MergeValues, MergePhases, Blur, Agg, Collect;
    CountsJoin(d, b, Persisted(d, b), xs, ys);
    EventsJoin(d, b, Persisted(d, b), xs, ys);
    CollectConcat(xs, ys, RecordIn);
    MergeInAnyOrder(d.overall, b.overall, Collect(xs, RecordIn), Collect(ys, RecordIn));
    PhasesJoin(d.phases, b.phases, Collect(xs, RecordIn), Collect(ys, RecordIn));
  }

  const FAILED_FLUSH: Batch := EMPTY_BATCH.(persistFailures := 1)

  lemma FailedFlushReflects()
    ensures Reflects(FAILED_FLUSH, [FlushFailed])
  {
    CollectOne(FlushFailed, RecordIn);
    CollectOne(FlushFailed, FailureIn);
    CollectOne(FlushFailed, FlushFailureIn);
    CollectOne(FlushFailed, SampleIn);
    CollectOne(FlushFailed, SampleFailureIn);
    CollectOne(FlushFailed, DetailIn);
    CollectOne(FlushFailed, EventIn);
    hide Collect;
  }

  /** Merging back yields the entries of the failed batch, then the newer ones, then the failure itself. */
  lemma MergingBackReflects(current: Batch, b: Batch, xs: seq<Entry>, ys: seq<Entry>)
    requires Reflects(b, xs) && Reflects(current, ys)
    ensures Reflects(MergedBack(current, b), xs + ys + [FlushFailed])
  {
    hide CountsReflect, EventsReflect, PhasesReflect, MergeValues, MergePhases, Blur, Agg, Collect, JoinRings;
    var m := MergedBack(current, b);
    CollectConcat(xs, ys, RecordIn);
    CollectConcat(xs + ys, [FlushFailed], RecordIn);
    CollectOne(FlushFailed, RecordIn);
    var older, newer := Collect(xs, RecordIn), Collect(ys, RecordIn);
    assert older + newer + [] == older + newer;
    MergeInAnyOrder(b.overall, current.overall, older, newer);
    PhasesJoin(current.phases, b.phases, newer, older);
    MergedBackCounts(current, b, xs, ys);
    MergedBackEvents(current, b, xs, ys);
  }

  lemma MergedBackCounts(current: Batch, b: Batch, xs: seq<Entry>, ys: seq<Entry>)
    requires CountsReflect(b, xs) && CountsReflect(current, ys)
    ensures CountsReflect(MergedBack(current, b), xs + ys + [FlushFailed])
  {
    hide CountsReflect, MergeValues, MergePhases, JoinRings;
    FailedFlushReflects();
    CountsJoin(b, current, Persisted(b, current), xs, ys);
    var m := MergedBack(current, b);
    CountsJoin(Persisted(b, current), FAILED_FLUSH, m, xs + ys, [FlushFailed]);
  }

  lemma MergedBackEvents(current: Batch, b: Batch, xs: seq<Entry>, ys: seq<Entry>)
    requires EventsReflect(b, xs) && EventsReflect(current, ys)
    ensures EventsReflect(MergedBack(current, b), xs + ys + [FlushFailed])
  {
    hide MergeValues, MergePhases, JoinRings, Collect;
    EventsJoin(b, current, MergedBack(current, b), xs, ys);
    CollectConcat(xs + ys, [FlushFailed], DetailIn);
    CollectConcat(xs + ys, [FlushFailed], EventIn);
    CollectOne(FlushFailed, DetailIn);
    CollectOne(FlushFailed, EventIn);
  }

  // Adding one entry is merging the batch of that entry alone.

  lemma AddingReflects(b: Batch, xs: seq<Entry>, e: Entry)
    requires Reflects(b, xs) && !e.FlushFailed?
    ensures Reflects(if e.Measured? then AddRecord(b, e.record) else AddSample(b, e.failed, e.event), xs + [e])
  {
    hide Reflects;
    if e.Measured? {
      RecordReflects(b, xs, e.record);
    } else {
      SampleReflects(b, xs, e.failed, e.event);
    }
  }

  lemma AddingCounts(xs: seq<Entry>, e: Entry)
    ensures Collect(xs + [e], RecordIn) == Collect(xs, RecordIn) + RecordIn(e)
    ensures Collect(xs + [e], FailureIn) == Collect(xs, FailureIn) + FailureIn(e)
    ensures Collect(xs + [e], FlushFailureIn) == Collect(xs, FlushFailureIn) + FlushFailureIn(e)
    ensures Collect(xs + [e], SampleIn) == Collect(xs, SampleIn) + SampleIn(e)
    ensures Collect(xs + [e], SampleFailureIn) == Collect(xs, SampleFailureIn) + SampleFailureIn(e)
    ensures Collect(xs + [e], DetailIn) == Collect(xs, DetailIn) + DetailIn(e)
    ensures Collect(xs + [e], EventIn) == Collect(xs, EventIn) + EventIn(e)
  {
    assert (xs + [e])[..|xs|] == xs;
  }

  lemma RecordReflects(b: Batch, xs: seq<Entry>, r: Record)
    requires Reflects(b, xs)
    ensures Reflects(AddRecord(b, r), xs + [Measured(r)])
  {
    hide Collect, MergeRecord, Blur, Agg, Push, RingOf, PhasesReflect;
    var e := Measured(r);
    AddingCounts(xs, e);
    var c := AddRecord(b, r);
    var rs := Collect(xs, RecordIn);
    assert EventsReflect(c, xs + [e]) by {
      RingPushes(Collect(xs, DetailIn), r.detail, DETAIL_EVENT_LIMIT);
      assert Collect(xs, EventIn) + [] == Collect(xs, EventIn);
      assert Collect(xs, DetailIn) + [] == Collect(xs, DetailIn);
    }
    AggregateReflects(b.overall, rs, r);
    PhaseReflects(b.phases, rs, r);
  }

  lemma AggregateReflects(a: Aggregate, rs: seq<Record>, r: Record)
    requires Blur(a) == Blur(Agg(rs))
    ensures Blur(MergeRecord(a, r)) == Blur(Agg(rs + [r]))
  {
    assert Agg([r]) == One(r) by { assert [r][..0] == []; }
    hide Agg, Blur, MergeRecord, One, MergeValues;
    RecordIsSingleton(a, r);
    MergeInAnyOrder(a, One(r), rs, [r]);
  }

  lemma OfPhaseOneMore(rs: seq<Record>, r: Record, p: Phase)
    ensures OfPhase(rs + [r], p) == if r.phase == p then OfPhase(rs, p) + [r] else OfPhase(rs, p)
  {
    assert (rs + [r])[..|rs|] == rs;
  }

  lemma PhaseReflects(phases: map<Phase, Aggregate>, rs: seq<Record>, r: Record)
    requires PhasesReflect(phases, rs)
    ensures PhasesReflect(phases[r.phase := MergeRecord(At(phases, r.phase), r)], rs + [r])
  {
    hide Agg, Blur, MergeRecord, OfPhase;
    var after := phases[r.phase := MergeRecord(At(phases, r.phase), r)];
    AggregateReflects(At(phases, r.phase), OfPhase(rs, r.phase), r);
    forall p
      ensures p in after <==> OfPhase(rs + [r], p) != []
      ensures Blur(At(after, p)) == Blur(Agg(OfPhase(rs + [r], p)))
    {
      OfPhaseOneMore(rs, r, p);
    }
  }

  lemma SampleReflects(b: Batch, xs: seq<Entry>, failed: bool, event: Option<nat>)
    requires Reflects(b, xs)
    ensures Reflects(AddSample(b, failed, event), xs + [Sampled(failed, event)])
  {
    hide Collect, MergeRecord, Blur, Agg, Push, RingOf, PhasesReflect;
    var e := Sampled(failed, event);
    AddingCounts(xs, e);
    var c := AddSample(b, failed, event);
    assert Collect(xs, RecordIn) + [] == Collect(xs, RecordIn);
    assert EventsReflect(c, xs + [e]) by {
      if event.Some? {
        RingPushes(Collect(xs, EventIn), event.value, SAMPLER_EVENT_LIMIT);
      }
      assert Collect(xs, EventIn) + [] == Collect(xs, EventIn);
      assert Collect(xs, DetailIn) + [] == Collect(xs, DetailIn);
    }
  }

  // ----- Every run of every process -----

  /** One process: its two batches, and its whole history with the parts already persisted and taken. */
  datatype Process = Process(
    pending: Option<Batch>, inflight: Option<Batch>, history: seq<Entry>, sent: nat, taken: nat)

  datatype Commit = Commit(pid: nat, entries: seq<Entry>)

  datatype World = World(document: Batch, procs: seq<Process>, log: seq<Commit>)

  datatype Step = Add(pid: nat, e: Entry) | Begin(pid: nat) | End(pid: nat, ok: bool)

  function Next(w: World, s: Step): World {
    if s.pid >= |w.procs| then w
    else
      var p := w.procs[s.pid];
      match s
      case Add(pid, e) =>
        if e.FlushFailed? then w
        else
          var b := Pending(p.pending);
          var after := if e.Measured? then AddRecord(b, e.record) else AddSample(b, e.failed, e.event);
          w.(procs := w.procs[pid := p.(pending := Some(after), history := p.history + [e])])
      case Begin(pid) =>
        if p.inflight.Some? || !Dirty(p.pending) then w
        else w.(procs := w.procs[pid := p.(pending := None, inflight := p.pending, taken := |p.history|)])
      case End(pid, ok) =>
        if p.inflight.None? || !(p.sent <= p.taken <= |p.history|) then w
        else if ok then
          World(Persisted(w.document, p.inflight.value),
                w.procs[pid := p.(inflight := None, sent := p.taken)],
                w.log + [Commit(pid, p.history[p.sent..p.taken])])
        else
          w.(procs := w.procs[pid := p.(inflight := None, taken := p.sent, history := p.history + [FlushFailed],
                                        pending := Some(MergedBack(Pending(p.pending), p.inflight.value)))])
  }

  function Run(w: World, steps: seq<Step>): World
    decreases |steps|
  {
    if steps == [] then w else Run(Next(w, steps[0]), steps[1..])
  }

  function Flat(log: seq<Commit>): seq<Entry> {
    if log == [] then [] else Flat(log[..|log| - 1]) + log[|log| - 1].entries
  }

  /** The entries process `pid` has got into the document, in commit order. */
  function Own(log: seq<Commit>, pid: nat): seq<Entry> {
    if log == [] then []
    else Own(log[..|log| - 1], pid) + if log[|log| - 1].pid == pid then log[|log| - 1].entries else []
  }

  ghost predicate ProcessOk(p: Process) {
    && p.sent <= p.taken <= |p.history|
    && (if p.inflight.Some? then Reflects(p.inflight.value, p.history[p.sent..p.taken]) else p.sent == p.taken)
    && Reflects(Pending(p.pending), p.history[p.taken..])
  }

  ghost predicate Inv(w: World) {
    && Reflects(w.document, Flat(w.log))
    && forall i :: 0 <= i < |w.procs| ==>
         ProcessOk(w.procs[i]) && Own(w.log, i) == w.procs[i].history[..w.procs[i].sent]
  }

  lemma AddKeeps(p: Process, e: Entry, after: Batch)
    requires ProcessOk(p) && !e.FlushFailed?
    requires after == if e.Measured? then AddRecord(Pending(p.pending), e.record)
                      else AddSample(Pending(p.pending), e.failed, e.event)
    ensures ProcessOk(p.(pending := Some(after), history := p.history + [e]))
  {
    hide Reflects, AddRecord, AddSample;
    AddingReflects(Pending(p.pending), p.history[p.taken..], e);
    var h := p.history + [e];
    assert h[p.taken..] == p.history[p.taken..] + [e];
    assert h[p.sent..p.taken] == p.history[p.sent..p.taken];
  }

  lemma BeginKeeps(p: Process)
    requires ProcessOk(p) && p.inflight.None? && p.pending.Some?
    ensures ProcessOk(p.(pending := None, inflight := p.pending, taken := |p.history|))
  {
    hide Reflects;
    EmptyReflects();
    assert p.history[|p.history|..] == [];
    assert p.history[p.taken..|p.history|] == p.history[p.taken..];
  }

  lemma FailureKeeps(p: Process)
    requires ProcessOk(p) && p.inflight.Some?
    ensures ProcessOk(p.(inflight := None, taken := p.sent, history := p.history + [FlushFailed],
                         pending := Some(MergedBack(Pending(p.pending), p.inflight.value))))
  {
    hide Reflects, MergedBack;
    MergingBackReflects(Pending(p.pending), p.inflight.value, p.history[p.sent..p.taken], p.history[p.taken..]);
    assert (p.history + [FlushFailed])[p.sent..]
        == p.history[p.sent..p.taken] + p.history[p.taken..] + [FlushFailed];
  }

  lemma LogGrows(log: seq<Commit>, c: Commit, i: nat)
    ensures Flat(log + [c]) == Flat(log) + c.entries
    ensures Own(log + [c], i) == if i == c.pid then Own(log, i) + c.entries else Own(log, i)
  {
    assert (log + [c])[..|log|] == log;
  }

  lemma LogKeeps(procs: seq<Process>, log: seq<Commit>, pid: nat, p: Process, q: Process, chunk: seq<Entry>)
    requires pid < |procs| && procs[pid] == p && ProcessOk(q)
    requires p.sent <= |p.history| && q.sent <= |q.history|
    requires q.history[..q.sent] == p.history[..p.sent] + chunk
    requires forall i :: 0 <= i < |procs| ==> ProcessOk(procs[i]) && Own(log, i) == procs[i].history[..procs[i].sent]
    ensures var after := procs[pid := q];
            forall i :: 0 <= i < |after| ==>
              ProcessOk(after[i]) && Own(log + [Commit(pid, chunk)], i) == after[i].history[..after[i].sent]
  {
    hide Reflects, Own, Flat;
    var after := procs[pid := q];
    forall i | 0 <= i < |after|
      ensures ProcessOk(after[i]) && Own(log + [Commit(pid, chunk)], i) == after[i].history[..after[i].sent]
    {
      LogGrows(log, Commit(pid, chunk), i);
    }
  }

  lemma CommitKeeps(w: World, pid: nat)
    requires Inv(w) && pid < |w.procs| && w.procs[pid].inflight.Some?
    ensures Inv(Next(w, End(pid, true)))
  {
    hide Reflects, Persisted, Own, Flat;
    var p := w.procs[pid];
    assert ProcessOk(p);
    var chunk := p.history[p.sent..p.taken];
    var q := p.(inflight := None, sent := p.taken);
    LogKeeps(w.procs, w.log, pid, p, q, chunk);
    LogGrows(w.log, Commit(pid, chunk), pid);
    PersistingReflects(w.document, p.inflight.value, Flat(w.log), chunk);
    assert Next(w, End(pid, true)) ==
           World(Persisted(w.document, p.inflight.value), w.procs[pid := q], w.log + [Commit(pid, chunk)]);
    hide ProcessOk, Next;
  }

  lemma StepKeepsInv(w: World, s: Step)
    requires Inv(w)
    ensures Inv(Next(w, s))
  {
    hide Reflects, Persisted, MergedBack, AddRecord, AddSample, Own, Flat;
    if s.pid < |w.procs| {
      var p := w.procs[s.pid];
      match s
      case Add(pid, e) =>
        if !e.FlushFailed? {
          var b := Pending(p.pending);
          AddKeeps(p, e, if e.Measured? then AddRecord(b, e.record) else AddSample(b, e.failed, e.event));
          assert (p.history + [e])[..p.sent] == p.history[..p.sent];
        }
      case Begin(pid) =>
        if p.inflight.None? && Dirty(p.pending) {
          BeginKeeps(p);
        }
      case End(pid, ok) =>
        if p.inflight.Some? {
          if ok {
            CommitKeeps(w, pid);
          } else {
            FailureKeeps(p);
            assert (p.history + [FlushFailed])[..p.sent] == p.history[..p.sent];
          }
        }
    }
  }

  lemma {:induction false} RunKeepsInv(w: World, steps: seq<Step>)
    requires Inv(w)
    ensures Inv(Run(w, steps))
    decreases |steps|
  {
    if steps != [] {
      hide Inv, Next;
      StepKeepsInv(w, steps[0]);
      RunKeepsInv(Next(w, steps[0]), steps[1..]);
    }
  }

  /**
   No telemetry is lost or counted twice, whatever records, samples, flushes and failed flushes of however
   many processes interleave: the document is a true account of the committed entries, and each process's
   history is what it has committed, then what is in flight, then what is pending.
   */
  lemma TelemetryIsConserved(n: nat, steps: seq<Step>)
    ensures var w := Run(World(EMPTY_BATCH, seq(n, _ => Process(None, None, [], 0, 0)), []), steps);
            && Reflects(w.document, Flat(w.log))
            && forall i :: 0 <= i < |w.procs| ==>
                 var p := w.procs[i];
                 && p.sent <= p.taken <= |p.history|
                 && p.history == Own(w.log, i) + p.history[p.sent..p.taken] + p.history[p.taken..]
                 && (if p.inflight.Some? then Reflects(p.inflight.value, p.history[p.sent..p.taken])
                     else p.sent == p.taken)
                 && Reflects(Pending(p.pending), p.history[p.taken..])
  {
    hide Reflects, Run;
    var start := World(EMPTY_BATCH, seq(n, _ => Process(None, None, [], 0, 0)), []);
    EmptyReflects();
    assert Inv(start) by {
      forall i | 0 <= i < n
        ensures ProcessOk(start.procs[i]) && Own([], i) == []
      {
        EmptyReflects();
      }
    }
    RunKeepsInv(start, steps);
  }

  // ----- What is kept, and what is flushed -----

  /** A sample is kept as an event from 230 MiB on, or after a rise of the high-water mark by 5 MiB. */
  lemma KeptExactlyWhen(rss: Option<int>, hwm: Option<int>, previous: Option<int>)
    ensures Triggers(rss, hwm, previous) <==>
            match (rss, hwm, previous)
            case (Some(r), Some(h), Some(p)) => r >= 241_172_480 || h >= p + 5_242_880
            case (Some(r), _, _) => r >= 241_172_480
            case (None, Some(h), Some(p)) => h >= p + 5_242_880
            case (None, _, _) => false
  {
  }

  lemma {:induction false} SomethingCollected<U>(xs: seq<Entry>, f: Entry -> seq<U>)
    ensures Collect(xs, f) != [] <==> exists i :: 0 <= i < |xs| && f(xs[i]) != []
  {
    if xs != [] {
      var n := |xs| - 1;
      SomethingCollected(xs[..n], f);
      if i :| 0 <= i < n && f(xs[..n][i]) != [] {
        assert f(xs[i]) != [];
      }
      assert forall i :: 0 <= i < n ==> xs[i] == xs[..n][i];
    }
  }

  /** A pending batch is flushed exactly when a record or a sample is among its entries. */
  lemma FlushedExactlyWhen(b: Batch, xs: seq<Entry>)
    requires Reflects(b, xs)
    ensures Dirty(Some(b)) <==> exists i :: 0 <= i < |xs| && !xs[i].FlushFailed?
    ensures !Dirty(None)
  {
    SomethingCollected(xs, RecordIn);
    SomethingCollected(xs, SampleIn);
    hide Collect;
    if i :| 0 <= i < |xs| && !xs[i].FlushFailed? {
      assert RecordIn(xs[i]) != [] || SampleIn(xs[i]) != [];
    }
  }
}
