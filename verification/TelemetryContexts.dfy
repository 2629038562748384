/**
 What does depend on the order of merging: the contexts of the peaks and the last metadata. They are exact
 as long as no flush failed; a failed flush merges the older batch into the newer one, and here is exactly
 when that leaves a trace.
 */
module TelemetryContexts {
  import opened Wrappers
  import opened PhaseTelemetry
  import opened TelemetryFlush

  // ----- Without failed flushes -----

  /** The aggregates, contexts and last metadata included, are those of the whole list. */
  ghost predicate Exact(b: Batch, xs: seq<Entry>) {
    && b.overall == Agg(Collect(xs, RecordIn))
    && PhasesExact(b.phases, Collect(xs, RecordIn))
  }

  ghost predicate PhasesExact(phases: map<Phase, Aggregate>, rs: seq<Record>) {
    forall p :: (p in phases <==> OfPhase(rs, p) != []) && At(phases, p) == Agg(OfPhase(rs, p))
  }

  /** Entries that no failed flush has reordered. */
  predicate InOrder(xs: seq<Entry>) { FlushFailed !in xs }

  ghost predicate ExactInOrder(b: Batch, xs: seq<Entry>) { InOrder(xs) ==> Exact(b, xs) }

  lemma EmptyExact()
    ensures Exact(EMPTY_BATCH, [])
  {
    EmptyReflects();
    forall p: Phase
      ensures OfPhase([], p) == [] && Agg([]) == EMPTY
    {
    }
  }

  lemma AddingExact(b: Batch, xs: seq<Entry>, e: Entry)
    requires ExactInOrder(b, xs) && !e.FlushFailed?
    ensures ExactInOrder(if e.Measured? then AddRecord(b, e.record) else AddSample(b, e.failed, e.event), xs + [e])
  {
    hide Exact;
    if InOrder(xs + [e]) {
      assert InOrder(xs) by {
        assert forall x :: x in xs ==> x in xs + [e];
      }
      if e.Measured? {
        RecordExact(b, xs, e.record);
      } else {
        SampleExact(b, xs, e.failed, e.event);
      }
    }
  }

  lemma RecordExact(b: Batch, xs: seq<Entry>, r: Record)
    requires Exact(b, xs)
    ensures Exact(AddRecord(b, r), xs + [Measured(r)])
  {
    hide MergeRecord, Collect, Push, OfPhase;
    AddingCounts(xs, Measured(r));
    var rs := Collect(xs, RecordIn);
    AggOneMore(rs, r);
    AggOneMore(OfPhase(rs, r.phase), r);
    hide Agg;
    forall p
      ensures OfPhase(rs + [r], p) == if r.phase == p then OfPhase(rs, p) + [r] else OfPhase(rs, p)
    {
      OfPhaseOneMore(rs, r, p);
    }
  }

  lemma AggOneMore(rs: seq<Record>, r: Record)
    ensures Agg(rs + [r]) == MergeRecord(Agg(rs), r)
  {
    assert (rs + [r])[..|rs|] == rs;
  }

  lemma SampleExact(b: Batch, xs: seq<Entry>, failed: bool, event: Option<nat>)
    requires Exact(b, xs)
    ensures Exact(AddSample(b, failed, event), xs + [Sampled(failed, event)])
  {
    hide Agg, Collect, Push, OfPhase;
    AddingCounts(xs, Sampled(failed, event));
    assert Collect(xs, RecordIn) + [] == Collect(xs, RecordIn);
  }

  /** A batch merged behind an older one: the exact aggregates of both lists together. */
  lemma {:induction false} PersistingExact(d: Batch, b: Batch, xs: seq<Entry>, ys: seq<Entry>)
    requires ExactInOrder(d, xs) && ExactInOrder(b, ys)
    ensures ExactInOrder(Persisted(d, b), xs + ys)
  {
    hide MergeValues, Agg, Collect, JoinRings, OfPhase;
    if InOrder(xs + ys) {
      assert InOrder(xs) && InOrder(ys) by {
        assert forall x :: x in xs || x in ys ==> x in xs + ys;
      }
      CollectConcat(xs, ys, RecordIn);
      var older, newer := Collect(xs, RecordIn), Collect(ys, RecordIn);
      MergeIsConcatenation(older, newer);
      assert PhasesExact(MergePhases(d.phases, b.phases), older + newer) by {
        MergedPhasesExact(d.phases, b.phases, older, newer);
      }
    }
  }

  lemma {:induction false} MergedPhasesExact(
    a: map<Phase, Aggregate>, b: map<Phase, Aggregate>, xs: seq<Record>, ys: seq<Record>)
    requires PhasesExact(a, xs) && PhasesExact(b, ys)
    ensures PhasesExact(MergePhases(a, b), xs + ys)
  {
    hide MergeValues, Agg, OfPhase;
    forall p
      ensures (p in MergePhases(a, b) <==> OfPhase(xs + ys, p) != [])
      ensures At(MergePhases(a, b), p) == Agg(OfPhase(xs + ys, p))
    {
      OfPhaseConcat(xs, ys, p);
      MergeIsConcatenation(OfPhase(xs, p), OfPhase(ys, p));
      if p !in b {
        assert OfPhase(xs, p) + [] == OfPhase(xs, p);
      }
    }
  }

  ghost predicate ProcessExact(p: Process) {
    && p.sent <= p.taken <= |p.history|
    && (p.inflight.Some? ==> ExactInOrder(p.inflight.value, p.history[p.sent..p.taken]))
    && ExactInOrder(Pending(p.pending), p.history[p.taken..])
  }

  ghost predicate WorldExact(w: World) {
    ExactInOrder(w.document, Flat(w.log)) && forall i :: 0 <= i < |w.procs| ==> ProcessExact(w.procs[i])
  }

  lemma AddKeepsExact(p: Process, e: Entry)
    requires ProcessExact(p) && !e.FlushFailed?
    ensures var b := Pending(p.pending);
            var after := if e.Measured? then AddRecord(b, e.record) else AddSample(b, e.failed, e.event);
            ProcessExact(p.(pending := Some(after), history := p.history + [e]))
  {
    hide ExactInOrder, AddRecord, AddSample;
    AddingExact(Pending(p.pending), p.history[p.taken..], e);
    var h := p.history + [e];
    assert h[p.taken..] == p.history[p.taken..] + [e] && h[p.sent..p.taken] == p.history[p.sent..p.taken];
  }

  lemma BeginKeepsExact(p: Process)
    requires ProcessExact(p) && p.inflight.None? && p.pending.Some? && p.sent == p.taken
    ensures ProcessExact(p.(pending := None, inflight := p.pending, taken := |p.history|))
  {
    hide Exact;
    EmptyExact();
    assert p.history[|p.history|..] == [] && p.history[p.taken..|p.history|] == p.history[p.taken..];
  }

  /** After a failed flush the batch holds the failure, so nothing is claimed about its contexts. */
  lemma FailureKeepsExact(p: Process, merged: Batch)
    requires ProcessExact(p)
    ensures ProcessExact(p.(inflight := None, taken := p.sent, history := p.history + [FlushFailed],
                            pending := Some(merged)))
  {
    hide Exact;
    var h := p.history + [FlushFailed];
    assert h[p.sent..][|p.history| - p.sent] == FlushFailed;
  }

  lemma {:induction false} StepKeepsExact(w: World, s: Step)
    requires Inv(w) && WorldExact(w)
    ensures WorldExact(Next(w, s))
  {
    hide Reflects, ExactInOrder, Persisted, MergedBack, AddRecord, AddSample, TelemetryFlush.Own, Flat;
    if s.pid < |w.procs| {
      var p := w.procs[s.pid];
      assert ProcessOk(p) && ProcessExact(p);
      match s
      case Add(_, e) =>
        if !e.FlushFailed? {
          AddKeepsExact(p, e);
        }
      case Begin(_) =>
        if p.inflight.None? && Dirty(p.pending) {
          BeginKeepsExact(p);
        }
      case End(_, ok) =>
        if p.inflight.Some? {
          if ok {
            var chunk := p.history[p.sent..p.taken];
            PersistingExact(w.document, p.inflight.value, Flat(w.log), chunk);
            LogGrows(w.log, Commit(s.pid, chunk), s.pid);
          } else {
            FailureKeepsExact(p, MergedBack(Pending(p.pending), p.inflight.value));
          }
        }
    }
  }

  lemma {:induction false} RunKeepsExact(w: World, steps: seq<Step>)
    requires Inv(w) && WorldExact(w)
    ensures WorldExact(Run(w, steps))
    decreases |steps|
  {
    if steps != [] {
      hide Inv, WorldExact, Next;
      StepKeepsInv(w, steps[0]);
      StepKeepsExact(w, steps[0]);
      RunKeepsExact(Next(w, steps[0]), steps[1..]);
    }
  }

  /**
   In every run of every process, each aggregate, with the contexts of its peaks and its last metadata, is
   exactly that of its entries in order, as long as no failed flush is among those entries: for what a
   process has pending, for what it is flushing, and for the shared document.
   */
  lemma {:induction false} ContextsAreExactInOrder(n: nat, steps: seq<Step>)
    ensures var w := Run(World(EMPTY_BATCH, seq(n, _ => Process(None, None, [], 0, 0)), []), steps);
            && (InOrder(Flat(w.log)) ==> Exact(w.document, Flat(w.log)))
            && forall i :: 0 <= i < |w.procs| ==> ProcessExact(w.procs[i])
  {
    hide Run, Reflects, Exact;
    var start := World(EMPTY_BATCH, seq(n, _ => Process(None, None, [], 0, 0)), []);
    EmptyReflects();
    EmptyExact();
    assert Inv(start) && WorldExact(start);
    RunKeepsExact(start, steps);
  }

  // ----- What a failed flush does to them -----

  /** Both lists reached this peak value, with different contexts. */
  predicate TiedApart(older: Aggregate, newer: Aggregate, k: PeakKey) {
    && k in older.peaks && k in newer.peaks
    && older.peaks[k].value == newer.peaks[k].value && older.peaks[k].context != newer.peaks[k].context
  }

  predicate Holds(a: Aggregate, k: PeakKey, p: Peak) {
    k in a.peaks && a.peaks[k] == p
  }

  lemma PeaksSwapExactlyWhen(a: Aggregate, b: Aggregate)
    ensures MergeMaps(a.peaks, b.peaks, Higher) == MergeMaps(b.peaks, a.peaks, Higher)
            <==> forall k :: !TiedApart(a, b, k)
  {
    var l, r := MergeMaps(a.peaks, b.peaks, Higher), MergeMaps(b.peaks, a.peaks, Higher);
    assert l.Keys == r.Keys;
    forall k | k in a.peaks && k in b.peaks && a.peaks[k].value == b.peaks[k].value
      ensures l[k] == a.peaks[k] && r[k] == b.peaks[k]
    {
    }
    if l != r {
      var k :| k in l && l[k] != r[k];
      assert TiedApart(a, b, k);
    }
  }

  /**
   Merging the older batch into the newer one gives the aggregate of all records in order exactly when no
   peak was reached in both with different contexts, and the last metadata agree or one batch was empty.
   Otherwise a tied peak takes the newer context, and the last metadata go back to the older ones.
   */
  lemma {:induction false} MergeBackIsExactExactlyWhen(older: seq<Record>, newer: seq<Record>)
    ensures MergeValues(Agg(newer), Agg(older)) == Agg(older + newer) <==>
            && (older == [] || newer == [] || older[|older| - 1].metadata == newer[|newer| - 1].metadata)
            && (forall k :: !TiedApart(Agg(older), Agg(newer), k))
    ensures forall k :: TiedApart(Agg(older), Agg(newer), k) ==>
              && Holds(Agg(older + newer), k, Agg(older).peaks[k])
              && Holds(MergeValues(Agg(newer), Agg(older)), k, Agg(newer).peaks[k])
    ensures older != [] ==> MergeValues(Agg(newer), Agg(older)).last == Some(older[|older| - 1].metadata)
  {
    var a, b := Agg(older), Agg(newer);
    FoldCounts(older);
    FoldCounts(newer);
    MergeIsConcatenation(older, newer);
    hide Agg, MergeMaps;
    MetadataCommute(a.maxima, b.maxima);
    MetadataCommute(a.totals, b.totals);
    PeaksSwapExactlyWhen(a, b);
    forall k | TiedApart(a, b, k)
      ensures Holds(MergeValues(a, b), k, a.peaks[k]) && Holds(MergeValues(b, a), k, b.peaks[k])
    {
      TiedPeak(a.peaks, b.peaks, k);
      TiedPeak(b.peaks, a.peaks, k);
    }
  }

  lemma TiedPeak(a: map<PeakKey, Peak>, b: map<PeakKey, Peak>, k: PeakKey)
    requires k in a && k in b && a[k].value == b[k].value
    ensures k in MergeMaps(a, b, Higher) && MergeMaps(a, b, Higher)[k] == a[k]
  {
  }
}
