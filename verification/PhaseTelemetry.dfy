/**
 Bounded phase and memory telemetry (src/phase_memory_telemetry.py): records are folded into a pending
 batch, a flush swaps the batch out and merges it into a shared document, and a failed flush merges it
 back behind what was recorded meanwhile. Elapsed times are integers (microseconds).
 */
module PhaseTelemetry {
  import opened Wrappers

  const MAX_SCALAR_COUNT: nat := 1_000_000_000_000_000
  const DETAIL_EVENT_LIMIT: nat := 200
  const SAMPLER_EVENT_LIMIT: nat := 96

  type Phase = nat
  type Detail = nat
  type Metadata = map<nat, nat>

  datatype PeakKey = Elapsed | Rss | Hwm | RssDelta | HwmDelta

  datatype Record = Record(
    phase: Phase, measurementFailed: bool, bodyFailed: bool, detailRetained: bool, elapsed: nat,
    peaks: map<PeakKey, int>, active: nat, metadata: Metadata, detail: Detail)

  /** What a process adds to its telemetry; a failed flush is counted too. */
  datatype Entry = Measured(record: Record) | Sampled(failed: bool, event: Option<nat>) | FlushFailed

  function Cap(n: nat): nat { if n < MAX_SCALAR_COUNT then n else MAX_SCALAR_COUNT }

  function SaturatedSum(a: nat, b: nat): nat { Cap(a + b) }

  // ----- Aggregates of one phase -----

  datatype Peak = Peak(value: int, context: Detail)

  datatype Aggregate = Aggregate(
    count: nat, measurementFailures: nat, bodyFailures: nat, detailRetained: nat, elapsed: nat,
    active: nat, peaks: map<PeakKey, Peak>, maxima: Metadata, totals: Metadata, last: Option<Metadata>)

  const EMPTY := Aggregate(0, 0, 0, 0, 0, 0, map[], map[], map[], None)

  function Max(a: nat, b: nat): nat { if a >= b then a else b }

  /** The incumbent wins a tie, so the context is that of the first record that reached the peak. */
  function Higher(a: Peak, b: Peak): Peak { if b.value > a.value then b else a }

  function Bit(b: bool): nat { if b then 1 else 0 }

  function MergeMaps<K, V>(a: map<K, V>, b: map<K, V>, f: (V, V) -> V): map<K, V> {
    map k | k in a.Keys + b.Keys :: if k in a && k in b then f(a[k], b[k]) else if k in a then a[k] else b[k]
  }

  function RecordPeaks(a: map<PeakKey, Peak>, r: Record): map<PeakKey, Peak> {
    map k | k in a.Keys + r.peaks.Keys ::
      if k in r.peaks && (k !in a || r.peaks[k] > a[k].value) then Peak(r.peaks[k], r.detail) else a[k]
  }

  function RecordMaxima(a: Metadata, m: Metadata): Metadata {
    map k | k in a.Keys + m.Keys :: if k !in m then a[k] else Max(if k in a then a[k] else 0, m[k])
  }

  function RecordTotals(a: Metadata, m: Metadata): Metadata {
    map k | k in a.Keys + m.Keys :: if k !in m then a[k] else SaturatedSum(if k in a then a[k] else 0, m[k])
  }

  function MergeRecord(a: Aggregate, r: Record): Aggregate {
    Aggregate(
      SaturatedSum(a.count, 1),
      SaturatedSum(a.measurementFailures, Bit(r.measurementFailed)),
      SaturatedSum(a.bodyFailures, Bit(r.bodyFailed)),
      SaturatedSum(a.detailRetained, Bit(r.detailRetained)),
      a.elapsed + r.elapsed,
      Max(a.active, r.active),
      RecordPeaks(a.peaks, r),
      RecordMaxima(a.maxima, r.metadata),
      RecordTotals(a.totals, r.metadata),
      Some(r.metadata))
  }

  /** Merging a source aggregate into a target that is taken to be the older one. */
  function MergeValues(a: Aggregate, b: Aggregate): Aggregate {
    Aggregate(
      SaturatedSum(a.count, b.count),
      SaturatedSum(a.measurementFailures, b.measurementFailures),
      SaturatedSum(a.bodyFailures, b.bodyFailures),
      SaturatedSum(a.detailRetained, b.detailRetained),
      a.elapsed + b.elapsed,
      Max(a.active, b.active),
      MergeMaps(a.peaks, b.peaks, Higher),
      MergeMaps(a.maxima, b.maxima, Max),
      MergeMaps(a.totals, b.totals, SaturatedSum),
      if b.last.Some? then b.last else a.last)
  }

  function Agg(rs: seq<Record>): Aggregate {
    if rs == [] then EMPTY else MergeRecord(Agg(rs[..|rs| - 1]), rs[|rs| - 1])
  }

  /** What does not depend on the order of merging: counts, totals and maxima, without peak contexts. */
  function Blur(a: Aggregate): Aggregate {
    a.(last := None, peaks := BlurPeaks(a.peaks))
  }

  function BlurPeaks(m: map<PeakKey, Peak>): map<PeakKey, Peak> { map k | k in m :: Peak(m[k].value, 0) }

  // ----- Bounded event lists -----

  datatype Ring<T> = Ring(retained: nat, evicted: nat, events: seq<T>)

  function LastOf<T>(xs: seq<T>, n: nat): seq<T> { if |xs| <= n then xs else xs[|xs| - n..] }

  function Excess(n: nat, limit: nat): nat { if n > limit then n - limit else 0 }

  function JoinRings<T>(a: Ring<T>, b: Ring<T>, limit: nat): Ring<T> {
    var all := a.events + b.events;
    Ring(SaturatedSum(a.retained, b.retained),
         SaturatedSum(SaturatedSum(a.evicted, b.evicted), Excess(|all|, limit)),
         LastOf(all, limit))
  }

  function Push<T>(a: Ring<T>, x: T, limit: nat): Ring<T>
    requires limit > 0
  {
    if |a.events| >= limit && a.events != [] then
      Ring(SaturatedSum(a.retained, 1), SaturatedSum(a.evicted, 1), a.events[1..] + [x])
    else Ring(SaturatedSum(a.retained, 1), a.evicted, a.events + [x])
  }

  /** The reference: all events, the youngest `limit` kept, the others counted. */
  function RingOf<T>(xs: seq<T>, limit: nat): Ring<T> {
    Ring(Cap(|xs|), Cap(Excess(|xs|, limit)), LastOf(xs, limit))
  }

  lemma {:induction false} LastOfSum<T>(xs: seq<T>, ys: seq<T>, n: nat)
    ensures LastOf(LastOf(xs, n) + LastOf(ys, n), n) == LastOf(xs + ys, n)
  {
    if |ys| >= n {
      var young := ys[|ys| - n..];
      assert LastOf(ys, n) == young;
      assert (LastOf(xs, n) + young)[|LastOf(xs, n)|..] == young;
      assert (xs + ys)[|xs| + |ys| - n..] == young;
    } else if |xs| > n {
      var old' := xs[|xs| - n..];
      assert (old' + ys)[|ys|..] == (xs + ys)[|xs| + |ys| - n..];
    }
  }

  lemma CapsAdd(a: nat, b: nat)
    ensures SaturatedSum(Cap(a), Cap(b)) == Cap(a + b) && SaturatedSum(a, Cap(b)) == Cap(a + b)
    ensures SaturatedSum(Cap(a), b) == Cap(a + b)
  {
  }

  lemma EvictionsAdd(m: nat, n: nat, limit: nat)
    ensures var kept := (if m <= limit then m else limit) + if n <= limit then n else limit;
            SaturatedSum(SaturatedSum(Cap(Excess(m, limit)), Cap(Excess(n, limit))), Excess(kept, limit))
            == Cap(Excess(m + n, limit))
  {
    hide Cap, SaturatedSum, Excess;
    var kept := (if m <= limit then m else limit) + if n <= limit then n else limit;
    CapsAdd(Excess(m, limit), Excess(n, limit));
    CapsAdd(Excess(m, limit) + Excess(n, limit), Excess(kept, limit));
    assert Excess(m, limit) + Excess(n, limit) + Excess(kept, limit)
        == Excess(m + n, limit) by { ExcessAdds(m, n, limit); }
  }

  lemma ExcessAdds(m: nat, n: nat, limit: nat)
    ensures var kept := (if m <= limit then m else limit) + if n <= limit then n else limit;
            Excess(m, limit) + Excess(n, limit) + Excess(kept, limit) == Excess(m + n, limit)
  {
  }

  lemma LastOfSize<T>(xs: seq<T>, n: nat)
    ensures |LastOf(xs, n)| == if |xs| <= n then |xs| else n
  {
  }

  lemma {:induction false} RingsJoin<T>(xs: seq<T>, ys: seq<T>, limit: nat)
    ensures JoinRings(RingOf(xs, limit), RingOf(ys, limit), limit) == RingOf(xs + ys, limit)
  {
    hide LastOf, Cap, SaturatedSum, Excess;
    LastOfSum(xs, ys, limit);
    CapsAdd(|xs|, |ys|);
    LastOfSize(xs, limit);
    LastOfSize(ys, limit);
    EvictionsAdd(|xs|, |ys|, limit);
  }

  lemma RingPushes<T>(xs: seq<T>, x: T, limit: nat)
    requires limit > 0
    ensures Push(RingOf(xs, limit), x, limit) == RingOf(xs + [x], limit)
  {
    assert LastOf(xs + [x], limit) ==
           if |xs| >= limit then LastOf(xs, limit)[1..] + [x] else xs + [x];
  }

  /** Nothing is miscounted: while below saturation, what was retained is either still listed or evicted. */
  lemma RetainedIsListedOrEvicted<T>(xs: seq<T>, limit: nat)
    requires |xs| < MAX_SCALAR_COUNT
    ensures var r := RingOf(xs, limit); r.retained == |r.events| + r.evicted && r.events == LastOf(xs, limit)
  {
  }

  // ----- What the fold computes -----

  function ElapsedSum(rs: seq<Record>): nat {
    if rs == [] then 0 else ElapsedSum(rs[..|rs| - 1]) + rs[|rs| - 1].elapsed
  }

  /** Record i is the first to reach the highest value of this key. */
  predicate FirstPeak(rs: seq<Record>, k: PeakKey, i: nat) {
    && i < |rs| && k in rs[i].peaks
    && (forall j :: 0 <= j < |rs| && k in rs[j].peaks ==> rs[j].peaks[k] <= rs[i].peaks[k])
    && (forall j :: 0 <= j < i && k in rs[j].peaks ==> rs[j].peaks[k] < rs[i].peaks[k])
  }

  function CountWhere(rs: seq<Record>, f: Record -> bool): nat {
    if rs == [] then 0 else CountWhere(rs[..|rs| - 1], f) + Bit(f(rs[|rs| - 1]))
  }

  function MetadataSum(rs: seq<Record>, k: nat): nat {
    if rs == [] then 0
    else
      var m := rs[|rs| - 1].metadata;
      MetadataSum(rs[..|rs| - 1], k) + if k in m then m[k] else 0
  }

  /** The counters and totals are those of the whole list, each cut off at the limit once. */
  lemma {:induction false} FoldCounts(rs: seq<Record>)
    ensures Agg(rs).count == Cap(|rs|) && Agg(rs).elapsed == ElapsedSum(rs)
    ensures Agg(rs).measurementFailures == Cap(CountWhere(rs, (r: Record) => r.measurementFailed))
    ensures Agg(rs).bodyFailures == Cap(CountWhere(rs, (r: Record) => r.bodyFailed))
    ensures Agg(rs).detailRetained == Cap(CountWhere(rs, (r: Record) => r.detailRetained))
    ensures Agg(rs).last == if rs == [] then None else Some(rs[|rs| - 1].metadata)
  {
    if rs != [] {
      FoldCounts(rs[..|rs| - 1]);
      hide RecordPeaks, RecordMaxima, RecordTotals;
    }
  }

  lemma {:induction false} FoldTotals(rs: seq<Record>, k: nat)
    ensures k in Agg(rs).totals <==> exists i :: 0 <= i < |rs| && k in rs[i].metadata
    ensures k in Agg(rs).totals ==> Agg(rs).totals[k] == Cap(MetadataSum(rs, k))
    ensures k !in Agg(rs).totals ==> MetadataSum(rs, k) == 0
  {
    if rs != [] {
      var rest, r := rs[..|rs| - 1], rs[|rs| - 1];
      FoldTotals(rest, k);
      assert Agg(rs).totals == RecordTotals(Agg(rest).totals, r.metadata);
      hide Agg;
      if i :| 0 <= i < |rest| && k in rest[i].metadata {
        assert k in rs[i].metadata;
      }
    }
  }

  /** Some record has value `v` for the key, and none has a higher one. */
  ghost predicate MaximumOf(rs: seq<Record>, k: nat, v: nat) {
    && (exists i :: 0 <= i < |rs| && k in rs[i].metadata && rs[i].metadata[k] == v)
    && (forall i :: 0 <= i < |rs| && k in rs[i].metadata ==> rs[i].metadata[k] <= v)
  }

  lemma MaximaStep(maxima: map<nat, nat>, metadata: map<nat, nat>, k: nat)
    ensures var m := RecordMaxima(maxima, metadata);
            && (k in m <==> k in maxima || k in metadata)
            && (k in m ==> m[k] == if k in maxima && !(k in metadata && metadata[k] > maxima[k])
                                   then maxima[k] else metadata[k])
  {
  }

  lemma OneMaximumMore(rs: seq<Record>, r: Record, k: nat, v: nat)
    requires MaximumOf(rs, k, v)
    ensures MaximumOf(rs + [r], k, if k in r.metadata && r.metadata[k] > v then r.metadata[k] else v)
  {
    var i :| 0 <= i < |rs| && k in rs[i].metadata && rs[i].metadata[k] == v;
    assert (rs + [r])[i] == rs[i] && (rs + [r])[|rs|] == r;
  }

  lemma FirstMaximum(rs: seq<Record>, r: Record, k: nat)
    requires k in r.metadata && forall j :: 0 <= j < |rs| ==> k !in rs[j].metadata
    ensures MaximumOf(rs + [r], k, r.metadata[k])
  {
    assert (rs + [r])[|rs|] == r;
  }

  /** Every metadata maximum is reached by some record and exceeded by none; a key no record has, has none. */
  lemma {:induction false} FoldMaxima(rs: seq<Record>, k: nat)
    ensures k in Agg(rs).maxima ==> MaximumOf(rs, k, Agg(rs).maxima[k])
    ensures k !in Agg(rs).maxima ==> forall j :: 0 <= j < |rs| ==> k !in rs[j].metadata
  {
    if rs != [] {
      var rest, r := rs[..|rs| - 1], rs[|rs| - 1];
      FoldMaxima(rest, k);
      assert Agg(rs).maxima == RecordMaxima(Agg(rest).maxima, r.metadata) && rs == rest + [r];
      hide Agg, MaximumOf;
      MaximaStep(Agg(rest).maxima, r.metadata, k);
      hide RecordMaxima;
      if k in Agg(rest).maxima {
        OneMaximumMore(rest, r, k, Agg(rest).maxima[k]);
      } else if k in r.metadata {
        FirstMaximum(rest, r, k);
      }
    }
  }

  /** So is the peak of phases active at once. */
  lemma {:induction false} FoldActivity(rs: seq<Record>)
    ensures forall i :: 0 <= i < |rs| ==> rs[i].active <= Agg(rs).active
    ensures Agg(rs).active == 0 || exists i :: 0 <= i < |rs| && rs[i].active == Agg(rs).active
  {
    if rs != [] {
      var n := |rs| - 1;
      FoldActivity(rs[..n]);
      assert Agg(rs).active == Max(Agg(rs[..n]).active, rs[n].active);
      hide Agg;
      assert forall i :: 0 <= i < n ==> rs[i] == rs[..n][i];
      if i :| 0 <= i < n && rs[..n][i].active == Agg(rs[..n]).active {
        assert rs[i].active == Agg(rs[..n]).active;
      }
    }
  }

  ghost predicate PeakOf(rs: seq<Record>, k: PeakKey, p: Peak) {
    exists i: nat :: FirstPeak(rs, k, i) && p == Peak(rs[i].peaks[k], rs[i].detail)
  }

  lemma OnePeakMore(rs: seq<Record>, r: Record, k: PeakKey, p: Peak)
    requires PeakOf(rs, k, p)
    ensures PeakOf(rs + [r], k, if k in r.peaks && r.peaks[k] > p.value then Peak(r.peaks[k], r.detail) else p)
  {
    var i: nat :| FirstPeak(rs, k, i) && p == Peak(rs[i].peaks[k], rs[i].detail);
    if k in r.peaks && r.peaks[k] > p.value {
      assert FirstPeak(rs + [r], k, |rs|);
    } else {
      assert FirstPeak(rs + [r], k, i);
    }
  }

  lemma FirstPeakEver(rs: seq<Record>, r: Record, k: PeakKey)
    requires k in r.peaks && forall j :: 0 <= j < |rs| ==> k !in rs[j].peaks
    ensures PeakOf(rs + [r], k, Peak(r.peaks[k], r.detail))
  {
    assert FirstPeak(rs + [r], k, |rs|);
  }

  /** Each peak is the first maximum over all records, with the context of exactly that record. */
  lemma {:induction false} FoldFindsPeaks(rs: seq<Record>, k: PeakKey)
    ensures k in Agg(rs).peaks ==> PeakOf(rs, k, Agg(rs).peaks[k])
    ensures k !in Agg(rs).peaks ==> forall j :: 0 <= j < |rs| ==> k !in rs[j].peaks
  {
    if rs != [] {
      var rest, r := rs[..|rs| - 1], rs[|rs| - 1];
      FoldFindsPeaks(rest, k);
      assert Agg(rs).peaks == RecordPeaks(Agg(rest).peaks, r) && rs == rest + [r];
      hide Agg, PeakOf;
      if k in Agg(rest).peaks {
        OnePeakMore(rest, r, k, Agg(rest).peaks[k]);
      } else if k in r.peaks {
        FirstPeakEver(rest, r, k);
      }
    }
  }

  // ----- Aggregating in batches is aggregating -----

  lemma MapsAssociate<K, V>(a: map<K, V>, b: map<K, V>, c: map<K, V>, f: (V, V) -> V)
    requires forall k :: k in a && k in b && k in c ==> f(f(a[k], b[k]), c[k]) == f(a[k], f(b[k], c[k]))
    ensures MergeMaps(MergeMaps(a, b, f), c, f) == MergeMaps(a, MergeMaps(b, c, f), f)
  {
    var l, r := MergeMaps(MergeMaps(a, b, f), c, f), MergeMaps(a, MergeMaps(b, c, f), f);
    assert l.Keys == a.Keys + b.Keys + c.Keys == r.Keys;
    forall k | k in l
      ensures l[k] == r[k]
    {
    }
  }

  lemma SumsAssociate(a: nat, b: nat, c: nat)
    ensures SaturatedSum(SaturatedSum(a, b), c) == SaturatedSum(a, SaturatedSum(b, c)) == Cap(a + b + c)
  {
  }

  lemma TotalsAssociate(a: Metadata, b: Metadata, c: Metadata)
    ensures MergeMaps(MergeMaps(a, b, SaturatedSum), c, SaturatedSum)
            == MergeMaps(a, MergeMaps(b, c, SaturatedSum), SaturatedSum)
  {
    hide SaturatedSum, Cap, MergeMaps;
    forall k | k in a && k in b && k in c
      ensures SaturatedSum(SaturatedSum(a[k], b[k]), c[k]) == SaturatedSum(a[k], SaturatedSum(b[k], c[k]))
    {
      SumsAssociate(a[k], b[k], c[k]);
    }
    MapsAssociate(a, b, c, SaturatedSum);
  }

  lemma MergeAssociates(a: Aggregate, b: Aggregate, c: Aggregate)
    ensures MergeValues(MergeValues(a, b), c) == MergeValues(a, MergeValues(b, c))
  {
    TotalsAssociate(a.totals, b.totals, c.totals);
    SumsAssociate(a.count, b.count, c.count);
    SumsAssociate(a.measurementFailures, b.measurementFailures, c.measurementFailures);
    SumsAssociate(a.bodyFailures, b.bodyFailures, c.bodyFailures);
    SumsAssociate(a.detailRetained, b.detailRetained, c.detailRetained);
    MapsAssociate(a.peaks, b.peaks, c.peaks, Higher);
    MapsAssociate(a.maxima, b.maxima, c.maxima, Max);
    hide MergeMaps, SaturatedSum, Higher;
  }

  function One(r: Record): Aggregate { MergeRecord(EMPTY, r) }

  lemma PeaksOfOne(a: map<PeakKey, Peak>, r: Record)
    ensures RecordPeaks(a, r) == MergeMaps(a, RecordPeaks(map[], r), Higher)
  {
  }

  lemma MaximaOfOne(a: Metadata, m: Metadata)
    ensures RecordMaxima(a, m) == MergeMaps(a, RecordMaxima(map[], m), Max)
  {
  }

  lemma TotalsOfOne(a: Metadata, m: Metadata)
    ensures RecordTotals(a, m) == MergeMaps(a, RecordTotals(map[], m), SaturatedSum)
  {
  }

  lemma RecordIsSingleton(a: Aggregate, r: Record)
    ensures MergeRecord(a, r) == MergeValues(a, One(r))
  {
    PeaksOfOne(a.peaks, r);
    MaximaOfOne(a.maxima, r.metadata);
    TotalsOfOne(a.totals, r.metadata);
    hide MergeMaps, RecordPeaks, RecordMaxima, RecordTotals, Higher;
  }

  predicate Capped(a: Aggregate) {
    && a.count <= MAX_SCALAR_COUNT && a.measurementFailures <= MAX_SCALAR_COUNT
    && a.bodyFailures <= MAX_SCALAR_COUNT && a.detailRetained <= MAX_SCALAR_COUNT
  }

  lemma {:induction false} AggIsCapped(rs: seq<Record>)
    ensures Capped(Agg(rs))
  {
    if rs != [] {
      AggIsCapped(rs[..|rs| - 1]);
    }
  }

  lemma {:induction false} EmptyIsNeutral(a: Aggregate)
    requires Capped(a)
    ensures MergeValues(a, EMPTY) == a
  {
    assert MergeMaps(a.peaks, map[], Higher) == a.peaks;
    assert MergeMaps(a.maxima, map[], Max) == a.maxima;
    assert MergeMaps(a.totals, map[], SaturatedSum) == a.totals;
  }

  /**
   Merging two batch aggregates, the older one as target, gives exactly what folding the concatenated
   records gives: every count, total and maximum, the peak contexts and the last metadata.
   */
  lemma {:induction false} MergeIsConcatenation(xs: seq<Record>, ys: seq<Record>)
    ensures MergeValues(Agg(xs), Agg(ys)) == Agg(xs + ys)
  {
    hide MergeValues, MergeRecord, Capped;
    if ys == [] {
      assert xs + ys == xs;
      AggIsCapped(xs);
      EmptyIsNeutral(Agg(xs));
    } else {
      var n := |ys| - 1;
      assert (xs + ys)[..|xs + ys| - 1] == xs + ys[..n];
      MergeIsConcatenation(xs, ys[..n]);
      RecordIsSingleton(Agg(ys[..n]), ys[n]);
      MergeAssociates(Agg(xs), Agg(ys[..n]), One(ys[n]));
      RecordIsSingleton(Agg(xs + ys[..n]), ys[n]);
    }
  }

  lemma BlurredPeaksMerge(a: map<PeakKey, Peak>, b: map<PeakKey, Peak>)
    ensures BlurPeaks(MergeMaps(a, b, Higher)) == MergeMaps(BlurPeaks(a), BlurPeaks(b), Higher)
  {
  }

  lemma BlurredPeaksCommute(a: map<PeakKey, Peak>, b: map<PeakKey, Peak>)
    ensures MergeMaps(BlurPeaks(a), BlurPeaks(b), Higher) == MergeMaps(BlurPeaks(b), BlurPeaks(a), Higher)
  {
  }

  lemma MetadataCommute(a: Metadata, b: Metadata)
    ensures MergeMaps(a, b, Max) == MergeMaps(b, a, Max)
    ensures MergeMaps(a, b, SaturatedSum) == MergeMaps(b, a, SaturatedSum)
  {
  }

  lemma BlurMerges(a: Aggregate, b: Aggregate)
    ensures Blur(MergeValues(a, b)) == MergeValues(Blur(a), Blur(b)) == MergeValues(Blur(b), Blur(a))
  {
    BlurredPeaksMerge(a.peaks, b.peaks);
    BlurredPeaksCommute(a.peaks, b.peaks);
    MetadataCommute(a.maxima, b.maxima);
    MetadataCommute(a.totals, b.totals);
    hide MergeMaps, BlurPeaks, Higher;
  }

  /** Merged in either order, the counts, totals and maxima are those of the concatenation. */
  lemma MergeInAnyOrder(a: Aggregate, b: Aggregate, xs: seq<Record>, ys: seq<Record>)
    requires Blur(a) == Blur(Agg(xs)) && Blur(b) == Blur(Agg(ys))
    ensures Blur(MergeValues(a, b)) == Blur(Agg(xs + ys)) == Blur(MergeValues(b, a))
  {
    hide Blur, MergeValues, Agg;
    BlurMerges(a, b);
    BlurMerges(b, a);
    BlurMerges(Agg(xs), Agg(ys));
    MergeIsConcatenation(xs, ys);
  }
}
