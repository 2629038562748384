/**
 The signal-observation document (src/observation_tracker.py): rows with their sampled horizons, the
 batch writer that stores samples once however often a batch is retried, the expiry of an overfull
 backlog and the retention cap that never drops what is not archived yet.
 */
module ObservationStore {
  import opened Wrappers

  const MAX_OBSERVATIONS: nat := 1_000
  const MAX_ACTIVE_OBSERVATIONS: nat := 200
  const SAMPLE_BATCH_SIZE: nat := 20

  type Id = nat

  datatype Horizon = M1 | M3 | M5 | M15 | M30 | M60

  datatype Status = Pending | Discovered | Complete | Expired

  datatype Error = HorizonMissed | QuoteError(code: nat)

  datatype Sample = Sample(horizon: Horizon, proceeds: Option<int>, error: Option<Error>, sampledAt: real)

  datatype Row = Row(
    id: Id, startedAt: real, amount: int, status: Status, paperOpened: bool, archived: bool, legacy: bool,
    executable: bool,
    samples: seq<Sample>, attempts: map<Horizon, nat>)

  /** A finalized quote: what one batch entry wants to store. */
  datatype SampleResult = SampleResult(id: Id, sample: Sample)

  predicate Terminal(r: Row) { r.status == Complete || r.status == Expired }

  predicate Sampled(r: Row, h: Horizon) {
    exists s :: s in r.samples && s.horizon == h
  }

  function RequiredHorizons(r: Row): set<Horizon> {
    if r.legacy then {M1, M5, M15} else {M1, M3, M5, M15, M30, M60}
  }

  // ----- One sample -----

  /** Index of the first row with this id, or the length. */
  function Find(rows: seq<Row>, id: Id): (i: nat)
    ensures i <= |rows| && (i < |rows| ==> rows[i].id == id)
    ensures forall k :: 0 <= k < i ==> rows[k].id != id
  {
    if rows == [] then 0 else if rows[0].id == id then 0 else 1 + Find(rows[1..], id)
  }

  predicate Accepts(r: Row, s: Sample) {
    !Terminal(r) && !Sampled(r, s.horizon)
  }

  function WithSample(r: Row, s: Sample): Row {
    var q := r.(samples := r.samples + [s]);
    if forall h :: h in RequiredHorizons(q) ==> Sampled(q, h) then q.(status := Complete) else q
  }

  predicate Applicable(rows: seq<Row>, x: SampleResult) {
    var i := Find(rows, x.id);
    i < |rows| && Accepts(rows[i], x.sample)
  }

  function ApplySample(rows: seq<Row>, x: SampleResult): seq<Row> {
    if Applicable(rows, x) then
      var i := Find(rows, x.id);
      rows[i := WithSample(rows[i], x.sample)]
    else rows
  }

  function ApplyAll(rows: seq<Row>, xs: seq<SampleResult>): seq<Row>
    decreases |xs|
  {
    if xs == [] then rows else ApplyAll(ApplySample(rows, xs[0]), xs[1..])
  }

  /** The entries that change something, in batch order; side effects are emitted for these only. */
  function Applied(rows: seq<Row>, xs: seq<SampleResult>): seq<SampleResult>
    decreases |xs|
  {
    if xs == [] then []
    else (if Applicable(rows, xs[0]) then [xs[0]] else []) + Applied(ApplySample(rows, xs[0]), xs[1..])
  }

  // ----- Backlog expiry -----

  predicate Expirable(r: Row) { !Terminal(r) && !r.paperOpened }

  function CountExpirable(rows: seq<Row>): nat {
    if rows == [] then 0 else (if Expirable(rows[0]) then 1 else 0) + CountExpirable(rows[1..])
  }

  function ExpireFirst(rows: seq<Row>, k: nat): seq<Row> {
    if rows == [] || k == 0 then rows
    else if Expirable(rows[0]) then [rows[0].(status := Expired)] + ExpireFirst(rows[1..], k - 1)
    else [rows[0]] + ExpireFirst(rows[1..], k)
  }

  function Expire(rows: seq<Row>): seq<Row> {
    var n := CountExpirable(rows);
    ExpireFirst(rows, if n > MAX_ACTIVE_OBSERVATIONS then n - MAX_ACTIVE_OBSERVATIONS else 0)
  }

  // ----- Retention -----

  predicate Active(r: Row) { !Terminal(r) || r.paperOpened }

  function CountActive(rows: seq<Row>): (n: nat)
    ensures n <= |rows|
  {
    if rows == [] then 0
    else CountActive(rows[..|rows| - 1]) + if Active(rows[|rows| - 1]) then 1 else 0
  }

  /** Which rows the cap keeps: every active one, and the newest `budget` completed ones. */
  function CapMask(rows: seq<Row>, budget: nat): (mask: seq<bool>)
    ensures |mask| == |rows|
  {
    if rows == [] then []
    else
      var n := |rows| - 1;
      if Active(rows[n]) then CapMask(rows[..n], budget) + [true]
      else CapMask(rows[..n], if budget > 0 then budget - 1 else 0) + [budget > 0]
  }

  function Select(rows: seq<Row>, mask: seq<bool>): seq<Row>
    requires |mask| == |rows|
  {
    if rows == [] then []
    else
      var n := |rows| - 1;
      Select(rows[..n], mask[..n]) + if mask[n] then [rows[n]] else []
  }

  function CompletedBudget(rows: seq<Row>): nat {
    if CountActive(rows) >= MAX_OBSERVATIONS then 0 else MAX_OBSERVATIONS - CountActive(rows)
  }

  predicate Unarchived(r: Row) { Terminal(r) && !r.archived }

  /** The cap, unless it would drop a finished row the archive does not have yet. */
  function ArchiveAndRetain(rows: seq<Row>): seq<Row> {
    var mask := CapMask(rows, CompletedBudget(rows));
    if forall i :: 0 <= i < |rows| && Unarchived(rows[i]) ==> mask[i] then Select(rows, mask)
    else Select(rows, seq(|rows|, i requires 0 <= i < |rows| => mask[i] || Unarchived(rows[i])))
  }

  function Batch(rows: seq<Row>, xs: seq<SampleResult>): seq<Row> {
    if Applied(rows, xs) == [] then rows else ArchiveAndRetain(Expire(ApplyAll(rows, xs)))
  }

  function Attempted(rows: seq<Row>, id: Id, h: Horizon): (seq<Row>, nat) {
    var i := Find(rows, id);
    if i == |rows| || Sampled(rows[i], h) then (rows, 0)
    else
      var n := (if h in rows[i].attempts then rows[i].attempts[h] else 0) + 1;
      (rows[i := rows[i].(attempts := rows[i].attempts[h := n])], n)
  }

  // ----- The document, updated in place -----

  datatype BatchError = BatchTooLarge

  class ObservationFile {
    var rows: seq<Row>

    constructor ()
      ensures rows == []
    {
      rows := [];
    }

    /** Other processes rewrite the document between two accesses of this one. */
    method Interfere(others: seq<Op>)
      modifies this
      ensures rows == Run(old(rows), others)
    {
      rows := Run(rows, others);
    }

    method ApplySampleToDocument(x: SampleResult) returns (changed: bool)
      modifies this
      ensures rows == ApplySample(old(rows), x) && changed == Applicable(old(rows), x)
    {
      var i := 0;
      while i < |rows| && rows[i].id != x.id
        invariant 0 <= i <= |rows|
        invariant forall k :: 0 <= k < i ==> rows[k].id != x.id
      {
        i := i + 1;
      }
      if i == |rows| || Terminal(rows[i]) || Sampled(rows[i], x.sample.horizon) {
        return false;
      }
      var row := rows[i];
      row := row.(samples := row.samples + [x.sample]);
      if forall h :: h in RequiredHorizons(row) ==> Sampled(row, h) {
        row := row.(status := Complete);
      }
      rows := rows[i := row];
      return true;
    }

    method RecordSampleBatch(xs: seq<SampleResult>) returns (applied: seq<SampleResult>, error: Option<BatchError>)
      modifies this
      ensures |xs| > SAMPLE_BATCH_SIZE ==> error == Some(BatchTooLarge) && rows == old(rows) && applied == []
      ensures |xs| <= SAMPLE_BATCH_SIZE ==>
                error == None && rows == Batch(old(rows), xs) && applied == Applied(old(rows), xs)
    {
      applied := [];
      if |xs| > SAMPLE_BATCH_SIZE {
        return [], Some(BatchTooLarge);
      }
      applied := ApplyEach(xs);
      if applied != [] {
        ExpireObservationBacklog();
        rows := ArchiveAndRetain(rows);
      } else {
        NothingAppliedNothingChanged(old(rows), xs);
      }
      return applied, None;
    }

    method ApplyEach(xs: seq<SampleResult>) returns (applied: seq<SampleResult>)
      modifies this
      ensures rows == ApplyAll(old(rows), xs) && applied == Applied(old(rows), xs)
    {
      hide ApplyAll, Applied, ApplySample, Applicable;
      applied := [];
      assert xs[0..] == xs;
      for n := 0 to |xs|
        invariant ApplyAll(old(rows), xs) == ApplyAll(rows, xs[n..])
        invariant Applied(old(rows), xs) == applied + Applied(rows, xs[n..])
      {
        BatchUnfolds(rows, xs, n);
        ghost var before := rows;
        var changed := ApplySampleToDocument(xs[n]);
        applied := applied + if changed then [xs[n]] else [];
      }
      BatchEnds(rows, xs[|xs|..]);
    }

    method ExpireObservationBacklog()
      modifies this
      ensures rows == Expire(old(rows))
    {
      var n := CountExpirable(rows);
      ExpireOldest(if n > MAX_ACTIVE_OBSERVATIONS then n - MAX_ACTIVE_OBSERVATIONS else 0);
    }

    method ExpireOldest(k: nat)
      modifies this
      ensures rows == ExpireFirst(old(rows), k)
    {
      hide ExpireFirst, Expirable;
      var overflow, i := k, 0;
      ghost var goal := ExpireFirst(rows, k);
      assert rows[..0] + ExpireFirst(rows[0..], k) == goal by { assert rows[0..] == rows; }
      while i < |rows| && overflow > 0
        invariant 0 <= i <= |rows|
        invariant goal == rows[..i] + ExpireFirst(rows[i..], overflow)
      {
        ExpiryUnfolds(rows, i, overflow);
        ghost var before := rows;
        if Expirable(rows[i]) {
          rows := rows[i := rows[i].(status := Expired)];
          overflow := overflow - 1;
        }
        PrefixGrows(before, rows, i, ExpireFirst(before[i + 1..], overflow));
        i := i + 1;
      }
      ExpiryEnds(rows[i..], overflow);
      assert rows == rows[..i] + rows[i..];
    }

    method RecordSampleAttempt(id: Id, h: Horizon) returns (count: nat)
      modifies this
      ensures rows == Attempted(old(rows), id, h).0 && count == Attempted(old(rows), id, h).1
    {
      var i := Find(rows, id);
      if i == |rows| || Sampled(rows[i], h) {
        return 0;
      }
      count := (if h in rows[i].attempts then rows[i].attempts[h] else 0) + 1;
      rows := rows[i := rows[i].(attempts := rows[i].attempts[h := count])];
    }
  }

  lemma BatchUnfolds(rows: seq<Row>, xs: seq<SampleResult>, n: nat)
    requires n < |xs|
    ensures ApplyAll(rows, xs[n..]) == ApplyAll(ApplySample(rows, xs[n]), xs[n + 1..])
    ensures Applied(rows, xs[n..]) ==
            (if Applicable(rows, xs[n]) then [xs[n]] else []) + Applied(ApplySample(rows, xs[n]), xs[n + 1..])
  {
    hide ApplySample, Applicable;
    assert xs[n..][0] == xs[n] && xs[n..][1..] == xs[n + 1..];
  }

  lemma BatchEnds(rows: seq<Row>, xs: seq<SampleResult>)
    requires xs == []
    ensures ApplyAll(rows, xs) == rows && Applied(rows, xs) == []
  {
  }

  lemma ExpiryUnfolds(rows: seq<Row>, i: nat, k: nat)
    requires i < |rows| && k > 0
    ensures ExpireFirst(rows[i..], k) ==
            if Expirable(rows[i]) then [rows[i].(status := Expired)] + ExpireFirst(rows[i + 1..], k - 1)
            else [rows[i]] + ExpireFirst(rows[i + 1..], k)
  {
    assert rows[i..][0] == rows[i] && rows[i..][1..] == rows[i + 1..];
  }

  lemma PrefixGrows(before: seq<Row>, after: seq<Row>, i: nat, rest: seq<Row>)
    requires i < |before| == |after| && after == before[i := after[i]]
    ensures after[i + 1..] == before[i + 1..]
    ensures before[..i] + ([after[i]] + rest) == after[..i + 1] + rest
  {
  }

  lemma ExpiryEnds(rows: seq<Row>, k: nat)
    requires rows == [] || k == 0
    ensures ExpireFirst(rows, k) == rows
  {
  }

  // ----- At most one sample per horizon -----

  ghost predicate UniqueIds(rows: seq<Row>) {
    forall i, j :: 0 <= i < j < |rows| ==> rows[i].id != rows[j].id
  }

  ghost predicate SamplesDistinct(r: Row) {
    forall i, j :: 0 <= i < j < |r.samples| ==> r.samples[i].horizon != r.samples[j].horizon
  }

  ghost predicate RowsOk(rows: seq<Row>) {
    UniqueIds(rows) && forall i :: 0 <= i < |rows| ==> SamplesDistinct(rows[i])
  }

  /** `after` is `before` with some rows dropped; survivors keep id and samples except for appended ones. */
  ghost predicate Descends(before: seq<Row>, after: seq<Row>) {
    forall j :: 0 <= j < |after| ==> HasAncestor(before, after[j])
  }

  ghost predicate HasAncestor(before: seq<Row>, q: Row) {
    exists i :: 0 <= i < |before| && Grew(before[i], q)
  }

  predicate Grew(r: Row, q: Row) {
    && q.id == r.id
    && r.samples <= q.samples
    && (Terminal(r) ==> q.samples == r.samples && Terminal(q))
  }

  /** This entry can change nothing any more. */
  ghost predicate Settled(rows: seq<Row>, x: SampleResult) {
    forall i :: 0 <= i < |rows| && rows[i].id == x.id ==> !Accepts(rows[i], x.sample)
  }

  lemma GrowthSettles(before: seq<Row>, after: seq<Row>, x: SampleResult)
    requires Settled(before, x) && Descends(before, after)
    ensures Settled(after, x)
  {
    forall j | 0 <= j < |after| && after[j].id == x.id
      ensures !Accepts(after[j], x.sample)
    {
      var i :| 0 <= i < |before| && Grew(before[i], after[j]);
      if Sampled(before[i], x.sample.horizon) {
        var s :| s in before[i].samples && s.horizon == x.sample.horizon;
        assert s in after[j].samples;
      }
    }
  }

  lemma SettledMeansNotApplicable(rows: seq<Row>, x: SampleResult)
    requires Settled(rows, x)
    ensures !Applicable(rows, x) && ApplySample(rows, x) == rows
  {
  }

  lemma GrewTransitively(r: Row, q: Row, p: Row)
    requires Grew(r, q) && Grew(q, p)
    ensures Grew(r, p)
  {
    assert r.samples == q.samples[..|r.samples|] == p.samples[..|r.samples|];
  }

  lemma DescendsTransitively(a: seq<Row>, b: seq<Row>, c: seq<Row>)
    requires Descends(a, b) && Descends(b, c)
    ensures Descends(a, c)
  {
    hide Grew;
    forall k | 0 <= k < |c|
      ensures HasAncestor(a, c[k])
    {
      assert HasAncestor(b, c[k]);
      var j :| 0 <= j < |b| && Grew(b[j], c[k]);
      assert HasAncestor(a, b[j]);
      var i :| 0 <= i < |a| && Grew(a[i], b[j]);
      GrewTransitively(a[i], b[j], c[k]);
    }
  }

  lemma PointwiseGrowthDescends(before: seq<Row>, after: seq<Row>)
    requires |after| == |before|
    requires forall j :: 0 <= j < |before| ==> Grew(before[j], after[j])
    ensures Descends(before, after)
  {
    hide Grew;
    forall j | 0 <= j < |after|
      ensures HasAncestor(before, after[j])
    {
      assert Grew(before[j], after[j]);
    }
  }

  lemma ReplacingKeepsRows(rows: seq<Row>, i: nat, r: Row)
    requires RowsOk(rows) && i < |rows| && Grew(rows[i], r) && SamplesDistinct(r)
    ensures RowsOk(rows[i := r]) && Descends(rows, rows[i := r])
  {
    assert RowsOk(rows[i := r]) by {
      hide SamplesDistinct, Terminal;
    }
    hide SamplesDistinct, Descends, UniqueIds;
    forall j | 0 <= j < |rows|
      ensures Grew(rows[j], rows[i := r][j])
    {
    }
    PointwiseGrowthDescends(rows, rows[i := r]);
  }

  lemma SampledRowIsSettled(rows: seq<Row>, i: nat, r: Row, x: SampleResult)
    requires UniqueIds(rows) && i < |rows| && rows[i].id == r.id == x.id && x.sample in r.samples
    ensures Settled(rows[i := r], x)
  {
  }

  lemma ApplyKeepsRows(rows: seq<Row>, x: SampleResult)
    requires RowsOk(rows)
    ensures RowsOk(ApplySample(rows, x)) && Descends(rows, ApplySample(rows, x)) && Settled(ApplySample(rows, x), x)
  {
    hide SamplesDistinct, Descends, UniqueIds, Sampled, RequiredHorizons;
    var i := Find(rows, x.id);
    if Applicable(rows, x) {
      NewSampleIsDistinct(rows[i], x.sample);
      ReplacingKeepsRows(rows, i, WithSample(rows[i], x.sample));
      SampledRowIsSettled(rows, i, WithSample(rows[i], x.sample), x);
    } else {
      PointwiseGrowthDescends(rows, rows);
      InapplicableIsSettled(rows, x);
    }
  }

  lemma InapplicableIsSettled(rows: seq<Row>, x: SampleResult)
    requires UniqueIds(rows) && !Applicable(rows, x)
    ensures Settled(rows, x)
  {
    var f := Find(rows, x.id);
    forall i | 0 <= i < |rows| && rows[i].id == x.id
      ensures i == f
    {
    }
  }

  lemma NewSampleIsDistinct(r: Row, s: Sample)
    requires SamplesDistinct(r) && Accepts(r, s)
    ensures SamplesDistinct(WithSample(r, s)) && Grew(r, WithSample(r, s)) && s in WithSample(r, s).samples
  {
    hide RequiredHorizons;
    forall i | 0 <= i < |r.samples|
      ensures r.samples[i].horizon != s.horizon
    {
      assert r.samples[i] in r.samples;
    }
  }

  lemma {:induction false} ApplyAllKeepsRows(rows: seq<Row>, xs: seq<SampleResult>)
    requires RowsOk(rows)
    ensures var after := ApplyAll(rows, xs);
            RowsOk(after) && Descends(rows, after) && (forall x :: x in xs ==> Settled(after, x))
    decreases |xs|
  {
    if xs == [] {
      assert Descends(rows, rows) by {
        forall j | 0 <= j < |rows|
          ensures Grew(rows[j], rows[j])
        {
        }
      }
    } else {
      hide RowsOk, Descends, Settled, ApplySample;
      var next := ApplySample(rows, xs[0]);
      ApplyKeepsRows(rows, xs[0]);
      ApplyAllKeepsRows(next, xs[1..]);
      DescendsTransitively(rows, next, ApplyAll(next, xs[1..]));
      GrowthSettles(next, ApplyAll(next, xs[1..]), xs[0]);
    }
  }

  lemma {:induction false} ExpireFirstKeeps(rows: seq<Row>, k: nat)
    ensures |ExpireFirst(rows, k)| == |rows|
    ensures forall i :: 0 <= i < |rows| ==>
              ExpireFirst(rows, k)[i] == rows[i]
              || (Expirable(rows[i]) && ExpireFirst(rows, k)[i] == rows[i].(status := Expired))
  {
    if rows != [] && k > 0 {
      ExpireFirstKeeps(rows[1..], if Expirable(rows[0]) then k - 1 else k);
    }
  }

  lemma ExpireKeepsRows(rows: seq<Row>, k: nat)
    requires RowsOk(rows)
    ensures RowsOk(ExpireFirst(rows, k)) && Descends(rows, ExpireFirst(rows, k))
  {
    ExpireFirstKeeps(rows, k);
    forall j | 0 <= j < |rows|
      ensures Grew(rows[j], ExpireFirst(rows, k)[j])
    {
    }
  }

  /** The selection is exactly the masked rows, still in order of age. */
  lemma {:induction false} SelectKeepsRows(rows: seq<Row>, mask: seq<bool>)
    requires |mask| == |rows| && RowsOk(rows)
    ensures RowsOk(Select(rows, mask))
    ensures forall r :: r in Select(rows, mask) <==> exists i :: 0 <= i < |rows| && mask[i] && rows[i] == r
  {
    if rows != [] {
      hide SamplesDistinct;
      var n := |rows| - 1;
      SelectKeepsRows(rows[..n], mask[..n]);
      var rest := Select(rows[..n], mask[..n]);
      forall k | 0 <= k < |rest|
        ensures rest[k].id != rows[n].id
      {
        assert rest[k] in rest;
      }
    }
  }

  lemma SelectionDescends(rows: seq<Row>, mask: seq<bool>)
    requires |mask| == |rows| && RowsOk(rows)
    ensures Descends(rows, Select(rows, mask))
  {
    SelectKeepsRows(rows, mask);
    var after := Select(rows, mask);
    forall j | 0 <= j < |after|
      ensures HasAncestor(rows, after[j])
    {
      assert after[j] in after;
      var i :| 0 <= i < |rows| && mask[i] && rows[i] == after[j];
      assert Grew(rows[i], after[j]);
    }
  }

  lemma BatchKeepsRows(rows: seq<Row>, xs: seq<SampleResult>)
    requires RowsOk(rows)
    ensures RowsOk(Batch(rows, xs)) && Descends(rows, Batch(rows, xs))
    ensures forall x :: x in xs ==> Settled(Batch(rows, xs), x)
  {
    hide RowsOk, Descends, Settled, ExpireFirst, CapMask, Select;
    ApplyAllKeepsRows(rows, xs);
    var a := ApplyAll(rows, xs);
    if Applied(rows, xs) == [] {
      NothingAppliedNothingChanged(rows, xs);
    } else {
      var n := CountExpirable(a);
      ExpireKeepsRows(a, if n > MAX_ACTIVE_OBSERVATIONS then n - MAX_ACTIVE_OBSERVATIONS else 0);
      var b := Expire(a);
      RetentionKeepsRows(b);
      DescendsTransitively(rows, a, b);
      DescendsTransitively(rows, b, ArchiveAndRetain(b));
      forall x | x in xs
        ensures Settled(ArchiveAndRetain(b), x)
      {
        GrowthSettles(a, b, x);
        GrowthSettles(b, ArchiveAndRetain(b), x);
      }
    }
  }

  lemma RetentionKeepsRows(rows: seq<Row>)
    requires RowsOk(rows)
    ensures RowsOk(ArchiveAndRetain(rows)) && Descends(rows, ArchiveAndRetain(rows))
  {
    hide RowsOk, Descends, Select, CapMask;
    var mask := CapMask(rows, CompletedBudget(rows));
    var wider := seq(|rows|, i requires 0 <= i < |rows| => mask[i] || Unarchived(rows[i]));
    SelectKeepsRows(rows, mask);
    SelectionDescends(rows, mask);
    SelectKeepsRows(rows, wider);
    SelectionDescends(rows, wider);
  }

  lemma {:induction false} NothingAppliedNothingChanged(rows: seq<Row>, xs: seq<SampleResult>)
    requires Applied(rows, xs) == []
    ensures ApplyAll(rows, xs) == rows
    decreases |xs|
  {
    if xs != [] {
      NothingAppliedNothingChanged(ApplySample(rows, xs[0]), xs[1..]);
    }
  }

  lemma {:induction false} SettledBatchAppliesNothing(rows: seq<Row>, xs: seq<SampleResult>)
    requires forall x :: x in xs ==> Settled(rows, x)
    ensures Applied(rows, xs) == [] && Batch(rows, xs) == rows
    decreases |xs|
  {
    if xs != [] {
      SettledMeansNotApplicable(rows, xs[0]);
      SettledBatchAppliesNothing(rows, xs[1..]);
    }
  }

  /**
   A retried batch is a no-op, in spite of expiry and retention in between: it stores nothing, so it
   emits no side effect either (the ones its first run still owed included).
   */
  lemma RetriedBatchChangesNothing(rows: seq<Row>, xs: seq<SampleResult>)
    requires RowsOk(rows)
    ensures Batch(Batch(rows, xs), xs) == Batch(rows, xs)
    ensures Applied(Batch(rows, xs), xs) == []
  {
    hide RowsOk, Settled, Batch;
    BatchKeepsRows(rows, xs);
    SettledBatchAppliesNothing(Batch(rows, xs), xs);
  }

  // ----- What expiry and the cap may cost -----

  /** Expiry marks the oldest expirable rows, as many as asked for, and touches nothing else. */
  lemma {:induction false} ExpiresOldestFirst(rows: seq<Row>, k: nat, i: nat)
    requires i < |rows|
    ensures |ExpireFirst(rows, k)| == |rows|
    ensures ExpireFirst(rows, k)[i] ==
            if Expirable(rows[i]) && CountExpirable(rows[..i]) < k then rows[i].(status := Expired) else rows[i]
  {
    hide Expirable;
    ExpireFirstKeeps(rows, k);
    if k > 0 && i > 0 {
      assert rows[..i][0] == rows[0] && rows[..i][1..] == rows[1..][..i - 1];
      ExpiresOldestFirst(rows[1..], if Expirable(rows[0]) then k - 1 else k, i - 1);
    }
  }

  lemma {:induction false} CountAfterExpiry(rows: seq<Row>, k: nat)
    ensures CountExpirable(ExpireFirst(rows, k)) == if CountExpirable(rows) > k then CountExpirable(rows) - k else 0
  {
    if rows != [] && k > 0 {
      var after := ExpireFirst(rows, k);
      assert after[1..] == ExpireFirst(rows[1..], if Expirable(rows[0]) then k - 1 else k);
      CountAfterExpiry(rows[1..], if Expirable(rows[0]) then k - 1 else k);
    }
  }

  lemma BacklogIsBounded(rows: seq<Row>)
    ensures CountExpirable(Expire(rows)) ==
            if CountExpirable(rows) > MAX_ACTIVE_OBSERVATIONS then MAX_ACTIVE_OBSERVATIONS else CountExpirable(rows)
  {
    hide CountExpirable, ExpireFirst;
    var n := CountExpirable(rows);
    CountAfterExpiry(rows, if n > MAX_ACTIVE_OBSERVATIONS then n - MAX_ACTIVE_OBSERVATIONS else 0);
  }

  /** The cap keeps a completed row exactly when fewer than `budget` younger rows are completed. */
  lemma {:induction false} CapKeepsNewest(rows: seq<Row>, budget: nat, i: nat)
    requires i < |rows|
    ensures CapMask(rows, budget)[i] <==>
            Active(rows[i]) || |rows| - i - 1 - CountActive(rows[i + 1..]) < budget
  {
    hide Active;
    var n := |rows| - 1;
    if i < n {
      assert rows[i + 1..][..n - i - 1] == rows[..n][i + 1..];
      CapKeepsNewest(rows[..n], if Active(rows[n]) || budget == 0 then budget else budget - 1, i);
    } else {
      assert rows[i + 1..] == [];
    }
  }

  lemma {:induction false} CapSize(rows: seq<Row>, budget: nat)
    ensures |Select(rows, CapMask(rows, budget))| ==
            CountActive(rows) +
            if |rows| - CountActive(rows) < budget then |rows| - CountActive(rows) else budget
  {
    if rows != [] {
      hide Active;
      var n := |rows| - 1;
      assert CapMask(rows, budget)[..n] ==
             CapMask(rows[..n], if Active(rows[n]) || budget == 0 then budget else budget - 1);
      CapSize(rows[..n], if Active(rows[n]) || budget == 0 then budget else budget - 1);
    }
  }

  /** Only finished, archived rows whose paper position is not open are ever dropped. */
  lemma DroppedRowsAreArchived(rows: seq<Row>, i: nat)
    requires RowsOk(rows) && i < |rows| && rows[i] !in ArchiveAndRetain(rows)
    ensures Terminal(rows[i]) && rows[i].archived && !rows[i].paperOpened
  {
    hide Select, CapMask, RowsOk;
    var mask := CapMask(rows, CompletedBudget(rows));
    var wider := seq(|rows|, i requires 0 <= i < |rows| => mask[i] || Unarchived(rows[i]));
    CapKeepsNewest(rows, CompletedBudget(rows), i);
    SelectKeepsRows(rows, mask);
    SelectKeepsRows(rows, wider);
    assert wider[i] == (mask[i] || Unarchived(rows[i]));
  }

  /** Once the archive has caught up, the document holds at most 1 000 rows plus active rows beyond that. */
  lemma CapHoldsOnceArchived(rows: seq<Row>)
    requires forall i :: 0 <= i < |rows| ==> !Unarchived(rows[i])
    ensures |ArchiveAndRetain(rows)| ==
            if |rows| <= MAX_OBSERVATIONS then |rows|
            else if CountActive(rows) > MAX_OBSERVATIONS then CountActive(rows) else MAX_OBSERVATIONS
  {
    hide Select, CapMask, CountActive, Unarchived;
    CapSize(rows, CompletedBudget(rows));
  }

  // ----- Every writer of the document -----

  datatype Op =
    | SampleBatch(xs: seq<SampleResult>)
    | Attempt(id: Id, h: Horizon)
    | Discover(found: Row)
    | Decide(decision: Row)
    | Finalize(id: Id, executable: bool)
    | Reconcile(now: real, grace: real, undecided: set<Id>)
    | Migrate
    | PaperStatus(id: Id, isOpen: bool)
    | ArchiveMarks(ids: set<Id>)

  function Added(rows: seq<Row>, r: Row): seq<Row> { ArchiveAndRetain(Expire(rows + [r])) }

  function Found(r: Row): Row {
    r.(samples := [], attempts := map[], status := Discovered, paperOpened := false, archived := false,
       legacy := false, executable := false)
  }

  function Decided(d: Row): Row {
    d.(samples := [], attempts := map[], status := Pending, paperOpened := false, legacy := false)
  }

  /** A new decision overwrites a row without an executable quote; only its age and archive mark stay. */
  function Redecided(rows: seq<Row>, d: Row): seq<Row> {
    var i := Find(rows, d.id);
    if i == |rows| then rows + [Decided(d).(archived := false)]
    else rows[i := Decided(d).(startedAt := rows[i].startedAt, archived := rows[i].archived)]
  }

  /** A candidate without a quote is closed at once, with whatever samples it has. */
  function Finalized(r: Row, executable: bool): Row {
    r.(status := Complete, executable := executable, paperOpened := false)
  }

  /** Discovered long ago and never analysed; `undecided` holds the rows whose other fields say so too. */
  predicate Interrupted(r: Row, now: real, grace: real, undecided: set<Id>) {
    && r.status == Discovered && !r.executable && !r.legacy && !r.paperOpened
    && r.samples == [] && r.attempts == map[] && r.id in undecided
    && now - r.startedAt >= if grace > 60.0 then grace else 60.0
  }

  function Settle(r: Row): Row {
    if r.status == Pending && forall h :: h in RequiredHorizons(r) ==> Sampled(r, h) then r.(status := Complete) else r
  }

  function Migrated(rows: seq<Row>): seq<Row> {
    seq(|rows|, i requires 0 <= i < |rows| => Settle(rows[i]))
  }

  function Reconciled(rows: seq<Row>, now: real, grace: real, undecided: set<Id>): seq<Row> {
    seq(|rows|, i requires 0 <= i < |rows| =>
      if Interrupted(rows[i], now, grace, undecided) then Finalized(rows[i], false) else rows[i])
  }

  function Apply(rows: seq<Row>, op: Op): seq<Row> {
    match op
    case SampleBatch(xs) => Batch(rows, xs)
    case Attempt(id, h) => Attempted(rows, id, h).0
    case Discover(r) => if Find(rows, r.id) < |rows| then rows else Added(rows, Found(r))
    case Decide(d) =>
      if Find(rows, d.id) < |rows| && rows[Find(rows, d.id)].executable then rows
      else ArchiveAndRetain(Expire(Redecided(rows, d)))
    case Finalize(id, executable) =>
      var i := Find(rows, id);
      if i == |rows| then rows else ArchiveAndRetain(rows[i := Finalized(rows[i], executable)])
    case Reconcile(now, grace, undecided) => Reconciled(Migrated(rows), now, grace, undecided)
    case Migrate => Migrated(rows)
    case PaperStatus(id, isOpen) =>
      var i := Find(rows, id);
      if i == |rows| then rows else ArchiveAndRetain(rows[i := rows[i].(paperOpened := isOpen)])
    case ArchiveMarks(ids) =>
      if ids == {} then rows else ArchiveAndRetain(Marked(rows, ids))
  }

  function Marked(rows: seq<Row>, ids: set<Id>): seq<Row> {
    seq(|rows|, i requires 0 <= i < |rows| => if rows[i].id in ids then rows[i].(archived := true) else rows[i])
  }

  function Run(rows: seq<Row>, ops: seq<Op>): seq<Row>
    decreases |ops|
  {
    if ops == [] then rows else Run(Apply(rows, ops[0]), ops[1..])
  }

  /** The step may restart observation `id`. */
  predicate Restarts(op: Op, id: Id) {
    (op.Decide? && op.decision.id == id) || (op.Discover? && op.found.id == id)
  }

  lemma AbsentIdsAreNew(rows: seq<Row>, r: Row)
    requires RowsOk(rows) && Find(rows, r.id) == |rows| && r.samples == []
    ensures RowsOk(rows + [r])
  {
  }

  lemma CleaningKeepsRows(rows: seq<Row>)
    requires RowsOk(rows)
    ensures RowsOk(ArchiveAndRetain(Expire(rows))) && Descends(rows, ArchiveAndRetain(Expire(rows)))
  {
    hide RowsOk, Descends, ArchiveAndRetain;
    var n := CountExpirable(rows);
    ExpireKeepsRows(rows, if n > MAX_ACTIVE_OBSERVATIONS then n - MAX_ACTIVE_OBSERVATIONS else 0);
    RetentionKeepsRows(Expire(rows));
    DescendsTransitively(rows, Expire(rows), ArchiveAndRetain(Expire(rows)));
  }

  /** A change of every row that leaves ids and samples alone and reopens nothing. */
  lemma PointwiseKeepsRows(rows: seq<Row>, after: seq<Row>)
    requires RowsOk(rows) && |after| == |rows|
    requires forall j :: 0 <= j < |rows| ==> after[j].id == rows[j].id && after[j].samples == rows[j].samples
    requires forall j :: 0 <= j < |rows| ==> (Terminal(rows[j]) ==> Terminal(after[j]))
    ensures RowsOk(after) && Descends(rows, after)
  {
    forall j | 0 <= j < |rows|
      ensures Grew(rows[j], after[j])
    {
    }
    PointwiseGrowthDescends(rows, after);
    assert RowsOk(after) by { hide Descends, Grew; }
  }

  lemma RedecidedKeepsRows(rows: seq<Row>, d: Row)
    requires RowsOk(rows)
    ensures RowsOk(Redecided(rows, d))
  {
    if Find(rows, d.id) == |rows| {
      AbsentIdsAreNew(rows, Decided(d).(archived := false));
    }
  }

  lemma ReplacedThenRetained(rows: seq<Row>, i: nat, r: Row)
    requires RowsOk(rows) && i < |rows| && Grew(rows[i], r) && SamplesDistinct(r)
    ensures var after := ArchiveAndRetain(rows[i := r]); RowsOk(after) && Descends(rows, after)
  {
    hide RowsOk, Descends, ArchiveAndRetain, Grew, SamplesDistinct;
    ReplacingKeepsRows(rows, i, r);
    RetentionKeepsRows(rows[i := r]);
    DescendsTransitively(rows, rows[i := r], ArchiveAndRetain(rows[i := r]));
  }

  lemma DistinctAt(rows: seq<Row>, i: nat)
    requires RowsOk(rows) && i < |rows|
    ensures SamplesDistinct(rows[i])
  {
  }

  lemma FinalizedGrew(r: Row, executable: bool)
    requires SamplesDistinct(r)
    ensures SamplesDistinct(Finalized(r, executable)) && Grew(r, Finalized(r, executable))
  {
  }

  lemma SamplesOnlyDecide(r: Row, q: Row)
    requires SamplesDistinct(r) && q.samples == r.samples && q.id == r.id && q.status == r.status
    ensures SamplesDistinct(q) && Grew(r, q)
  {
  }

  lemma StepKeepsRows(rows: seq<Row>, op: Op)
    requires RowsOk(rows)
    ensures RowsOk(Apply(rows, op))
    ensures !op.Discover? && !op.Decide? ==> Descends(rows, Apply(rows, op))
  {
    hide RowsOk, Descends, ArchiveAndRetain, Expire, Batch, Redecided, Grew, SamplesDistinct, Sampled;
    PointwiseSelf(rows);
    match op
    case SampleBatch(xs) => BatchKeepsRows(rows, xs);
    case Attempt(id, h) =>
      var i := Find(rows, id);
      if i < |rows| && !Sampled(rows[i], h) {
        DistinctAt(rows, i);
        var n := (if h in rows[i].attempts then rows[i].attempts[h] else 0) + 1;
        var q := rows[i].(attempts := rows[i].attempts[h := n]);
        SamplesOnlyDecide(rows[i], q);
        ReplacingKeepsRows(rows, i, q);
      }
    case Discover(r) =>
      if Find(rows, r.id) == |rows| {
        AbsentIdsAreNew(rows, Found(r));
        CleaningKeepsRows(rows + [Found(r)]);
      }
    case Decide(d) =>
      RedecidedKeepsRows(rows, d);
      CleaningKeepsRows(Redecided(rows, d));
    case Finalize(id, executable) =>
      var i := Find(rows, id);
      if i < |rows| {
        DistinctAt(rows, i);
        FinalizedGrew(rows[i], executable);
        ReplacedThenRetained(rows, i, Finalized(rows[i], executable));
      }
    case Reconcile(now, grace, undecided) =>
      PointwiseKeepsRows(rows, Migrated(rows));
      PointwiseKeepsRows(Migrated(rows), Apply(rows, op));
      DescendsTransitively(rows, Migrated(rows), Apply(rows, op));
    case Migrate =>
      PointwiseKeepsRows(rows, Migrated(rows));
    case PaperStatus(id, isOpen) =>
      var i := Find(rows, id);
      if i < |rows| {
        DistinctAt(rows, i);
        SamplesOnlyDecide(rows[i], rows[i].(paperOpened := isOpen));
        ReplacedThenRetained(rows, i, rows[i].(paperOpened := isOpen));
      }
    case ArchiveMarks(ids) =>
      PointwiseKeepsRows(rows, Marked(rows, ids));
      RetentionKeepsRows(Marked(rows, ids));
      DescendsTransitively(rows, Marked(rows, ids), ArchiveAndRetain(Marked(rows, ids)));
  }

  lemma PointwiseSelf(rows: seq<Row>)
    ensures Descends(rows, rows)
  {
    forall j | 0 <= j < |rows|
      ensures Grew(rows[j], rows[j])
    {
    }
    PointwiseGrowthDescends(rows, rows);
  }

  /**
   Whatever the writers do, in any order: ids stay unique and no observation ever holds two samples for
   one horizon.
   */
  lemma {:induction false} NoHorizonIsSampledTwice(rows: seq<Row>, ops: seq<Op>)
    requires RowsOk(rows)
    ensures RowsOk(Run(rows, ops))
    decreases |ops|
  {
    if ops != [] {
      hide RowsOk, Apply;
      StepKeepsRows(rows, ops[0]);
      NoHorizonIsSampledTwice(Apply(rows, ops[0]), ops[1..]);
    }
  }

  // ----- Every writer migrates first -----

  /** No row waits for the migration to complete it. */
  predicate UpToDate(rows: seq<Row>) {
    forall r :: r in rows ==> Settle(r) == r
  }

  /** Each write starts with the migration of the document. */
  function RunMigrating(rows: seq<Row>, ops: seq<Op>): seq<Row>
    decreases |ops|
  {
    if ops == [] then rows else RunMigrating(Apply(Migrated(rows), ops[0]), ops[1..])
  }

  lemma RetainedAreMembers(rows: seq<Row>)
    requires RowsOk(rows)
    ensures forall r :: r in ArchiveAndRetain(rows) ==> r in rows
  {
    hide RowsOk, Select, CapMask;
    var mask := CapMask(rows, CompletedBudget(rows));
    SelectKeepsRows(rows, mask);
    SelectKeepsRows(rows, seq(|rows|, i requires 0 <= i < |rows| => mask[i] || Unarchived(rows[i])));
  }

  lemma {:induction false} ExpiryKeepsUpToDate(rows: seq<Row>)
    requires UpToDate(rows)
    ensures UpToDate(Expire(rows))
  {
    var n := CountExpirable(rows);
    var k := if n > MAX_ACTIVE_OBSERVATIONS then n - MAX_ACTIVE_OBSERVATIONS else 0;
    ExpireFirstKeeps(rows, k);
    hide ExpireFirst, RequiredHorizons, Sampled, CountExpirable;
    forall r | r in ExpireFirst(rows, k)
      ensures Settle(r) == r
    {
      var i :| 0 <= i < |rows| && ExpireFirst(rows, k)[i] == r;
      assert rows[i] in rows;
    }
  }

  lemma {:induction false} SamplesKeepUpToDate(rows: seq<Row>, xs: seq<SampleResult>)
    requires UpToDate(rows)
    ensures UpToDate(ApplyAll(rows, xs))
    decreases |xs|
  {
    if xs != [] {
      hide Applicable, RequiredHorizons, Sampled;
      SamplesKeepUpToDate(ApplySample(rows, xs[0]), xs[1..]);
    }
  }

  lemma CleaningKeepsUpToDate(rows: seq<Row>)
    requires RowsOk(rows) && UpToDate(rows)
    ensures UpToDate(ArchiveAndRetain(rows)) && UpToDate(ArchiveAndRetain(Expire(rows)))
  {
    hide ArchiveAndRetain, Expire, RowsOk, Settle;
    RetainedAreMembers(rows);
    ExpiryKeepsUpToDate(rows);
    ExpireKeepsAll(rows);
    RetainedAreMembers(Expire(rows));
  }

  lemma NewRowIsUpToDate(r: Row)
    requires r.samples == []
    ensures Settle(r) == r
  {
    assert M1 in RequiredHorizons(r) && !Sampled(r, M1);
  }

  lemma {:induction false} SettleTwice(r: Row)
    ensures Settle(Settle(r)) == Settle(r)
  {
    hide RequiredHorizons, Sampled;
  }

  /** `q` asks for no more than `r`. */
  predicate Akin(r: Row, q: Row) {
    q.samples == r.samples && q.legacy == r.legacy && (q.status == r.status || q.status != Pending)
  }

  lemma AkinIsUpToDate(r: Row, q: Row)
    requires Akin(r, q) && Settle(r) == r
    ensures Settle(q) == q
  {
    if q.status == Pending {
      var h :| h in RequiredHorizons(r) && !Sampled(r, h);
      assert h in RequiredHorizons(q) && !Sampled(q, h);
    }
  }

  lemma AkinRowsAreUpToDate(rows: seq<Row>, after: seq<Row>)
    requires UpToDate(rows) && |after| == |rows| && forall i :: 0 <= i < |rows| ==> Akin(rows[i], after[i])
    ensures UpToDate(after)
  {
    hide Settle, Akin;
    forall r | r in after
      ensures Settle(r) == r
    {
      var i :| 0 <= i < |after| && after[i] == r;
      assert rows[i] in rows;
      AkinIsUpToDate(rows[i], r);
    }
  }

  lemma {:induction false} MarkingKeepsUpToDate(rows: seq<Row>, op: Op)
    requires RowsOk(rows) && UpToDate(rows)
    requires op.Attempt? || op.Finalize? || op.PaperStatus? || op.ArchiveMarks?
    ensures UpToDate(Apply(rows, op))
  {
    hide RowsOk, UpToDate, ArchiveAndRetain, SamplesDistinct, Grew, Descends, Sampled;
    match op
    case Attempt(id, h) => AkinRowsAreUpToDate(rows, Apply(rows, op));
    case Finalize(id, executable) =>
      var i := Find(rows, id);
      if i < |rows| {
        DistinctAt(rows, i);
        FinalizedGrew(rows[i], executable);
        ReplacingKeepsRows(rows, i, Finalized(rows[i], executable));
        AkinRowsAreUpToDate(rows, rows[i := Finalized(rows[i], executable)]);
        CleaningKeepsUpToDate(rows[i := Finalized(rows[i], executable)]);
      }
    case PaperStatus(id, isOpen) =>
      var i := Find(rows, id);
      if i < |rows| {
        DistinctAt(rows, i);
        SamplesOnlyDecide(rows[i], rows[i].(paperOpened := isOpen));
        ReplacingKeepsRows(rows, i, rows[i].(paperOpened := isOpen));
        AkinRowsAreUpToDate(rows, rows[i := rows[i].(paperOpened := isOpen)]);
        CleaningKeepsUpToDate(rows[i := rows[i].(paperOpened := isOpen)]);
      }
    case ArchiveMarks(ids) =>
      MarkedKeepsRows(rows, ids);
      AkinRowsAreUpToDate(rows, Marked(rows, ids));
      CleaningKeepsUpToDate(Marked(rows, ids));
  }

  lemma MarkedKeepsRows(rows: seq<Row>, ids: set<Id>)
    requires RowsOk(rows)
    ensures RowsOk(Marked(rows, ids))
  {
    PointwiseKeepsRows(rows, Marked(rows, ids));
  }

  lemma AddingKeepsUpToDate(rows: seq<Row>, r: Row, i: nat)
    requires UpToDate(rows) && r.samples == [] && i <= |rows|
    ensures UpToDate(if i == |rows| then rows + [r] else rows[i := r])
  {
    NewRowIsUpToDate(r);
    hide Settle;
  }

  lemma {:induction false} StartKeepsUpToDate(rows: seq<Row>, op: Op)
    requires RowsOk(rows) && UpToDate(rows) && (op.Discover? || op.Decide?)
    ensures UpToDate(Apply(rows, op))
  {
    hide RowsOk, UpToDate, ArchiveAndRetain, Expire;
    match op
    case Discover(r) =>
      if Find(rows, r.id) == |rows| {
        AddingKeepsUpToDate(rows, Found(r), |rows|);
        AbsentIdsAreNew(rows, Found(r));
        CleaningKeepsUpToDate(rows + [Found(r)]);
      }
    case Decide(d) =>
      RedecidedKeepsRows(rows, d);
      AddingKeepsUpToDate(rows, Redecided(rows, d)[Find(rows, d.id)], Find(rows, d.id));
      CleaningKeepsUpToDate(Redecided(rows, d));
  }

  lemma {:induction false} StepKeepsUpToDate(rows: seq<Row>, op: Op)
    requires RowsOk(rows) && UpToDate(rows)
    ensures UpToDate(Apply(rows, op))
  {
    hide RowsOk, UpToDate, ArchiveAndRetain, Expire, ApplyAll, Sampled, RequiredHorizons;
    match op
    case SampleBatch(xs) =>
      ApplyAllKeepsRows(rows, xs);
      SamplesKeepUpToDate(rows, xs);
      CleaningKeepsUpToDate(ApplyAll(rows, xs));
    case Reconcile(_, _, _) =>
      MigratedIsUpToDate(rows);
      AkinRowsAreUpToDate(Migrated(rows), Apply(rows, op));
    case Migrate => MigratedIsUpToDate(rows);
    case _ =>
      if op.Discover? || op.Decide? {
        StartKeepsUpToDate(rows, op);
      } else {
        MarkingKeepsUpToDate(rows, op);
      }
  }

  /** From a migrated document on, the migration that every writer runs first never changes anything. */
  lemma {:induction false} MigrationIsIdle(rows: seq<Row>, ops: seq<Op>)
    requires RowsOk(rows) && UpToDate(rows)
    ensures RunMigrating(rows, ops) == Run(rows, ops) && Migrated(Run(rows, ops)) == Run(rows, ops)
    decreases |ops|
  {
    assert Migrated(rows) == rows by {
      assert forall i :: 0 <= i < |rows| ==> rows[i] in rows;
    }
    if ops != [] {
      hide RowsOk, UpToDate, Apply, Migrated;
      StepKeepsRows(rows, ops[0]);
      StepKeepsUpToDate(rows, ops[0]);
      MigrationIsIdle(Apply(rows, ops[0]), ops[1..]);
    }
  }

  /** What start-up migration leaves behind is such a document. */
  lemma {:induction false} MigratedIsUpToDate(rows: seq<Row>)
    requires RowsOk(rows)
    ensures RowsOk(Migrated(rows)) && UpToDate(Migrated(rows))
  {
    PointwiseKeepsRows(rows, Migrated(rows));
    hide RowsOk, Settle, Descends;
    forall r | r in rows { SettleTwice(r); }
  }

  // ----- When a settled entry counts again -----

  /**
   The step restarts observation `id`: it is not in the document, or it has no executable quote, a new
   decision is made and fewer than 200 younger rows could be expired instead of it.
   */
  predicate RestartsAt(rows: seq<Row>, op: Op, id: Id) {
    var i := Find(rows, id);
    && Restarts(op, id)
    && (i == |rows|
        || (op.Decide? && !rows[i].executable && CountExpirable(rows[i + 1..]) < MAX_ACTIVE_OBSERVATIONS))
  }

  lemma AnotherRowKeepsSettled(rows: seq<Row>, r: Row, x: SampleResult)
    requires Settled(rows, x) && r.id != x.id
    ensures Settled(rows + [r], x)
    ensures forall i :: 0 <= i < |rows| && rows[i].id == r.id ==> Settled(rows[i := r], x)
  {
  }

  lemma {:induction false} CountConcat(a: seq<Row>, b: seq<Row>)
    ensures CountExpirable(a + b) == CountExpirable(a) + CountExpirable(b)
  {
    if a == [] {
      assert a + b == b;
    } else {
      assert (a + b)[1..] == a[1..] + b;
      CountConcat(a[1..], b);
    }
  }

  /** A fresh row survives expiry exactly when fewer than 200 expirable rows are younger. */
  lemma {:induction false} FreshRowSurvives(rows: seq<Row>, i: nat)
    requires i < |rows| && Expirable(rows[i])
    ensures |Expire(rows)| == |rows|
    ensures Expire(rows)[i] ==
            if CountExpirable(rows[i + 1..]) < MAX_ACTIVE_OBSERVATIONS then rows[i] else rows[i].(status := Expired)
  {
    hide ExpireFirst, Expirable;
    var n := CountExpirable(rows);
    ExpiresOldestFirst(rows, if n > MAX_ACTIVE_OBSERVATIONS then n - MAX_ACTIVE_OBSERVATIONS else 0, i);
    CountConcat(rows[..i], [rows[i]] + rows[i + 1..]);
    CountConcat([rows[i]], rows[i + 1..]);
    assert rows == rows[..i] + ([rows[i]] + rows[i + 1..]);
    assert [rows[i]][1..] == [];
  }

  /** Retention drops no active row. */
  lemma ActiveRowsStay(rows: seq<Row>, i: nat)
    requires RowsOk(rows) && i < |rows| && !Terminal(rows[i])
    ensures rows[i] in ArchiveAndRetain(rows)
  {
    hide ArchiveAndRetain, RowsOk;
    if rows[i] !in ArchiveAndRetain(rows) {
      DroppedRowsAreArchived(rows, i);
    }
  }

  /** A fresh row at `i` is sampled again after the clean-up exactly when it survives expiry. */
  lemma {:induction false} FreshRowCounts(rows: seq<Row>, i: nat, x: SampleResult)
    requires RowsOk(rows) && i < |rows| && rows[i].id == x.id && rows[i].samples == [] && Expirable(rows[i])
    ensures Settled(ArchiveAndRetain(Expire(rows)), x)
            <==> CountExpirable(rows[i + 1..]) >= MAX_ACTIVE_OBSERVATIONS
  {
    hide ArchiveAndRetain, Expire, RowsOk, Descends, CountExpirable;
    var kept := Expire(rows);
    FreshRowSurvives(rows, i);
    CleaningKeepsRows(rows);
    ExpireKeepsAll(rows);
    RetentionKeepsRows(kept);
    if CountExpirable(rows[i + 1..]) < MAX_ACTIVE_OBSERVATIONS {
      ActiveRowsStay(kept, i);
      var j :| 0 <= j < |ArchiveAndRetain(kept)| && ArchiveAndRetain(kept)[j] == rows[i];
      assert Accepts(ArchiveAndRetain(kept)[j], x.sample);
    } else {
      OnlyOneIsTerminal(kept, i, x);
      GrowthSettles(kept, ArchiveAndRetain(kept), x);
    }
  }

  lemma ExpireKeepsAll(rows: seq<Row>)
    requires RowsOk(rows)
    ensures RowsOk(Expire(rows))
  {
    hide RowsOk, ExpireFirst;
    var n := CountExpirable(rows);
    ExpireKeepsRows(rows, if n > MAX_ACTIVE_OBSERVATIONS then n - MAX_ACTIVE_OBSERVATIONS else 0);
  }

  lemma OnlyOneIsTerminal(rows: seq<Row>, i: nat, x: SampleResult)
    requires RowsOk(rows) && i < |rows| && rows[i].id == x.id && Terminal(rows[i])
    ensures Settled(rows, x)
  {
  }

  /** A step makes an entry count again that could change nothing any more exactly when it restarts its observation. */
  lemma {:induction false} SettledUntilRestarted(rows: seq<Row>, op: Op, x: SampleResult)
    requires RowsOk(rows) && Settled(rows, x)
    ensures Settled(Apply(rows, op), x) <==> !RestartsAt(rows, op, x.id)
  {
    hide RowsOk, Descends, ArchiveAndRetain, Expire, Batch, Grew, SamplesDistinct, Sampled, Settled, CountExpirable;
    match op
    case Discover(r) => DiscoverySettles(rows, r, x);
    case Decide(d) => DecisionSettles(rows, d, x);
    case _ =>
      StepKeepsRows(rows, op);
      GrowthSettles(rows, Apply(rows, op), x);
  }

  lemma {:induction false} DiscoverySettles(rows: seq<Row>, r: Row, x: SampleResult)
    requires RowsOk(rows) && Settled(rows, x)
    ensures Settled(Apply(rows, Discover(r)), x) <==> !RestartsAt(rows, Discover(r), x.id)
  {
    hide RowsOk, Descends, ArchiveAndRetain, Expire, Grew, Settled, CountExpirable;
    if Find(rows, r.id) == |rows| {
      var after := rows + [Found(r)];
      AbsentIdsAreNew(rows, Found(r));
      if r.id == x.id {
        NoneAfterLast(rows, Found(r));
        FreshRowCounts(after, |rows|, x);
      } else {
        AnotherRowKeepsSettled(rows, Found(r), x);
        CleaningKeepsRows(after);
        GrowthSettles(after, ArchiveAndRetain(Expire(after)), x);
      }
    }
  }

  lemma NoneAfterLast(rows: seq<Row>, r: Row)
    ensures (rows + [r])[|rows|] == r && CountExpirable((rows + [r])[|rows| + 1..]) == 0
  {
  }

  lemma {:induction false} DecisionSettles(rows: seq<Row>, d: Row, x: SampleResult)
    requires RowsOk(rows) && Settled(rows, x)
    ensures Settled(Apply(rows, Decide(d)), x) <==> !RestartsAt(rows, Decide(d), x.id)
  {
    hide RowsOk, Descends, ArchiveAndRetain, Expire, Grew, Settled, CountExpirable;
    var i := Find(rows, d.id);
    if i == |rows| || !rows[i].executable {
      var after := Redecided(rows, d);
      RedecidedKeepsRows(rows, d);
      if d.id == x.id {
        NoneAfterLast(rows, after[i]);
        assert i < |rows| ==> after[i + 1..] == rows[i + 1..];
        FreshRowCounts(after, i, x);
      } else {
        AnotherRowKeepsSettled(rows, after[i], x);
        CleaningKeepsRows(after);
        GrowthSettles(after, ArchiveAndRetain(Expire(after)), x);
      }
    }
  }

  ghost predicate NeverRestarted(rows: seq<Row>, ops: seq<Op>, id: Id)
    decreases |ops|
  {
    ops == [] || (!RestartsAt(rows, ops[0], id) && NeverRestarted(Apply(rows, ops[0]), ops[1..], id))
  }

  lemma {:induction false} RunKeepsSettled(rows: seq<Row>, ops: seq<Op>, x: SampleResult)
    requires RowsOk(rows) && Settled(rows, x) && NeverRestarted(rows, ops, x.id)
    ensures Settled(Run(rows, ops), x)
    decreases |ops|
  {
    if ops != [] {
      hide RowsOk, Apply, Settled, RestartsAt;
      StepKeepsRows(rows, ops[0]);
      SettledUntilRestarted(rows, ops[0], x);
      RunKeepsSettled(Apply(rows, ops[0]), ops[1..], x);
    }
  }

  lemma {:induction false} RunConcat(rows: seq<Row>, ops: seq<Op>, more: seq<Op>)
    ensures Run(rows, ops + more) == Run(Run(rows, ops), more)
    decreases |ops|
  {
    hide Apply;
    if ops == [] {
      assert ops + more == more;
    } else {
      assert (ops + more)[1..] == ops[1..] + more;
      RunConcat(Apply(rows, ops[0]), ops[1..], more);
    }
  }

  lemma RunOneMore(rows: seq<Row>, ops: seq<Op>, j: nat)
    requires j < |ops|
    ensures Run(rows, ops[..j + 1]) == Apply(Run(rows, ops[..j]), ops[j])
  {
    hide Apply;
    assert ops[..j + 1] == ops[..j] + [ops[j]];
    RunConcat(rows, ops[..j], [ops[j]]);
    assert [ops[j]][1..] == [];
  }

  /** A write after the first `n` restarts observation `id` in the document it finds. */
  ghost predicate RestartedSince(rows: seq<Row>, ops: seq<Op>, n: nat, id: Id) {
    exists j :: n <= j < |ops| && RestartsAt(Run(rows, ops[..j]), ops[j], id)
  }

  /** What was settled after `n` writes still is after all of them, or one of the later ones restarted it. */
  lemma {:induction false} SettledOrRestarted(rows: seq<Row>, ops: seq<Op>, n: nat, k: nat, x: SampleResult)
    requires RowsOk(rows) && n <= k <= |ops| && Settled(Run(rows, ops[..n]), x)
    ensures Settled(Run(rows, ops[..k]), x) || RestartedSince(rows, ops, n, x.id)
    decreases k
  {
    hide RowsOk, Settled, Apply, Run, RestartsAt;
    if k > n {
      SettledOrRestarted(rows, ops, n, k - 1, x);
      NoHorizonIsSampledTwice(rows, ops[..k - 1]);
      RunOneMore(rows, ops, k - 1);
      if Settled(Run(rows, ops[..k - 1]), x) {
        SettledUntilRestarted(Run(rows, ops[..k - 1]), ops[k - 1], x);
      }
    }
  }

  /**
   A batch that was committed but reported as timed out can be retried at any later time: as long as no
   step restarted one of its observations in between, the retry stores nothing.
   */
  lemma LateRetryChangesNothing(rows: seq<Row>, xs: seq<SampleResult>, ops: seq<Op>)
    requires RowsOk(rows)
    requires forall x :: x in xs ==> NeverRestarted(Batch(rows, xs), ops, x.id)
    ensures var now := Run(Batch(rows, xs), ops); Applied(now, xs) == [] && Batch(now, xs) == now
  {
    hide RowsOk, Settled, Batch, NeverRestarted, Run;
    BatchKeepsRows(rows, xs);
    var now := Run(Batch(rows, xs), ops);
    forall x | x in xs
      ensures Settled(now, x)
    {
      RunKeepsSettled(Batch(rows, xs), ops, x);
    }
    SettledBatchAppliesNothing(now, xs);
  }

  lemma {:induction false} OneRowStays(r: Row)
    ensures ArchiveAndRetain([r]) == [r] && Expire([r]) == [r]
            && forall id :: Find([r], id) == if r.id == id then 0 else 1
  {
    assert [r][..0] == [] && [r][1..] == [];
    assert CountExpirable([r][1..]) == 0 && CountExpirable([r]) <= 1;
    ExpiryEnds([r], 0);
    var mask := CapMask([r], CompletedBudget([r]));
    assert mask == [true];
    assert Select([r], [true]) == Select([r][..0], [true][..0]) + [r];
  }

  lemma OneEntry(rows: seq<Row>, x: SampleResult)
    ensures Applied(rows, [x]) == if Applicable(rows, x) then [x] else []
    ensures ApplyAll(rows, [x]) == ApplySample(rows, x)
  {
    assert [x][1..] == [];
  }

  lemma {:induction false} DecisionOnOneRow(rows: seq<Row>, d: Row, x: SampleResult)
    requires d.id == x.id && (rows == [] || (|rows| == 1 && rows[0].id == d.id && !rows[0].executable))
    ensures var after := Apply(rows, Decide(d));
            && |after| == 1 && after[0].id == d.id && after[0].executable == d.executable
            && Applied(after, [x]) == [x]
  {
    hide ArchiveAndRetain, Expire;
    var after := Redecided(rows, d);
    OneRowStays(after[0]);
    assert after == [after[0]];
    OneEntry(after, x);
    EmptyRowAccepts(after, 0, x);
  }

  lemma EmptyRowAccepts(rows: seq<Row>, i: nat, x: SampleResult)
    requires i < |rows| && rows[i].id == x.id && (forall k :: 0 <= k < i ==> rows[k].id != x.id)
    requires rows[i].samples == [] && rows[i].status == Pending
    ensures Applicable(rows, x)
  {
  }

  lemma {:induction false} SampleOnOneRow(r: Row, x: SampleResult)
    ensures var after := Apply([r], SampleBatch([x]));
            |after| == 1 && after[0].id == r.id && after[0].executable == r.executable
  {
    hide ArchiveAndRetain, Expire;
    OneEntry([r], x);
    OneRowStays(r);
    OneRowStays(WithSample(r, x.sample));
    assert [r][0 := WithSample(r, x.sample)] == [WithSample(r, x.sample)];
  }

  /** A run in which it does: two decisions without an executable quote around a sample, which then counts twice. */
  lemma {:induction false} RetriedSampleCountsTwice(d: Row, x: SampleResult)
    requires d.id == x.id && !d.executable
    ensures var decided := Run([], [Decide(d)]);
            var again := Run([], [Decide(d), SampleBatch([x]), Decide(d)]);
            Applied(decided, [x]) == [x] && Applied(again, [x]) == [x]
  {
    hide Apply, Applied;
    var one := Apply([], Decide(d));
    var two := Apply(one, SampleBatch([x]));
    assert Run([], [Decide(d)]) == one by {
      assert [Decide(d)][1..] == [];
    }
    assert Run([], [Decide(d), SampleBatch([x]), Decide(d)]) == Apply(two, Decide(d)) by {
      var ops := [Decide(d), SampleBatch([x]), Decide(d)];
      assert ops[1..] == [SampleBatch([x]), Decide(d)] && ops[1..][1..] == [Decide(d)] && [Decide(d)][1..] == [];
      assert Run([], ops) == Run(one, ops[1..]) == Run(two, [Decide(d)]) == Apply(two, Decide(d));
    }
    DecisionOnOneRow([], d, x);
    assert one == [one[0]];
    SampleOnOneRow(one[0], x);
    DecisionOnOneRow(two, d, x);
  }
}
