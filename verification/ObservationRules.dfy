/**
 The rules of the observation document (src/observation_tracker.py) in plain words: when a row is complete,
 when it expires, when retention drops it, who marks it as archived and who opens or closes its position.
 */
module ObservationRules {
  import opened Wrappers
  import opened ObservationStore
  import opened ArchiveDrain

  // ----- One row -----

  /** An accepted sample goes to the end, and completes the row exactly when no horizon is missing any more. */
  lemma SampleCompletesExactlyWhen(r: Row, s: Sample)
    ensures var q := WithSample(r, s);
            var has := (h: Horizon) => s.horizon == h || exists k :: 0 <= k < |r.samples| && r.samples[k].horizon == h;
            && q.samples == r.samples + [s]
            && q.status == (if has(M1) && has(M5) && has(M15) && (r.legacy || (has(M3) && has(M30) && has(M60)))
                            then Complete else r.status)
            && q == r.(samples := q.samples, status := q.status)
  {
    var q := r.(samples := r.samples + [s]);
    forall h
      ensures Sampled(q, h) <==> s.horizon == h || exists k :: 0 <= k < |r.samples| && r.samples[k].horizon == h
    {
      SampledMeans(r, s, h);
    }
    hide Sampled;
    assert RequiredHorizons(q) == if r.legacy then {M1, M5, M15} else {M1, M3, M5, M15, M30, M60};
  }

  lemma SampledMeans(r: Row, s: Sample, h: Horizon)
    ensures Sampled(r.(samples := r.samples + [s]), h) <==>
            s.horizon == h || exists k :: 0 <= k < |r.samples| && r.samples[k].horizon == h
  {
    var all := r.samples + [s];
    assert all[|r.samples|] == s;
    forall k | 0 <= k < |r.samples|
      ensures all[k] == r.samples[k] && r.samples[k] in all
    {
    }
    if x :| x in all && x.horizon == h {
      var k :| 0 <= k < |all| && all[k] == x;
    }
  }

  /** A sample is stored exactly in an unfinished row that has none for its horizon yet. */
  lemma StoredExactlyWhen(rows: seq<Row>, x: SampleResult, i: nat)
    requires UniqueIds(rows) && i < |rows|
    ensures ApplySample(rows, x)[i] ==
            if rows[i].id == x.id && rows[i].status in {Pending, Discovered}
               && (forall k :: 0 <= k < |rows[i].samples| ==> rows[i].samples[k].horizon != x.sample.horizon)
            then WithSample(rows[i], x.sample) else rows[i]
    ensures |ApplySample(rows, x)| == |rows|
  {
    hide WithSample;
    var f := Find(rows, x.id);
    assert rows[i].id == x.id ==> f == i;
    assert Sampled(rows[i], x.sample.horizon) <==>
           exists k :: 0 <= k < |rows[i].samples| && rows[i].samples[k].horizon == x.sample.horizon by {
      if s :| s in rows[i].samples && s.horizon == x.sample.horizon {
        var k :| 0 <= k < |rows[i].samples| && rows[i].samples[k] == s;
      }
    }
  }

  /** A failed quote raises the count of its unsampled horizon by one, and touches nothing else. */
  lemma AttemptIsCounted(rows: seq<Row>, id: Id, h: Horizon, i: nat)
    requires UniqueIds(rows) && i < |rows|
    ensures var (after, count) := Attempted(rows, id, h);
            var r := rows[i];
            var open := r.id == id && forall k :: 0 <= k < |r.samples| ==> r.samples[k].horizon != h;
            && |after| == |rows|
            && (!open ==> after[i] == r)
            && (open ==>
                  && count == 1 + (if h in r.attempts then r.attempts[h] else 0)
                  && after[i] == r.(attempts := r.attempts[h := count]))
            && (r.id == id && !open ==> count == 0)
  {
    var f := Find(rows, id);
    assert rows[i].id == id ==> f == i;
    assert Sampled(rows[i], h) <==> exists k :: 0 <= k < |rows[i].samples| && rows[i].samples[k].horizon == h by {
      if s :| s in rows[i].samples && s.horizon == h {
        var k :| 0 <= k < |rows[i].samples| && rows[i].samples[k] == s;
      }
    }
  }

  // ----- Closing without a quote -----

  /**
   Start-up reconciliation completes, as not executable, exactly the rows discovered at least the grace period
   and a minute ago that were never analysed, besides the pending rows whose horizons are all sampled.
   */
  lemma ReconciledExactlyWhen(rows: seq<Row>, now: real, grace: real, undecided: set<Id>, i: nat)
    requires i < |rows|
    ensures var after := Apply(rows, Reconcile(now, grace, undecided));
            var r := rows[i];
            var interrupted := && r.status == Discovered && !r.executable && !r.legacy && !r.paperOpened
                               && r.samples == [] && r.attempts == map[] && r.id in undecided
                               && now - r.startedAt >= 60.0 && now - r.startedAt >= grace;
            var sampled := r.status == Pending && forall h :: h in RequiredHorizons(r) ==> Sampled(r, h);
            && |after| == |rows|
            && after[i] == if interrupted || sampled then r.(status := Complete) else r
  {
    hide Sampled, RequiredHorizons;
  }

  /** A candidate closed without a quote is complete, not open, and executable as told; retention follows. */
  lemma FinalizedExactly(rows: seq<Row>, id: Id, executable: bool, i: nat)
    requires UniqueIds(rows) && i < |rows|
    ensures var handed := Swept(rows, Finalize(id, executable));
            && |handed| == |rows|
            && handed[i] == if rows[i].id == id
                            then rows[i].(status := Complete, executable := executable, paperOpened := false)
                            else rows[i]
  {
    assert rows[i].id == id ==> Find(rows, id) == i;
  }

  // ----- Expiry and retention -----

  predicate Waiting(r: Row) { (r.status == Pending || r.status == Discovered) && !r.paperOpened }

  predicate Done(r: Row) { (r.status == Complete || r.status == Expired) && !r.paperOpened }

  function From(rows: seq<Row>, i: nat, p: Row -> bool): set<nat> {
    set j: nat | i <= j < |rows| && p(rows[j])
  }

  lemma FromStep(rows: seq<Row>, i: nat, p: Row -> bool)
    requires i < |rows|
    ensures |From(rows, i, p)| == |From(rows, i + 1, p)| + if p(rows[i]) then 1 else 0
  {
    assert From(rows, i, p) == From(rows, i + 1, p) + if p(rows[i]) then {i} else {};
  }

  lemma {:induction false} CountFrom(rows: seq<Row>, i: nat)
    requires i <= |rows|
    ensures CountExpirable(rows) == CountExpirable(rows[..i]) + |From(rows, i, Waiting)|
    decreases |rows| - i
  {
    hide CountExpirable;
    if i == |rows| {
      assert rows[..i] == rows;
      assert From(rows, i, Waiting) == {};
    } else {
      CountFrom(rows, i + 1);
      CountOneMore(rows[..i], rows[i]);
      assert rows[..i + 1] == rows[..i] + [rows[i]];
      FromStep(rows, i, Waiting);
      hide From;
    }
  }

  lemma {:induction false} CountOneMore(rows: seq<Row>, r: Row)
    ensures CountExpirable(rows + [r]) == CountExpirable(rows) + if Waiting(r) then 1 else 0
  {
    if rows == [] {
      assert [r][1..] == [];
    } else {
      assert (rows + [r])[1..] == rows[1..] + [r];
      CountOneMore(rows[1..], r);
    }
  }

  /** A waiting row expires exactly when it is not among the youngest 200 waiting ones; nothing else changes. */
  lemma ExpiredExactlyWhen(rows: seq<Row>, i: nat)
    requires i < |rows|
    ensures |Expire(rows)| == |rows|
    ensures Expire(rows)[i] ==
            if Waiting(rows[i]) && |From(rows, i, Waiting)| > 200 then rows[i].(status := Expired) else rows[i]
  {
    var n := CountExpirable(rows);
    CountFrom(rows, i);
    ExpiresOldestFirst(rows, if n > MAX_ACTIVE_OBSERVATIONS then n - MAX_ACTIVE_OBSERVATIONS else 0, i);
    assert Expirable(rows[i]) <==> Waiting(rows[i]);
    hide CountExpirable, ExpireFirst;
  }

  lemma {:induction false} DoneFrom(rows: seq<Row>, i: nat)
    requires i <= |rows|
    ensures |From(rows, i, Done)| == |rows| - i - CountActive(rows[i..])
    decreases |rows| - i
  {
    if i == |rows| {
      assert From(rows, i, Done) == {} && rows[i..] == [];
    } else {
      DoneFrom(rows, i + 1);
      assert rows[i..] == [rows[i]] + rows[i + 1..];
      ActiveInFront(rows[i], rows[i + 1..]);
      FromStep(rows, i, Done);
      hide CountActive, From;
    }
  }

  lemma {:induction false} ActiveInFront(r: Row, rows: seq<Row>)
    ensures CountActive([r] + rows) == CountActive(rows) + if Done(r) then 0 else 1
  {
    if rows == [] {
      assert [r] + rows == [r] && [r][..0] == [];
    } else {
      assert ([r] + rows)[..|rows|] == [r] + rows[..|rows| - 1];
      ActiveInFront(r, rows[..|rows| - 1]);
    }
  }

  lemma KeptExactlyWhen(rows: seq<Row>, i: nat)
    requires RowsOk(rows) && i < |rows|
    ensures rows[i] in ArchiveAndRetain(rows) <==>
            CapMask(rows, CompletedBudget(rows))[i] || Unarchived(rows[i])
  {
    hide Select, CapMask, CompletedBudget, RowsOk;
    var mask := CapMask(rows, CompletedBudget(rows));
    var wider := seq(|rows|, i requires 0 <= i < |rows| => mask[i] || Unarchived(rows[i]));
    InSelection(rows, mask, i);
    InSelection(rows, wider, i);
  }

  /**
   Retention drops a row exactly when it is done with, the archive has it, and the younger rows that are done
   with already fill what the rows still in use leave of 1,000.
   */
  lemma DroppedExactlyWhen(rows: seq<Row>, i: nat)
    requires RowsOk(rows) && i < |rows|
    ensures var used := |rows| - |From(rows, 0, Done)|;
            rows[i] !in ArchiveAndRetain(rows) <==>
            Done(rows[i]) && rows[i].archived && |From(rows, i + 1, Done)| >= if used < 1_000 then 1_000 - used else 0
  {
    hide RowsOk, ArchiveAndRetain, CapMask, CountActive, From;
    DoneFrom(rows, 0);
    DoneFrom(rows, i + 1);
    assert rows[0..] == rows;
    CapKeepsNewest(rows, CompletedBudget(rows), i);
    KeptExactlyWhen(rows, i);
    assert Active(rows[i]) <==> !Done(rows[i]);
  }

  lemma InSelection(rows: seq<Row>, mask: seq<bool>, i: nat)
    requires RowsOk(rows) && |mask| == |rows| && i < |rows|
    ensures rows[i] in Select(rows, mask) <==> mask[i]
  {
    SelectKeepsRows(rows, mask);
    hide Select;
    if rows[i] in Select(rows, mask) {
      var j :| 0 <= j < |rows| && mask[j] && rows[j] == rows[i];
      assert j == i;
    }
  }

  // ----- Who marks a row as archived, and who opens or closes its position -----

  /** Same rows, with the same marks: only other fields may differ. */
  predicate Alike(before: seq<Row>, after: seq<Row>) {
    && |after| == |before|
    && forall i :: 0 <= i < |before| ==>
         && after[i].id == before[i].id && after[i].archived == before[i].archived
         && after[i].paperOpened == before[i].paperOpened
  }

  lemma {:induction false} ApplyAllAlike(rows: seq<Row>, xs: seq<SampleResult>)
    ensures Alike(rows, ApplyAll(rows, xs))
    decreases |xs|
  {
    if xs != [] {
      assert Alike(rows, ApplySample(rows, xs[0]));
      hide ApplySample;
      ApplyAllAlike(ApplySample(rows, xs[0]), xs[1..]);
    }
  }

  lemma ExpireAlike(rows: seq<Row>)
    ensures Alike(rows, Expire(rows))
  {
    hide ExpireFirst, CountExpirable;
    var n := CountExpirable(rows);
    ExpireFirstKeeps(rows, if n > MAX_ACTIVE_OBSERVATIONS then n - MAX_ACTIVE_OBSERVATIONS else 0);
  }

  lemma RetainedIsPart(rows: seq<Row>, q: Row)
    requires RowsOk(rows) && q in ArchiveAndRetain(rows)
    ensures q in rows
  {
    var mask := CapMask(rows, CompletedBudget(rows));
    var wider := seq(|rows|, i requires 0 <= i < |rows| => mask[i] || Unarchived(rows[i]));
    SelectKeepsRows(rows, mask);
    SelectKeepsRows(rows, wider);
  }

  /** What the write makes of the marks of a row that was there before. */
  predicate MarksFrom(r: Row, op: Op, q: Row) {
    && q.id == r.id
    && q.archived == (r.archived || (op.ArchiveMarks? && r.id in op.ids))
    && q.paperOpened == (if op.PaperStatus? && op.id == r.id then op.isOpen
                         else r.paperOpened && !(op.Finalize? && op.id == r.id)
                              && !(op.Decide? && op.decision.id == r.id && !r.executable))
  }

  ghost predicate MarksMoved(rows: seq<Row>, op: Op, q: Row) {
    || (exists i :: 0 <= i < |rows| && MarksFrom(rows[i], op, q))
    || ((op.Discover? || op.Decide?) && !q.archived && !q.paperOpened
        && forall i :: 0 <= i < |rows| ==> rows[i].id != q.id)
  }

  lemma BatchMoves(rows: seq<Row>, op: Op, after: seq<Row>, q: Row)
    requires op.SampleBatch? && q in after && Alike(rows, after)
    ensures MarksMoved(rows, op, q)
  {
    var j :| 0 <= j < |after| && after[j] == q;
    assert MarksFrom(rows[j], op, q);
  }

  lemma DiscoveryMoves(rows: seq<Row>, op: Op, after: seq<Row>, q: Row)
    requires op.Discover? && Find(rows, op.found.id) == |rows|
    requires q in after && Alike(rows + [Found(op.found)], after)
    ensures MarksMoved(rows, op, q)
  {
    var j :| 0 <= j < |after| && after[j] == q;
    if j < |rows| {
      assert MarksFrom(rows[j], op, q);
    }
  }

  lemma DecisionMoves(rows: seq<Row>, op: Op, after: seq<Row>, q: Row)
    requires UniqueIds(rows) && op.Decide? && q in after && Alike(Redecided(rows, op.decision), after)
    requires Find(rows, op.decision.id) < |rows| ==> !rows[Find(rows, op.decision.id)].executable
    ensures MarksMoved(rows, op, q)
  {
    var j :| 0 <= j < |after| && after[j] == q;
    if j < |rows| {
      assert rows[j].id == op.decision.id ==> Find(rows, op.decision.id) == j;
      assert MarksFrom(rows[j], op, q);
    }
  }

  /** Migration and reconciliation leave the marks alone. */
  lemma TidyingMoves(rows: seq<Row>, op: Op, j: nat)
    requires op.Reconcile? || op.Migrate?
    requires j < |Apply(rows, op)|
    ensures j < |rows| && MarksFrom(rows[j], op, Apply(rows, op)[j])
  {
    hide Sampled, RequiredHorizons;
    assert Settle(rows[j]) == rows[j].(status := Settle(rows[j]).status);
    hide Settle;
  }

  /** Every other write changes rows in place. */
  lemma {:induction false} OtherMoves(rows: seq<Row>, op: Op, q: Row, j: nat)
    requires UniqueIds(rows) && !op.SampleBatch? && !op.Discover? && !op.Decide?
    requires j < |Swept(rows, op)| && Swept(rows, op)[j] == q
    ensures j < |rows| && MarksFrom(rows[j], op, q)
  {
    hide Sampled, RequiredHorizons, Reconciled, Migrated;
    match op
    case Finalize(id, _) =>
      assert j < |rows| && rows[j].id == id ==> Find(rows, id) == j;
    case PaperStatus(id, _) =>
      assert j < |rows| && rows[j].id == id ==> Find(rows, id) == j;
    case _ =>
      if op.Reconcile? || op.Migrate? {
        TidyingMoves(rows, op, j);
      }
  }

  lemma OneMoved(rows: seq<Row>, i: nat, op: Op, q: Row)
    requires i < |rows| && MarksFrom(rows[i], op, q)
    ensures MarksMoved(rows, op, q)
  {
  }

  lemma {:induction false} MarksMoveInWrite(rows: seq<Row>, op: Op, q: Row)
    requires RowsOk(rows) && q in Swept(rows, op)
    ensures MarksMoved(rows, op, q)
  {
    hide ApplyAll, Applied, Expire, SamplesDistinct, MarksMoved, Alike, UniqueIds, Redecided;
    var after := Swept(rows, op);
    match op
    case SampleBatch(xs) =>
      ApplyAllAlike(rows, xs);
      ExpireAlike(ApplyAll(rows, xs));
      AlikeTwice(rows, ApplyAll(rows, xs), Expire(ApplyAll(rows, xs)));
      BatchMoves(rows, op, after, q);
    case Discover(r) =>
      ExpireAlike(rows + [Found(r)]);
      if Find(rows, r.id) == |rows| {
        DiscoveryMoves(rows, op, after, q);
      } else {
        Unmoved(rows, op, q);
      }
    case Decide(d) =>
      ExpireAlike(Redecided(rows, d));
      if after != rows || Find(rows, d.id) == |rows| || !rows[Find(rows, d.id)].executable {
        DecisionMoves(rows, op, after, q);
      } else {
        Unmoved(rows, op, q);
      }
    case _ =>
      var j :| 0 <= j < |after| && after[j] == q;
      OtherMoves(rows, op, q, j);
      OneMoved(rows, j, op, q);
  }

  lemma AlikeTwice(a: seq<Row>, b: seq<Row>, c: seq<Row>)
    requires Alike(a, b) && Alike(b, c)
    ensures Alike(a, a) && Alike(a, c)
  {
  }

  /** Rows that are there already keep their marks when the observation is discovered or decided again in vain. */
  lemma Unmoved(rows: seq<Row>, op: Op, q: Row)
    requires UniqueIds(rows) && q in rows && (op.Discover? || op.Decide?)
    requires op.Decide? ==> Find(rows, op.decision.id) < |rows| && rows[Find(rows, op.decision.id)].executable
    ensures MarksMoved(rows, op, q)
  {
    var j :| 0 <= j < |rows| && rows[j] == q;
    if op.Decide? {
      assert rows[j].id == op.decision.id ==> Find(rows, op.decision.id) == j;
    }
    assert MarksFrom(rows[j], op, q);
  }

  /**
   After any write, a row is marked as archived exactly when it was before or the archive just said so, and its
   position is open exactly as the last status said, until the row is finalized or decided anew.
   */
  lemma {:induction false} MarksMove(rows: seq<Row>, op: Op, q: Row)
    requires RowsOk(rows) && q in Apply(rows, op)
    ensures MarksMoved(rows, op, q)
  {
    hide RowsOk, Swept, MarksMoved, ArchiveAndRetain;
    AppliedIsSwept(rows, op);
    if op.ArchiveMarks? && op.ids == {} {
      NoMarks(rows, q);
    } else if Apply(rows, op) != Swept(rows, op) {
      RetainedIsPart(Swept(rows, op), q);
      MarksMoveInWrite(rows, op, q);
    } else {
      MarksMoveInWrite(rows, op, q);
    }
  }

  lemma NoMarks(rows: seq<Row>, q: Row)
    requires q in Apply(rows, ArchiveMarks({}))
    ensures MarksMoved(rows, ArchiveMarks({}), q)
  {
    var i :| 0 <= i < |rows| && rows[i] == q;
    assert MarksFrom(rows[i], ArchiveMarks({}), q);
  }
}
