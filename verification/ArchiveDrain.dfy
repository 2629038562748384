/**
 The research archive beside the observation document (src/observation_tracker.py, src/research_archive.py):
 finished rows are copied, a record is stored once per observation id, and the mark that allows retention to
 drop the row is set afterwards, by id. Other writers may change the row between any two of these steps.
 */
module ArchiveDrain {
  import opened Wrappers
  import opened ObservationStore

  /** A copy of a finished row, with the number of writes of the document before it was taken. */
  datatype Snapshot = Snapshot(row: Row, writes: nat)

  datatype State = State(rows: seq<Row>, ops: seq<Op>, taken: seq<Snapshot>, records: map<Id, Snapshot>)

  datatype Step =
    | Write(op: Op)
    | Look(i: nat)
    | Store(n: nat)
    | Mark(ids: set<Id>)

  function Written(s: State, op: Op): State {
    s.(rows := Apply(s.rows, op), ops := s.ops + [op])
  }

  /** The first record of an id stays; a later snapshot of it counts as archived without being stored. */
  function Stored(s: State, t: Snapshot): State {
    if t.row.id in s.records then s else s.(records := s.records[t.row.id := t])
  }

  function Next(s: State, step: Step): State {
    match step
    case Write(op) => if op.ArchiveMarks? then s else Written(s, op)
    case Look(i) =>
      if i < |s.rows| && Unarchived(s.rows[i]) then s.(taken := s.taken + [Snapshot(s.rows[i], |s.ops|)]) else s
    case Store(n) => if n < |s.taken| then Stored(s, s.taken[n]) else s
    case Mark(ids) => if ids <= s.records.Keys then Written(s, ArchiveMarks(ids)) else s
  }

  function After(s: State, steps: seq<Step>): State
    decreases |steps|
  {
    if steps == [] then s else After(Next(s, steps[0]), steps[1..])
  }

  // ----- What retention is asked to cut -----

  /** The document a write hands to retention. */
  function Swept(rows: seq<Row>, op: Op): seq<Row> {
    match op
    case SampleBatch(xs) => if Applied(rows, xs) == [] then rows else Expire(ApplyAll(rows, xs))
    case Discover(r) => if Find(rows, r.id) < |rows| then rows else Expire(rows + [Found(r)])
    case Decide(d) =>
      if Find(rows, d.id) < |rows| && rows[Find(rows, d.id)].executable then rows else Expire(Redecided(rows, d))
    case Finalize(id, executable) =>
      var i := Find(rows, id);
      if i == |rows| then rows else rows[i := Finalized(rows[i], executable)]
    case PaperStatus(id, isOpen) =>
      var i := Find(rows, id);
      if i == |rows| then rows else rows[i := rows[i].(paperOpened := isOpen)]
    case ArchiveMarks(ids) => Marked(rows, ids)
    case _ => Apply(rows, op)
  }

  /** Whatever a write drops, it drops in the retention of that document. */
  lemma {:induction false} AppliedIsSwept(rows: seq<Row>, op: Op)
    requires RowsOk(rows)
    ensures RowsOk(Swept(rows, op))
    ensures Apply(rows, op) == Swept(rows, op) || Apply(rows, op) == ArchiveAndRetain(Swept(rows, op))
            || (op.ArchiveMarks? && op.ids == {})
  {
    hide RowsOk, ArchiveAndRetain, Expire, ApplyAll, Applied, Grew, SamplesDistinct, Descends;
    match op
    case SampleBatch(xs) =>
      ApplyAllKeepsRows(rows, xs);
      ExpireKeepsAll(ApplyAll(rows, xs));
    case Discover(r) =>
      if Find(rows, r.id) == |rows| {
        AbsentIdsAreNew(rows, Found(r));
        ExpireKeepsAll(rows + [Found(r)]);
      }
    case Decide(d) =>
      RedecidedKeepsRows(rows, d);
      ExpireKeepsAll(Redecided(rows, d));
    case Finalize(id, executable) =>
      if Find(rows, id) < |rows| {
        DistinctAt(rows, Find(rows, id));
        FinalizedGrew(rows[Find(rows, id)], executable);
        ReplacingKeepsRows(rows, Find(rows, id), Finalized(rows[Find(rows, id)], executable));
      }
    case PaperStatus(id, isOpen) =>
      if Find(rows, id) < |rows| {
        DistinctAt(rows, Find(rows, id));
        var q := rows[Find(rows, id)].(paperOpened := isOpen);
        SamplesOnlyDecide(rows[Find(rows, id)], q);
        ReplacingKeepsRows(rows, Find(rows, id), q);
      }
    case ArchiveMarks(ids) => MarkedKeepsRows(rows, ids);
    case _ => StepKeepsRows(rows, op);
  }

  // ----- A row that is not restarted keeps what was archived -----

  /** The write starts the samples of observation `id` anew. */
  predicate Resets(rows: seq<Row>, op: Op, id: Id) {
    var i := Find(rows, id);
    Restarts(op, id) && (i == |rows| || (op.Decide? && !rows[i].executable))
  }

  ghost predicate ResetSince(start: seq<Row>, ops: seq<Op>, n: nat, id: Id) {
    exists j :: n <= j < |ops| && Resets(Run(start, ops[..j]), ops[j], id)
  }

  /** Every row of this observation holds exactly these samples, for good. */
  ghost predicate Closed(rows: seq<Row>, id: Id, samples: seq<Sample>) {
    forall i :: 0 <= i < |rows| && rows[i].id == id ==> Terminal(rows[i]) && rows[i].samples == samples
  }

  lemma GrowthKeepsClosed(before: seq<Row>, after: seq<Row>, id: Id, samples: seq<Sample>)
    requires Closed(before, id, samples) && Descends(before, after)
    ensures Closed(after, id, samples)
  {
    hide Terminal;
    forall j | 0 <= j < |after| && after[j].id == id
      ensures Terminal(after[j]) && after[j].samples == samples
    {
      assert HasAncestor(before, after[j]);
      var i :| 0 <= i < |before| && Grew(before[i], after[j]);
    }
  }

  lemma OtherRowKeepsClosed(rows: seq<Row>, r: Row, i: nat, id: Id, samples: seq<Sample>)
    requires Closed(rows, id, samples) && r.id != id && i <= |rows|
    ensures Closed(if i == |rows| then rows + [r] else rows[i := r], id, samples)
  {
  }

  lemma {:induction false} ExpiryKeepsClosed(rows: seq<Row>, id: Id, samples: seq<Sample>)
    requires RowsOk(rows) && Closed(rows, id, samples)
    ensures Closed(Expire(rows), id, samples)
  {
    hide RowsOk, ExpireFirst, Closed, Descends;
    var n := CountExpirable(rows);
    var k := if n > MAX_ACTIVE_OBSERVATIONS then n - MAX_ACTIVE_OBSERVATIONS else 0;
    ExpireKeepsRows(rows, k);
    GrowthKeepsClosed(rows, ExpireFirst(rows, k), id, samples);
  }

  /** A write that does not reset a closed observation leaves it closed, before retention and after. */
  lemma {:induction false} WriteKeepsClosed(rows: seq<Row>, op: Op, id: Id, samples: seq<Sample>)
    requires RowsOk(rows) && Closed(rows, id, samples) && !Resets(rows, op, id)
    ensures Closed(Swept(rows, op), id, samples) && Closed(Apply(rows, op), id, samples)
  {
    hide RowsOk, Closed, ArchiveAndRetain, Apply;
    SweptKeepsClosed(rows, op, id, samples);
    AppliedIsSwept(rows, op);
    if Apply(rows, op) == ArchiveAndRetain(Swept(rows, op)) {
      RetentionKeepsRows(Swept(rows, op));
      GrowthKeepsClosed(Swept(rows, op), Apply(rows, op), id, samples);
    } else if op.ArchiveMarks? && op.ids == {} {
      StepKeepsRows(rows, op);
      GrowthKeepsClosed(rows, Apply(rows, op), id, samples);
    }
  }

  lemma {:induction false} SweptKeepsClosed(rows: seq<Row>, op: Op, id: Id, samples: seq<Sample>)
    requires RowsOk(rows) && Closed(rows, id, samples) && !Resets(rows, op, id)
    ensures Closed(Swept(rows, op), id, samples)
  {
    hide RowsOk, Closed, ArchiveAndRetain, Expire, ApplyAll, Applied, Grew, Descends, SamplesDistinct;
    match op
    case SampleBatch(xs) =>
      ApplyAllKeepsRows(rows, xs);
      GrowthKeepsClosed(rows, ApplyAll(rows, xs), id, samples);
      ExpiryKeepsClosed(ApplyAll(rows, xs), id, samples);
    case Discover(r) =>
      if Find(rows, r.id) == |rows| {
        OtherRowKeepsClosed(rows, Found(r), |rows|, id, samples);
        AbsentIdsAreNew(rows, Found(r));
        ExpiryKeepsClosed(rows + [Found(r)], id, samples);
      }
    case Decide(d) =>
      var i := Find(rows, d.id);
      if i == |rows| || !rows[i].executable {
        OtherRowKeepsClosed(rows, Redecided(rows, d)[i], i, id, samples);
        RedecidedKeepsRows(rows, d);
        ExpiryKeepsClosed(Redecided(rows, d), id, samples);
      }
    case Finalize(_, _) => SweptDescends(rows, op);
      GrowthKeepsClosed(rows, Swept(rows, op), id, samples);
    case PaperStatus(_, _) => SweptDescends(rows, op);
      GrowthKeepsClosed(rows, Swept(rows, op), id, samples);
    case ArchiveMarks(_) => SweptDescends(rows, op);
      GrowthKeepsClosed(rows, Swept(rows, op), id, samples);
    case _ => StepKeepsRows(rows, op);
      GrowthKeepsClosed(rows, Swept(rows, op), id, samples);
  }

  lemma {:induction false} SweptDescends(rows: seq<Row>, op: Op)
    requires RowsOk(rows) && (op.Finalize? || op.PaperStatus? || op.ArchiveMarks?)
    ensures Descends(rows, Swept(rows, op))
  {
    hide RowsOk, Descends, Grew, SamplesDistinct;
    PointwiseSelf(rows);
    match op
    case Finalize(id, executable) =>
      if Find(rows, id) < |rows| {
        DistinctAt(rows, Find(rows, id));
        FinalizedGrew(rows[Find(rows, id)], executable);
        ReplacingKeepsRows(rows, Find(rows, id), Finalized(rows[Find(rows, id)], executable));
      }
    case PaperStatus(id, isOpen) =>
      if Find(rows, id) < |rows| {
        DistinctAt(rows, Find(rows, id));
        var q := rows[Find(rows, id)].(paperOpened := isOpen);
        SamplesOnlyDecide(rows[Find(rows, id)], q);
        ReplacingKeepsRows(rows, Find(rows, id), q);
      }
    case ArchiveMarks(ids) => PointwiseKeepsRows(rows, Marked(rows, ids));
  }

  lemma {:induction false} ClosedUntilReset(start: seq<Row>, ops: seq<Op>, n: nat, k: nat, id: Id, samples: seq<Sample>)
    requires RowsOk(start) && n <= k <= |ops| && Closed(Run(start, ops[..n]), id, samples)
    ensures Closed(Run(start, ops[..k]), id, samples) || ResetSince(start, ops, n, id)
    decreases k
  {
    hide RowsOk, Closed, Apply, Run, Resets;
    if k > n {
      ClosedUntilReset(start, ops, n, k - 1, id, samples);
      NoHorizonIsSampledTwice(start, ops[..k - 1]);
      RunOneMore(start, ops, k - 1);
      if Closed(Run(start, ops[..k - 1]), id, samples) && !Resets(Run(start, ops[..k - 1]), ops[k - 1], id) {
        WriteKeepsClosed(Run(start, ops[..k - 1]), ops[k - 1], id, samples);
      }
    }
  }

  // ----- The invariant of every run -----

  predicate MarksRecorded(rows: seq<Row>, records: map<Id, Snapshot>) {
    forall r :: r in rows && r.archived ==> r.id in records
  }

  /** The snapshot is a finished row of the document as it was then. */
  ghost predicate Genuine(start: seq<Row>, ops: seq<Op>, t: Snapshot) {
    t.writes <= |ops| && t.row in Run(start, ops[..t.writes]) && Terminal(t.row)
  }

  ghost predicate Inv(s: State, start: seq<Row>) {
    && RowsOk(start) && s.rows == Run(start, s.ops)
    && MarksRecorded(s.rows, s.records)
    && (forall t :: t in s.taken ==> Genuine(start, s.ops, t))
    && (forall id :: id in s.records ==> s.records[id].row.id == id && Genuine(start, s.ops, s.records[id]))
  }

  lemma {:induction false} SweepingKeepsMarks(rows: seq<Row>, op: Op, records: map<Id, Snapshot>)
    requires RowsOk(rows) && MarksRecorded(rows, records) && (op.ArchiveMarks? ==> op.ids <= records.Keys)
    ensures MarksRecorded(Swept(rows, op), records)
  {
    hide RowsOk, ArchiveAndRetain, Expire, Sampled, RequiredHorizons;
    match op
    case SampleBatch(xs) =>
      SamplesKeepMarks(rows, xs, records);
      ExpiryKeepsMarks(ApplyAll(rows, xs), records);
    case Discover(r) => ExpiryKeepsMarks(rows + [Found(r)], records);
    case Decide(d) => ExpiryKeepsMarks(Redecided(rows, d), records);
    case _ =>
  }

  lemma {:induction false} SamplesKeepMarks(rows: seq<Row>, xs: seq<SampleResult>, records: map<Id, Snapshot>)
    requires MarksRecorded(rows, records)
    ensures MarksRecorded(ApplyAll(rows, xs), records)
    decreases |xs|
  {
    if xs != [] {
      hide Sampled, RequiredHorizons, Accepts;
      SamplesKeepMarks(ApplySample(rows, xs[0]), xs[1..], records);
    }
  }

  lemma {:induction false} ExpiryKeepsMarks(rows: seq<Row>, records: map<Id, Snapshot>)
    requires MarksRecorded(rows, records)
    ensures MarksRecorded(Expire(rows), records)
  {
    var n := CountExpirable(rows);
    var k := if n > MAX_ACTIVE_OBSERVATIONS then n - MAX_ACTIVE_OBSERVATIONS else 0;
    ExpireFirstKeeps(rows, k);
    hide ExpireFirst, CountExpirable, Expirable;
    forall r | r in ExpireFirst(rows, k) && r.archived
      ensures r.id in records
    {
      var i :| 0 <= i < |rows| && ExpireFirst(rows, k)[i] == r;
      assert rows[i] in rows;
    }
  }

  lemma {:induction false} WritingKeepsInv(s: State, op: Op, start: seq<Row>)
    requires Inv(s, start) && (op.ArchiveMarks? ==> op.ids <= s.records.Keys)
    ensures Inv(Written(s, op), start)
  {
    hide RowsOk, Apply, ArchiveAndRetain, Swept, Terminal;
    var v := Written(s, op);
    assert v.ops[..|s.ops|] == s.ops && v.ops[..|v.ops|] == v.ops;
    RunOneMore(start, v.ops, |s.ops|);
    NoHorizonIsSampledTwice(start, s.ops);
    AppliedKeepsMarks(s.rows, op, s.records);
    hide Run;
    forall t | Genuine(start, s.ops, t)
      ensures Genuine(start, v.ops, t)
    {
      assert v.ops[..t.writes] == s.ops[..t.writes];
    }
  }

  lemma {:induction false} AppliedKeepsMarks(rows: seq<Row>, op: Op, records: map<Id, Snapshot>)
    requires RowsOk(rows) && MarksRecorded(rows, records) && (op.ArchiveMarks? ==> op.ids <= records.Keys)
    ensures MarksRecorded(Apply(rows, op), records)
  {
    hide RowsOk, Swept, ArchiveAndRetain;
    SweepingKeepsMarks(rows, op, records);
    AppliedIsSwept(rows, op);
    RetainedAreMembers(Swept(rows, op));
  }

  lemma {:induction false} StepKeepsInv(s: State, step: Step, start: seq<Row>)
    requires Inv(s, start)
    ensures Inv(Next(s, step), start)
  {
    hide RowsOk, Apply, Run;
    match step
    case Write(op) =>
      if !op.ArchiveMarks? {
        WritingKeepsInv(s, op, start);
      }
    case Look(i) =>
      assert s.ops[..|s.ops|] == s.ops;
    case Store(n) =>
      if n < |s.taken| {
        assert s.taken[n] in s.taken;
      }
    case Mark(ids) =>
      if ids <= s.records.Keys {
        WritingKeepsInv(s, ArchiveMarks(ids), start);
      }
  }

  lemma {:induction false} RunKeepsInv(s: State, steps: seq<Step>, start: seq<Row>)
    requires Inv(s, start)
    ensures Inv(After(s, steps), start)
    decreases |steps|
  {
    if steps != [] {
      hide Inv, Next;
      StepKeepsInv(s, steps[0], start);
      RunKeepsInv(Next(s, steps[0]), steps[1..], start);
    }
  }

  predicate Unmarked(rows: seq<Row>) { forall r :: r in rows ==> !r.archived }

  // ----- What a dropped row costs -----

  /**
   In every run of all writers and the archive drain, a row that a write drops is finished and has a record,
   and the record holds exactly its samples unless the observation was restarted after the recorded
   snapshot was taken.
   */
  lemma {:induction false} DroppedSamplesAreArchived(start: seq<Row>, steps: seq<Step>, op: Op, r: Row)
    requires RowsOk(start) && Unmarked(start)
    requires var s := After(State(start, [], [], map[]), steps);
      && (op.ArchiveMarks? ==> op.ids <= s.records.Keys)
      && r in Swept(s.rows, op) && r !in Apply(s.rows, op) && (op.ArchiveMarks? ==> op.ids != {})
    ensures var s := After(State(start, [], [], map[]), steps);
            && r.id in s.records && Terminal(r) && !r.paperOpened
            && (s.records[r.id].row.samples == r.samples
                || ResetSince(start, s.ops + [op], s.records[r.id].writes, r.id))
  {
    var s := After(State(start, [], [], map[]), steps);
    assert Inv(State(start, [], [], map[]), start) by { hide RowsOk; }
    hide After, RowsOk, Apply, Swept, ArchiveAndRetain;
    RunKeepsInv(State(start, [], [], map[]), steps, start);
    NoHorizonIsSampledTwice(start, s.ops);
    AppliedIsSwept(s.rows, op);
    SweepingKeepsMarks(s.rows, op, s.records);
    var i :| 0 <= i < |Swept(s.rows, op)| && Swept(s.rows, op)[i] == r;
    DroppedRowsAreArchived(Swept(s.rows, op), i);
    RecordMatches(s, start, op, r);
  }

  lemma {:induction false} RecordMatches(s: State, start: seq<Row>, op: Op, r: Row)
    requires Inv(s, start) && r in Swept(s.rows, op) && r.id in s.records
    ensures s.records[r.id].row.samples == r.samples
            || ResetSince(start, s.ops + [op], s.records[r.id].writes, r.id)
  {
    var t := s.records[r.id];
    assert Genuine(start, s.ops, t) && t.row.id == r.id;
    hide RowsOk, Run, Apply, Swept, Resets;
    NoHorizonIsSampledTwice(start, s.ops[..t.writes]);
    OneRowPerId(Run(start, s.ops[..t.writes]), t.row);
    ClosedUntilReset(start, s.ops, t.writes, |s.ops|, r.id, t.row.samples);
    NoHorizonIsSampledTwice(start, s.ops);
    assert s.ops[..|s.ops|] == s.ops;
    var ops := s.ops + [op];
    if ResetSince(start, s.ops, t.writes, r.id) {
      var j :| t.writes <= j < |s.ops| && Resets(Run(start, s.ops[..j]), s.ops[j], r.id);
      assert ops[..j] == s.ops[..j] && ops[j] == s.ops[j];
    } else if Resets(s.rows, op, r.id) {
      assert ops[..|s.ops|] == s.ops && ops[|s.ops|] == op;
    } else {
      WriteKeepsClosed(s.rows, op, r.id, t.row.samples);
      var i :| 0 <= i < |Swept(s.rows, op)| && Swept(s.rows, op)[i] == r;
    }
  }

  lemma OneRowPerId(rows: seq<Row>, r: Row)
    requires RowsOk(rows) && r in rows && Terminal(r)
    ensures Closed(rows, r.id, r.samples)
  {
    hide SamplesDistinct, Terminal;
    var k :| 0 <= k < |rows| && rows[k] == r;
    forall i | 0 <= i < |rows| && rows[i].id == r.id
      ensures i == k
    {
    }
  }

  /**
   A restart leaves the observation without samples, so whatever it holds afterwards was written after every
   snapshot taken before.
   */
  lemma {:induction false} RestartEmptiesSamples(rows: seq<Row>, op: Op, id: Id)
    requires RowsOk(rows) && Resets(rows, op, id)
    ensures forall r :: r in Swept(rows, op) && r.id == id ==> r.samples == []
    ensures forall r :: r in Apply(rows, op) && r.id == id ==> r.samples == []
  {
    hide ArchiveAndRetain, Expire, SamplesDistinct;
    var grown := if op.Discover? then rows + [Found(op.found)] else Redecided(rows, op.decision);
    var i := Find(rows, id);
    assert grown[i].id == id && grown[i].samples == [];
    assert RowsOk(grown) by {
      if op.Discover? {
        AbsentIdsAreNew(rows, Found(op.found));
      } else {
        RedecidedKeepsRows(rows, op.decision);
      }
    }
    assert Swept(rows, op) == Expire(grown);
    assert forall k :: 0 <= k < |grown| && grown[k].id == id ==> k == i;
    ExpiryKeepsSamples(grown, id);
    AppliedIsSwept(rows, op);
    RetainedAreMembers(Swept(rows, op));
    hide RowsOk, Swept, Apply;
  }

  lemma {:induction false} ExpiryKeepsSamples(rows: seq<Row>, id: Id)
    requires forall k :: 0 <= k < |rows| && rows[k].id == id ==> rows[k].samples == []
    ensures forall r :: r in Expire(rows) && r.id == id ==> r.samples == []
  {
    var n := CountExpirable(rows);
    var k := if n > MAX_ACTIVE_OBSERVATIONS then n - MAX_ACTIVE_OBSERVATIONS else 0;
    ExpireFirstKeeps(rows, k);
    hide ExpireFirst, CountExpirable, Expirable;
    forall r | r in ExpireFirst(rows, k) && r.id == id
      ensures r.samples == []
    {
      var i :| 0 <= i < |rows| && ExpireFirst(rows, k)[i] == r;
      assert rows[i].id == id;
    }
  }

  // ----- A run that loses samples -----

  lemma {:induction false} FullSelection(rows: seq<Row>, mask: seq<bool>)
    requires |mask| == |rows|
    ensures |Select(rows, mask)| <= |rows|
    ensures |Select(rows, mask)| == |rows| ==> Select(rows, mask) == rows && forall i :: 0 <= i < |mask| ==> mask[i]
  {
    if rows != [] {
      FullSelection(rows[..|rows| - 1], mask[..|rows| - 1]);
    }
  }

  /** Up to the cap nothing is dropped. */
  lemma {:induction false} NothingDropped(rows: seq<Row>)
    requires |rows| <= MAX_OBSERVATIONS
    ensures ArchiveAndRetain(rows) == rows
  {
    hide Select, CapMask, CountActive, Unarchived;
    CapSize(rows, CompletedBudget(rows));
    FullSelection(rows, CapMask(rows, CompletedBudget(rows)));
  }

  predicate AllDone(rows: seq<Row>) { forall r :: r in rows ==> Terminal(r) && !r.paperOpened }

  lemma {:induction false} DoneRowsCountNothing(rows: seq<Row>)
    requires AllDone(rows)
    ensures CountExpirable(rows) == 0
  {
    if rows != [] {
      assert rows[0] in rows && forall r :: r in rows[1..] ==> r in rows;
      DoneRowsCountNothing(rows[1..]);
    }
  }

  lemma {:induction false} NoDoneRowIsActive(rows: seq<Row>)
    requires AllDone(rows)
    ensures CountActive(rows) == 0
  {
    if rows != [] {
      var n := |rows| - 1;
      assert rows[n] in rows && forall r :: r in rows[..n] ==> r in rows;
      NoDoneRowIsActive(rows[..n]);
    }
  }

  /** One more observation on top of finished ones expires nothing. */
  lemma {:induction false} OneFreshRowStays(rows: seq<Row>, r: Row)
    requires AllDone(rows)
    ensures Expire(rows + [r]) == rows + [r]
  {
    hide ExpireFirst, AllDone;
    DoneRowsCountNothing(rows);
    CountConcat(rows, [r]);
    assert [r][1..] == [] && CountExpirable([r]) <= 1;
    ExpiryEnds(rows + [r], 0);
  }

  /** With 1 000 finished rows, the next discovery pushes the oldest one out when it is marked as archived. */
  lemma {:induction false} OldestIsPushedOut(rows: seq<Row>, r: Row)
    requires AllDone(rows) && |rows| == MAX_OBSERVATIONS && rows[0].archived && RowsOk(rows + [r])
    requires !Terminal(r) && !r.archived
    ensures rows[0] !in ArchiveAndRetain(rows + [r])
  {
    var all := rows + [r];
    var n := |rows|;
    assert all[..n] == rows && all[1..][..n - 1] == rows[1..];
    NoDoneRowIsActive(rows);
    assert AllDone(rows[1..]);
    NoDoneRowIsActive(rows[1..]);
    assert CountActive(all) == 1 && CountActive(all[1..]) == 1;
    var mask := CapMask(all, CompletedBudget(all));
    assert rows[0] in rows;
    hide CountActive, CapMask, AllDone;
    CapKeepsNewest(all, CompletedBudget(all), 0);
    assert !mask[0];
    hide Select, RowsOk;
    SelectKeepsRows(all, mask);
    SelectKeepsRows(all, seq(|all|, i requires 0 <= i < |all| => mask[i] || Unarchived(all[i])));
    FirstIsUnique(all);
  }

  lemma FirstIsUnique(rows: seq<Row>)
    requires RowsOk(rows) && rows != []
    ensures forall i :: 0 < i < |rows| ==> rows[i] != rows[0]
  {
    hide SamplesDistinct;
  }

  /** The k-th of many observations that are discovered and closed at once. */
  function Filler(k: nat): Row {
    Row(k, 0.0, 1, Discovered, false, false, false, false, [], map[])
  }

  function Fillers(n: nat): seq<Row> { seq(n, i requires 0 <= i < n => Finalized(Filler(i + 1), false)) }

  function Fill(n: nat): seq<Op> {
    if n == 0 then [] else Fill(n - 1) + [Discover(Filler(n)), Finalize(n, false)]
  }

  lemma {:induction false} NotFound(rows: seq<Row>, id: Id)
    requires forall i :: 0 <= i < |rows| ==> rows[i].id != id
    ensures Find(rows, id) == |rows|
  {
  }

  lemma {:induction false} FoundLast(rows: seq<Row>, r: Row)
    requires forall i :: 0 <= i < |rows| ==> rows[i].id != r.id
    ensures Find(rows + [r], r.id) == |rows|
  {
    assert (rows + [r])[|rows|].id == r.id;
    assert forall i :: 0 <= i < |rows| ==> (rows + [r])[i].id != r.id;
  }

  /** Below the cap a discovery is only appended, and closing it changes only its own row. */
  lemma {:induction false} FillerIsAppended(rows: seq<Row>, k: nat)
    requires AllDone(rows) && |rows| < MAX_OBSERVATIONS && forall i :: 0 <= i < |rows| ==> rows[i].id != k
    ensures Apply(rows, Discover(Filler(k))) == rows + [Filler(k)]
  {
    hide ArchiveAndRetain, Expire, Find, AllDone;
    assert Found(Filler(k)) == Filler(k);
    NotFound(rows, k);
    OneFreshRowStays(rows, Filler(k));
    NothingDropped(rows + [Filler(k)]);
  }

  lemma {:induction false} LastIsFinalized(rows: seq<Row>, k: nat)
    requires |rows| < MAX_OBSERVATIONS && forall i :: 0 <= i < |rows| ==> rows[i].id != k
    ensures Apply(rows + [Filler(k)], Finalize(k, false)) == rows + [Finalized(Filler(k), false)]
  {
    hide ArchiveAndRetain, Find, Finalized;
    FoundLast(rows, Filler(k));
    var next := rows + [Finalized(Filler(k), false)];
    assert (rows + [Filler(k)])[|rows| := Finalized(Filler(k), false)] == next;
    NothingDropped(next);
  }

  lemma {:induction false} OneMoreFiller(r: Row, n: nat)
    requires r.id == 0 && Terminal(r) && !r.paperOpened && |r.samples| <= 1 && n + 2 <= MAX_OBSERVATIONS
    ensures Apply(Apply([r] + Fillers(n), Discover(Filler(n + 1))), Finalize(n + 1, false)) == [r] + Fillers(n + 1)
  {
    var rows := [r] + Fillers(n);
    FillersAreDone(r, n);
    FillersGrow(r, n);
    hide Apply, AllDone, RowsOk, Terminal, Fillers, Finalized, Filler;
    FillerIsAppended(rows, n + 1);
    LastIsFinalized(rows, n + 1);
  }

  lemma FillersGrow(r: Row, n: nat)
    ensures [r] + Fillers(n) + [Finalized(Filler(n + 1), false)] == [r] + Fillers(n + 1)
  {
    hide Finalized, Filler;
    assert Fillers(n + 1)[n] == Finalized(Filler(n + 1), false);
  }

  lemma {:induction false} RunTwo(rows: seq<Row>, a: Op, b: Op)
    ensures Run(rows, [a, b]) == Apply(Apply(rows, a), b)
  {
    hide Apply;
    assert [a, b][1..] == [b] && [b][1..] == [];
    assert Run(Apply(rows, a), [b]) == Run(Apply(Apply(rows, a), b), []);
  }

  lemma {:induction false} FillersPile(r: Row, n: nat)
    requires r.id == 0 && Terminal(r) && !r.paperOpened && |r.samples| <= 1 && n + 1 <= MAX_OBSERVATIONS
    ensures Run([r], Fill(n)) == [r] + Fillers(n)
  {
    hide Apply;
    if n == 0 {
      assert [r] + Fillers(0) == [r];
    } else {
      FillersPile(r, n - 1);
      OneMoreFiller(r, n - 1);
      RunConcat([r], Fill(n - 1), [Discover(Filler(n)), Finalize(n, false)]);
      RunTwo([r] + Fillers(n - 1), Discover(Filler(n)), Finalize(n, false));
    }
  }

  function Writes(ops: seq<Op>): seq<Step> { seq(|ops|, i requires 0 <= i < |ops| => Write(ops[i])) }

  lemma {:induction false} WritesRun(s: State, ops: seq<Op>)
    requires forall op :: op in ops ==> !op.ArchiveMarks?
    ensures After(s, Writes(ops)) == s.(rows := Run(s.rows, ops), ops := s.ops + ops)
    decreases |ops|
  {
    hide Apply;
    if ops == [] {
      assert s.ops + ops == s.ops;
    } else {
      assert Writes(ops)[0] == Write(ops[0]) && Writes(ops)[1..] == Writes(ops[1..]);
      assert s.ops + ops == s.ops + [ops[0]] + ops[1..];
      WritesRun(Written(s, ops[0]), ops[1..]);
    }
  }

  lemma {:induction false} AfterConcat(s: State, first: seq<Step>, rest: seq<Step>)
    ensures After(s, first + rest) == After(After(s, first), rest)
    decreases |first|
  {
    hide Next;
    if first == [] {
      assert first + rest == rest;
    } else {
      assert (first + rest)[1..] == first[1..] + rest;
      AfterConcat(Next(s, first[0]), first[1..], rest);
    }
  }

  lemma {:induction false} NoMarksInFill(n: nat)
    ensures forall op :: op in Fill(n) ==> !op.ArchiveMarks?
  {
    if n > 0 {
      NoMarksInFill(n - 1);
    }
  }

  /** A finished row is archived and marked, decided again, sampled and closed. */
  function Reopening(d: Row, x: SampleResult): seq<Op> { [Decide(d), SampleBatch([x]), Finalize(0, false)] }

  function Reopened(was: Row, d: Row, x: SampleResult): Row {
    Finalized(WithSample(Decided(d).(startedAt := was.startedAt, archived := true), x.sample), false)
  }

  lemma {:induction false} MarkedOnce(was: Row)
    requires was.id == 0 && Unarchived(was)
    ensures After(State([was], [], [], map[]), [Look(0), Store(0), Mark({0})])
         == State([was.(archived := true)], [ArchiveMarks({0})], [Snapshot(was, 0)], map[0 := Snapshot(was, 0)])
  {
    hide ArchiveAndRetain;
    var s0 := State([was], [], [], map[]);
    var s1 := s0.(taken := [Snapshot(was, 0)]);
    var s2 := s1.(records := map[0 := Snapshot(was, 0)]);
    assert [] + [Snapshot(was, 0)] == [Snapshot(was, 0)];
    assert Next(s0, Look(0)) == s1 && Next(s1, Store(0)) == s2;
    assert Marked([was], {0}) == [was.(archived := true)];
    OneRowStays(was.(archived := true));
    AfterConcat(s0, [Look(0)], [Store(0), Mark({0})]);
    AfterConcat(s1, [Store(0)], [Mark({0})]);
    assert [Look(0)] + [Store(0), Mark({0})] == [Look(0), Store(0), Mark({0})];
    assert [Store(0)] + [Mark({0})] == [Store(0), Mark({0})];
    AfterOne(s0, Look(0));
    AfterOne(s1, Store(0));
    AfterOne(s2, Mark({0}));
  }

  lemma AfterOne(s: State, step: Step)
    ensures After(s, [step]) == Next(s, step)
  {
    hide Next;
    assert [step][1..] == [];
  }

  lemma {:induction false} ReopenedOnce(was: Row, d: Row, x: SampleResult)
    requires was.id == d.id == x.id == 0 && !was.executable && was.archived
    ensures Run([was], Reopening(d, x)) == [Reopened(was, d, x)]
    ensures Reopened(was, d, x).samples == [x.sample]
  {
    hide ArchiveAndRetain, Expire, RequiredHorizons;
    var r1 := Decided(d).(startedAt := was.startedAt, archived := true);
    var r2 := WithSample(r1, x.sample);
    OneRowStays(was);
    OneRowStays(r1);
    OneRowStays(r2);
    OneRowStays(Reopened(was, d, x));
    OneEntry([r1], x);
    assert [was][0 := r1] == [r1] && [r1][0 := r2] == [r2] && [] + [x.sample] == [x.sample];
    assert Apply([was], Decide(d)) == [r1];
    assert Apply([r1], SampleBatch([x])) == [r2];
    assert [r2][0 := Reopened(was, d, x)] == [Reopened(was, d, x)];
    assert Apply([r2], Finalize(0, false)) == [Reopened(was, d, x)];
    hide Apply;
    RunConcat([was], [Decide(d), SampleBatch([x])], [Finalize(0, false)]);
    RunTwo([was], Decide(d), SampleBatch([x]));
    assert [Decide(d), SampleBatch([x])] + [Finalize(0, false)] == Reopening(d, x);
    assert [Finalize(0, false)][1..] == [];
    assert Run([r2], [Finalize(0, false)]) == Run(Apply([r2], Finalize(0, false)), []);
  }

  /**
   A run that loses samples: a finished observation without an executable quote is archived, decided again,
   sampled and closed; 999 others are discovered and closed, and the discovery of one more drops it, while
   the archive holds only what it was before.
   */
  lemma {:induction false} RestartedSamplesAreLost(was: Row, d: Row, x: SampleResult, n: nat)
    requires was.id == d.id == x.id == 0 && Unarchived(was) && !was.executable && x.sample !in was.samples
    requires n + 1 == MAX_OBSERVATIONS
    ensures var steps := [Look(0), Store(0), Mark({0})] + Writes(Reopening(d, x) + Fill(n));
            var s := After(State([was], [], [], map[]), steps);
            var lost := Reopened(was, d, x);
            && lost in Swept(s.rows, Discover(Filler(n + 1))) && lost !in Apply(s.rows, Discover(Filler(n + 1)))
            && x.sample in lost.samples
            && 0 in s.records && x.sample !in s.records[0].row.samples
  {
    var lost := Reopened(was, d, x);
    var marked := was.(archived := true);
    MarkedOnce(was);
    NoMarksInFill(n);
    ReopenedOnce(marked, d, x);
    hide Reopened, Apply, Run, After, Swept, Fill, Fillers;
    var s0 := State([was], [], [], map[]);
    var s3 := After(s0, [Look(0), Store(0), Mark({0})]);
    AfterConcat(s0, [Look(0), Store(0), Mark({0})], Writes(Reopening(d, x) + Fill(n)));
    WritesRun(s3, Reopening(d, x) + Fill(n));
    RunConcat([marked], Reopening(d, x), Fill(n));
    assert Reopened(marked, d, x) == lost && lost.id == 0 && Terminal(lost) && lost.archived && !lost.paperOpened by {
      SameReopened(was, d, x);
    }
    FillersPile(lost, n);
    LastDiscoveryDrops(lost, n);
  }

  lemma SameReopened(was: Row, d: Row, x: SampleResult)
    requires d.id == 0
    ensures var lost := Reopened(was, d, x);
            && Reopened(was.(archived := true), d, x) == lost && lost.id == 0 && lost.archived
            && Terminal(lost) && !lost.paperOpened
  {
  }

  lemma {:induction false} LastDiscoveryDrops(r: Row, n: nat)
    requires r.id == 0 && r.archived && Terminal(r) && !r.paperOpened && |r.samples| <= 1
    requires n + 1 == MAX_OBSERVATIONS
    ensures var rows := [r] + Fillers(n);
            r in Swept(rows, Discover(Filler(n + 1))) && r !in Apply(rows, Discover(Filler(n + 1)))
  {
    var rows := [r] + Fillers(n);
    var newest := Found(Filler(n + 1));
    FillersAreDone(r, n);
    hide ArchiveAndRetain, Expire, Find, Fillers;
    NotFound(rows, n + 1);
    OneFreshRowStays(rows, newest);
    OldestIsPushedOut(rows, newest);
    assert rows[0] == r && (rows + [newest])[0] == r;
  }

  lemma {:induction false} FillersAreDone(r: Row, n: nat)
    requires r.id == 0 && Terminal(r) && !r.paperOpened && |r.samples| <= 1
    ensures var rows := [r] + Fillers(n);
            && AllDone(rows) && |rows| == n + 1 && RowsOk(rows + [Found(Filler(n + 1))])
            && forall i :: 0 <= i < |rows| ==> rows[i].id != n + 1
  {
    hide RowsOk;
    var all := [r] + Fillers(n) + [Found(Filler(n + 1))];
    assert forall i :: 0 <= i < |all| ==> all[i].id == i && |all[i].samples| <= 1;
    NumberedRowsAreOk(all);
  }

  lemma NumberedRowsAreOk(rows: seq<Row>)
    requires forall i :: 0 <= i < |rows| ==> rows[i].id == i && |rows[i].samples| <= 1
    ensures RowsOk(rows)
  {
  }
}
