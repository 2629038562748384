/**
 The observer's tick (src/observation_tracker.py): stalled attempts are retried first, then the finalized
 samples that a lock timeout held back, and only with both queues empty is the document scanned for new
 work. Other processes write the same document between any two of its accesses.
 */
module ObserverLoop {
  import opened ObservationStore
  import opened DueSelection
  import opened Wrappers

  const MAX_SAMPLE_ATTEMPTS: nat := 3

  /** A failed quote whose attempt counter could not be written yet. */
  datatype PendingAttempt = PendingAttempt(id: Id, horizon: Horizon, target: real, error: Error, sampledAt: real)

  // ----- What the environment decides -----

  /** One locked access: what other processes did to the document before it, and whether the lock came. */
  datatype Access = Access(others: seq<Op>, granted: bool)

  /** A batch write also reports a timeout when a side effect after its commit times out. */
  datatype Lock = Granted | TimedOut | TimedOutAfterCommit
  datatype BatchAccess = BatchAccess(others: seq<Op>, lock: Lock)

  datatype Answer = Quoted(proceeds: int) | NoRoute(error: Error) | QuoteFailed(error: Error, access: Access)
  datatype Quote = Quote(attemptedAt: real, answer: Answer, answeredAt: real)

  datatype Tick = Tick(retry: nat -> Access, backlog: BatchAccess, scan: Access, now: real,
                       quote: nat -> Quote, batch: BatchAccess)

  // ----- The specification of one tick -----

  /** A sample whose batch write was acknowledged, with the number of writes of the document up to that one. */
  datatype Delivery = Delivery(result: SampleResult, writes: nat)

  /** A due horizon a scan selected, and what the environment answered. */
  datatype Scan = Scan(due: Due, quote: Quote)

  /** What became of it: final at once, counted (and final when that was the last attempt), or stalled. */
  datatype Fate =
    | Final(result: SampleResult)
    | CountedAs(count: nat, last: Option<SampleResult>)
    | Stalled(item: PendingAttempt)

  /** A stalled attempt that a later tick counted. */
  datatype Retry = Retry(item: PendingAttempt, fate: Fate)

  /**
   The document and the two queues. `ops` is every write of the document so far, `produced` every sample
   ever finalized and `delivered` those whose batch write was acknowledged; `scans` and `fates` are the due
   horizons ever scanned with their outcomes, `retries` the stalled attempts counted later.
   */
  datatype State = State(
    rows: seq<Row>, finalized: seq<SampleResult>, attempts: seq<PendingAttempt>,
    ops: seq<Op>, produced: seq<SampleResult>, delivered: seq<Delivery>,
    scans: seq<Scan>, fates: seq<Fate>, retries: seq<Retry>)

  /** The observer starts on the document it finds. */
  function Begin(rows: seq<Row>): State {
    State(rows, [], [], [], [], [], [], [], [])
  }

  function Foreign(s: State, others: seq<Op>): State {
    s.(rows := Run(s.rows, others), ops := s.ops + others)
  }

  function Finalize(s: State, x: SampleResult): State {
    s.(finalized := s.finalized + [x], produced := s.produced + [x])
  }

  /** After the last attempt the horizon is settled without proceeds. */
  function GivenUp(a: PendingAttempt): SampleResult {
    var error := if Missed(a.sampledAt, a.target) then HorizonMissed else a.error;
    SampleResult(a.id, Sample(a.horizon, None, Some(error), a.sampledAt))
  }

  function Noted(s: State, a: PendingAttempt): State {
    s.(rows := Attempted(s.rows, a.id, a.horizon).0, ops := s.ops + [Attempt(a.id, a.horizon)])
  }

  function Counted(s: State, a: PendingAttempt): State {
    if Attempted(s.rows, a.id, a.horizon).1 < MAX_SAMPLE_ATTEMPTS then Noted(s, a)
    else Finalize(Noted(s, a), GivenUp(a))
  }

  function CountFate(s: State, a: PendingAttempt): Fate {
    var count := Attempted(s.rows, a.id, a.horizon).1;
    CountedAs(count, if count < MAX_SAMPLE_ATTEMPTS then None else Some(GivenUp(a)))
  }

  /** A stalled attempt is counted after all. */
  function Recounted(s: State, a: PendingAttempt): State {
    Counted(s, a).(retries := s.retries + [Retry(a, CountFate(s, a))])
  }

  function Fated(s: State, f: Fate): State {
    s.(fates := s.fates + [f])
  }

  function Settle(s: State, x: SampleResult): State {
    Fated(Finalize(s, x), Final(x))
  }

  /** Retry the stalled attempts from the n-th on; the first timeout puts the rest back. */
  function Retried(s: State, items: seq<PendingAttempt>, env: nat -> Access, n: nat): State
    requires n <= |items|
    decreases |items| - n
  {
    if n == |items| then s
    else
      var t := Foreign(s, env(n).others);
      if env(n).granted then Retried(Recounted(t, items[n]), items, env, n + 1)
      else t.(attempts := t.attempts + items[n..])
  }

  function Committed(s: State): State {
    s.(rows := Batch(s.rows, s.finalized), ops := s.ops + [SampleBatch(s.finalized)])
  }

  function Deliveries(xs: seq<SampleResult>, writes: nat): seq<Delivery> {
    seq(|xs|, i requires 0 <= i < |xs| => Delivery(xs[i], writes))
  }

  function Results(ds: seq<Delivery>): seq<SampleResult> {
    seq(|ds|, i requires 0 <= i < |ds| => ds[i].result)
  }

  function Flushed(s: State, a: BatchAccess): State {
    var t := Foreign(s, a.others);
    match a.lock
    case TimedOut => t
    case TimedOutAfterCommit => Committed(t)
    case Granted => Committed(t).(finalized := [], delivered := t.delivered + Deliveries(t.finalized, |t.ops| + 1))
  }

  function NoProceeds(c: Due, error: Error, at: real): SampleResult {
    SampleResult(c.id, Sample(c.horizon, None, Some(if Missed(at, c.target) then HorizonMissed else error), at))
  }

  /** One due horizon: missed windows are not quoted, a late answer is a miss, a failed quote is counted. */
  function SampledOne(s: State, c: Due, q: Quote): State {
    if Missed(q.attemptedAt, c.target) then Settle(s, NoProceeds(c, HorizonMissed, q.attemptedAt))
    else
      match q.answer
      case Quoted(proceeds) =>
        Settle(s, if Missed(q.answeredAt, c.target) then NoProceeds(c, HorizonMissed, q.answeredAt)
                    else SampleResult(c.id, Sample(c.horizon, Some(proceeds), None, q.answeredAt)))
      case NoRoute(e) => Settle(s, NoProceeds(c, e, q.answeredAt))
      case QuoteFailed(e, access) =>
        var t := Foreign(s, access.others);
        var item := PendingAttempt(c.id, c.horizon, c.target, e, q.answeredAt);
        if access.granted then Fated(Counted(t, item), CountFate(t, item))
        else Fated(t.(attempts := t.attempts + [item]), Stalled(item))
  }

  function Scans(due: seq<Due>, env: nat -> Quote): seq<Scan> {
    seq(|due|, i requires 0 <= i < |due| => Scan(due[i], env(i)))
  }

  function SampledAll(s: State, due: seq<Due>, env: nat -> Quote, n: nat): State
    requires n <= |due|
    decreases |due| - n
  {
    if n == |due| then s else SampledAll(SampledOne(s, due[n], env(n)), due, env, n + 1)
  }

  function Scanned(s: State, e: Tick): State {
    var t := Foreign(s, e.scan.others);
    if !e.scan.granted then t
    else
      var due := DueSamples(t.rows, e.now);
      var u := SampledAll(t.(scans := t.scans + Scans(due, e.quote)), due, e.quote, 0);
      if u.finalized == [] then u else Flushed(u, e.batch)
  }

  function AfterRetries(s: State, e: Tick): State { Retried(s.(attempts := []), s.attempts, e.retry, 0) }

  function AfterBacklog(s: State, e: Tick): State {
    if s.finalized == [] then s else Flushed(s, e.backlog)
  }

  function Ticked(s: State, e: Tick): State {
    var a := AfterRetries(s, e);
    if a.attempts != [] then a
    else
      var b := AfterBacklog(a, e);
      if b.finalized != [] || s.attempts != [] then b else Scanned(b, e)
  }

  // ----- The loop body, over the shared document -----

  class Observer {
    const file: ObservationFile
    var finalized: seq<SampleResult>
    var attempts: seq<PendingAttempt>
    ghost var ops: seq<Op>
    ghost var produced: seq<SampleResult>
    ghost var delivered: seq<Delivery>
    ghost var scans: seq<Scan>
    ghost var fates: seq<Fate>
    ghost var retries: seq<Retry>

    constructor (file: ObservationFile)
      ensures this.file == file && Value() == Begin(file.rows)
    {
      this.file := file;
      finalized, attempts, ops, produced, delivered := [], [], [], [], [];
      scans, fates, retries := [], [], [];
    }

    ghost function Value(): State
      reads this, file
    {
      State(file.rows, finalized, attempts, ops, produced, delivered, scans, fates, retries)
    }

    /** The queues never outgrow one batch. */
    predicate WithinBatch()
      reads this
    {
      |finalized| + |attempts| <= SAMPLE_BATCH_SIZE
    }

    method Others(others: seq<Op>)
      modifies this`ops, file
      ensures Value() == Foreign(old(Value()), others)
    {
      file.Interfere(others);
      ops := ops + others;
    }

    method CountAttempt(a: PendingAttempt) returns (count: nat)
      modifies this`ops, file
      ensures Value() == Noted(old(Value()), a) && count == Attempted(old(file.rows), a.id, a.horizon).1
    {
      count := file.RecordSampleAttempt(a.id, a.horizon);
      ops := ops + [Attempt(a.id, a.horizon)];
    }

    method RetryAttempts(env: nat -> Access)
      requires WithinBatch()
      modifies this, file
      ensures Value() == Retried(old(Value()).(attempts := []), old(attempts), env, 0) && WithinBatch()
    {
      hide Noted, Foreign, GivenUp;
      var items := attempts;
      ghost var goal := Retried(Value().(attempts := []), items, env, 0);
      attempts := [];
      for n := 0 to |items|
        invariant goal == Retried(Value(), items, env, n)
        invariant attempts == [] && |finalized| + |items| - n <= SAMPLE_BATCH_SIZE
      {
        Others(env(n).others);
        if !env(n).granted {
          attempts := attempts + items[n..];
          return;
        }
        ghost var fate := CountFate(Value(), items[n]);
        var count := CountAttempt(items[n]);
        retries := retries + [Retry(items[n], fate)];
        if count >= MAX_SAMPLE_ATTEMPTS {
          finalized := finalized + [GivenUp(items[n])];
          produced := produced + [GivenUp(items[n])];
        }
      }
    }

    /** The batch always fits, so the writer's size error cannot occur. */
    method FlushFinalized(a: BatchAccess) returns (stalled: bool)
      requires WithinBatch()
      modifies this, file
      ensures Value() == Flushed(old(Value()), a) && WithinBatch() && stalled == (a.lock != Granted)
    {
      hide Batch, Foreign;
      Others(a.others);
      if a.lock.TimedOut? {
        return true;
      }
      var _, error := file.RecordSampleBatch(finalized);
      assert error == None;
      ops := ops + [SampleBatch(finalized)];
      if a.lock.TimedOutAfterCommit? {
        return true;
      }
      delivered := delivered + Deliveries(finalized, |ops|);
      finalized := [];
      return false;
    }

    method SampleDue(c: Due, q: Quote) returns (result: Option<SampleResult>)
      modifies this, file
      ensures finalized == old(finalized)
      ensures |attempts| + (if result.Some? then 1 else 0) <= |old(attempts)| + 1
      ensures SampledOne(old(Value()), c, q) ==
              Value().(finalized := finalized + if result.Some? then [result.value] else [])
    {
      hide Noted, Foreign;
      if Missed(q.attemptedAt, c.target) {
        result := Some(NoProceeds(c, HorizonMissed, q.attemptedAt));
      } else {
        match q.answer
        case Quoted(proceeds) =>
          result := Some(if Missed(q.answeredAt, c.target) then NoProceeds(c, HorizonMissed, q.answeredAt)
                         else SampleResult(c.id, Sample(c.horizon, Some(proceeds), None, q.answeredAt)));
        case NoRoute(e) =>
          result := Some(NoProceeds(c, e, q.answeredAt));
        case QuoteFailed(e, access) =>
          Others(access.others);
          var item := PendingAttempt(c.id, c.horizon, c.target, e, q.answeredAt);
          if !access.granted {
            attempts := attempts + [item];
            fates := fates + [Stalled(item)];
            return None;
          }
          ghost var fate := CountFate(Value(), item);
          var count := CountAttempt(item);
          fates := fates + [fate];
          if count < MAX_SAMPLE_ATTEMPTS {
            return None;
          }
          produced := produced + [GivenUp(item)];
          return Some(GivenUp(item));
      }
      produced := produced + [result.value];
      fates := fates + [Final(result.value)];
    }

    /** New work is looked for only when nothing is queued. */
    method ScanAndSample(e: Tick)
      requires finalized == [] && attempts == []
      modifies this, file
      ensures Value() == Scanned(old(Value()), e) && WithinBatch()
    {
      hide SampledOne, Foreign, Flushed, DueSamples;
      Others(e.scan.others);
      if !e.scan.granted {
        return;
      }
      var due := DueObservationSamples(file.rows, e.now);
      DueFitsBatch(file.rows, e.now);
      scans := scans + Scans(due, e.quote);
      ghost var goal := SampledAll(Value(), due, e.quote, 0);
      var results := [];
      for n := 0 to |due|
        invariant goal == SampledAll(Value().(finalized := results), due, e.quote, n)
        invariant finalized == [] && |results| + |attempts| + |due| - n <= SAMPLE_BATCH_SIZE
      {
        ghost var before := Value();
        SampledOneAppends(before, results, due[n], e.quote(n));
        var result := SampleDue(due[n], e.quote(n));
        ghost var more := if result.Some? then [result.value] else [];
        assert [] + more == more && results + [] == results;
        assert SampledOne(before.(finalized := results), due[n], e.quote(n)) == Value().(finalized := results + more);
        if result.Some? {
          results := results + [result.value];
        }
      }
      finalized := results;
      if results != [] {
        var _ := FlushFinalized(e.batch);
      }
    }

    method Tick(e: Tick)
      requires WithinBatch()
      modifies this, file
      ensures Value() == Ticked(old(Value()), e) && WithinBatch()
    {
      hide Retried, Scanned;
      var recovered := attempts != [];
      if recovered {
        RetryAttempts(e.retry);
        if attempts != [] {
          return;
        }
      } else {
        NothingToRetry(Value(), e);
      }
      if finalized != [] {
        var stalled := FlushFinalized(e.backlog);
        if stalled {
          return;
        }
      }
      if !recovered {
        ScanAndSample(e);
      }
    }
  }

  lemma NothingToRetry(s: State, e: Tick)
    requires s.attempts == []
    ensures AfterRetries(s, e) == s
  {
  }

  lemma DueFitsBatch(rows: seq<Row>, now: real)
    ensures |DueSamples(rows, now)| <= SAMPLE_BATCH_SIZE
  {
    hide SelectBatch;
    TimelyWindowsGoFirst(DueCandidates(rows, now), now, SAMPLE_BATCH_SIZE);
  }

  lemma CountedAppends(s: State, results: seq<SampleResult>, a: PendingAttempt)
    requires s.finalized == []
    ensures var t := Counted(s, a);
            Counted(s.(finalized := results), a) == t.(finalized := results + t.finalized)
    ensures CountFate(s.(finalized := results), a) == CountFate(s, a)
  {
    hide Attempted, GivenUp;
  }

  /** Sampling only ever appends to the finalized queue. */
  lemma {:induction false} SampledOneAppends(s: State, results: seq<SampleResult>, c: Due, q: Quote)
    requires s.finalized == []
    ensures var t := SampledOne(s, c, q);
            SampledOne(s.(finalized := results), c, q) == t.(finalized := results + t.finalized)
  {
    hide Counted, CountFate, Run, NoProceeds, Missed;
    if q.answer.QuoteFailed? {
      CountedAppends(Foreign(s, q.answer.access.others), results,
                     PendingAttempt(c.id, c.horizon, c.target, q.answer.error, q.answeredAt));
    }
  }

  // ----- Safety over every run -----

  /** Every finalized sample is queued or delivered, as often as it was finalized. */
  ghost predicate Conserved(s: State) {
    multiset(s.produced) == multiset(s.finalized) + multiset(Results(s.delivered))
  }

  /** The write that delivered a sample is the batch that holds it. */
  predicate Written(ops: seq<Op>, d: Delivery) {
    0 < d.writes <= |ops| && ops[d.writes - 1].SampleBatch? && d.result in ops[d.writes - 1].xs
  }

  /** `start` is the document the observer found; what it holds now is what all writes made of it. */
  ghost predicate Safe(s: State, start: seq<Row>) {
    && RowsOk(start) && s.rows == Run(start, s.ops)
    && Conserved(s) && forall d :: d in s.delivered ==> Written(s.ops, d)
  }

  lemma WritesKeepSafe(s: State, ops: seq<Op>, start: seq<Row>)
    requires Safe(s, start)
    ensures Safe(Foreign(s, ops), start)
  {
    hide RowsOk, Run;
    RunConcat(start, s.ops, ops);
  }

  lemma OneWrite(s: State, op: Op)
    ensures Foreign(s, [op]) == s.(rows := Apply(s.rows, op), ops := s.ops + [op])
  {
    hide Apply;
    assert Run(s.rows, [op]) == Run(Apply(s.rows, op), [op][1..]);
  }

  lemma FinalizeKeepsSafe(s: State, x: SampleResult, start: seq<Row>)
    requires Safe(s, start)
    ensures Safe(Finalize(s, x), start)
  {
    hide RowsOk, Run, Written;
  }

  lemma CountedKeepsSafe(s: State, a: PendingAttempt, start: seq<Row>)
    requires Safe(s, start)
    ensures Safe(Counted(s, a), start) && |Counted(s, a).finalized| <= |s.finalized| + 1
    ensures Counted(s, a).attempts == s.attempts
  {
    hide Safe, Attempted;
    OneWrite(s, Attempt(a.id, a.horizon));
    WritesKeepSafe(s, [Attempt(a.id, a.horizon)], start);
    FinalizeKeepsSafe(Noted(s, a), GivenUp(a), start);
  }

  lemma QueuesDoNotDecide(s: State, attempts: seq<PendingAttempt>, start: seq<Row>)
    requires Safe(s, start)
    ensures Safe(s.(attempts := attempts), start)
  {
    hide RowsOk, Run, Written;
  }

  lemma RecordsDoNotDecide(s: State, scans: seq<Scan>, fates: seq<Fate>, retries: seq<Retry>, start: seq<Row>)
    requires Safe(s, start)
    ensures Safe(s.(scans := scans, fates := fates, retries := retries), start)
  {
    hide RowsOk, Run, Written;
  }

  lemma RetriedUnfolds(s: State, items: seq<PendingAttempt>, env: nat -> Access, n: nat)
    requires n <= |items|
    ensures Retried(s, items, env, n) ==
            if n == |items| then s
            else
              var t := Foreign(s, env(n).others);
              if env(n).granted then Retried(Recounted(t, items[n]), items, env, n + 1)
              else t.(attempts := t.attempts + items[n..])
  {
    hide Foreign, Recounted;
  }

  lemma {:induction false} RetriedKeepsSafe(
    s: State, items: seq<PendingAttempt>, env: nat -> Access, n: nat, start: seq<Row>)
    requires n <= |items| && Safe(s, start) && s.attempts == []
    ensures var t := Retried(s, items, env, n);
            Safe(t, start) && |t.finalized| + |t.attempts| <= |s.finalized| + |items| - n
    decreases |items| - n
  {
    hide Safe, Foreign, Counted, CountFate;
    RetriedUnfolds(s, items, env, n);
    hide Retried;
    if n < |items| {
      var t := Foreign(s, env(n).others);
      WritesKeepSafe(s, env(n).others, start);
      ForeignKeepsQueues(s, env(n).others);
      if env(n).granted {
        CountedKeepsSafe(t, items[n], start);
        var u := Counted(t, items[n]);
        RecordsDoNotDecide(u, u.scans, u.fates, Recounted(t, items[n]).retries, start);
        RetriedKeepsSafe(Recounted(t, items[n]), items, env, n + 1, start);
      } else {
        QueuesDoNotDecide(t, t.attempts + items[n..], start);
      }
    }
  }

  lemma ForeignKeepsQueues(s: State, others: seq<Op>)
    ensures Foreign(s, others).attempts == s.attempts && Foreign(s, others).finalized == s.finalized
  {
  }

  lemma ResultsAppend(ds: seq<Delivery>, xs: seq<SampleResult>, n: nat)
    ensures Results(ds + Deliveries(xs, n)) == Results(ds) + xs
  {
  }

  /** The queue goes to the delivered ones right after the write of its batch. */
  lemma AcknowledgedKeepsSafe(s: State, start: seq<Row>)
    requires Safe(s, start) && s.ops != [] && s.ops[|s.ops| - 1] == SampleBatch(s.finalized)
    ensures Safe(s.(finalized := [], delivered := s.delivered + Deliveries(s.finalized, |s.ops|)), start)
  {
    hide RowsOk, Run, Results;
    ResultsAppend(s.delivered, s.finalized, |s.ops|);
  }

  lemma FlushedKeepsSafe(s: State, a: BatchAccess, start: seq<Row>)
    requires Safe(s, start)
    ensures Safe(Flushed(s, a), start) && |Flushed(s, a).finalized| <= |s.finalized|
    ensures Flushed(s, a).attempts == s.attempts
    ensures a.lock == Granted ==> Flushed(s, a).finalized == []
  {
    hide Safe, Batch, Foreign;
    var t := Foreign(s, a.others);
    WritesKeepSafe(s, a.others, start);
    ForeignKeepsQueues(s, a.others);
    if a.lock != TimedOut {
      OneWrite(t, SampleBatch(t.finalized));
      WritesKeepSafe(t, [SampleBatch(t.finalized)], start);
      if a.lock == Granted {
        AcknowledgedKeepsSafe(Committed(t), start);
      }
    }
  }

  lemma SampledOneKeepsSafe(s: State, c: Due, q: Quote, start: seq<Row>)
    requires Safe(s, start)
    ensures var t := SampledOne(s, c, q);
            Safe(t, start) && |t.finalized| + |t.attempts| <= |s.finalized| + |s.attempts| + 1
    ensures (q.answer.QuoteFailed? ==> q.answer.access.granted) ==> SampledOne(s, c, q).attempts == s.attempts
  {
    hide Safe, Counted, Foreign, CountFate;
    forall u, f | Safe(u, start)
      ensures Safe(Fated(u, f), start)
    {
      RecordsDoNotDecide(u, u.scans, u.fates + [f], u.retries, start);
    }
    if Missed(q.attemptedAt, c.target) {
      FinalizeKeepsSafe(s, NoProceeds(c, HorizonMissed, q.attemptedAt), start);
    } else {
      match q.answer
      case Quoted(proceeds) =>
        FinalizeKeepsSafe(s, NoProceeds(c, HorizonMissed, q.answeredAt), start);
        FinalizeKeepsSafe(s, SampleResult(c.id, Sample(c.horizon, Some(proceeds), None, q.answeredAt)), start);
      case NoRoute(e) =>
        FinalizeKeepsSafe(s, NoProceeds(c, e, q.answeredAt), start);
      case QuoteFailed(e, access) =>
        var t := Foreign(s, access.others);
        var item := PendingAttempt(c.id, c.horizon, c.target, e, q.answeredAt);
        WritesKeepSafe(s, access.others, start);
        ForeignKeepsQueues(s, access.others);
        CountedKeepsSafe(t, item, start);
        QueuesDoNotDecide(t, t.attempts + [item], start);
    }
  }

  lemma {:induction false} SampledAllKeepsSafe(s: State, due: seq<Due>, env: nat -> Quote, n: nat, start: seq<Row>)
    requires n <= |due| && Safe(s, start)
    ensures var t := SampledAll(s, due, env, n);
            Safe(t, start) && |t.finalized| + |t.attempts| <= |s.finalized| + |s.attempts| + |due| - n
    ensures (forall k :: env(k).answer.QuoteFailed? ==> env(k).answer.access.granted) ==>
              SampledAll(s, due, env, n).attempts == s.attempts
    decreases |due| - n
  {
    if n < |due| {
      hide Safe, SampledOne;
      SampledOneKeepsSafe(s, due[n], env(n), start);
      SampledAllKeepsSafe(SampledOne(s, due[n], env(n)), due, env, n + 1, start);
    }
  }

  /** Every lock the tick asks for is granted. */
  ghost predicate Undisturbed(e: Tick) {
    && (forall n :: e.retry(n).granted) && e.scan.granted
    && e.backlog.lock == Granted && e.batch.lock == Granted
    && forall n :: e.quote(n).answer.QuoteFailed? ==> e.quote(n).answer.access.granted
  }

  lemma {:induction false} GrantedRetriesFinish(s: State, items: seq<PendingAttempt>, env: nat -> Access, n: nat)
    requires n <= |items| && s.attempts == [] && forall k :: env(k).granted
    ensures Retried(s, items, env, n).attempts == []
    decreases |items| - n
  {
    if n < |items| {
      hide Foreign, Noted;
      var t := Foreign(s, env(n).others);
      ForeignKeepsQueues(s, env(n).others);
      assert Recounted(t, items[n]).attempts == [];
      GrantedRetriesFinish(Recounted(t, items[n]), items, env, n + 1);
    }
  }

  lemma ScannedKeepsSafe(s: State, e: Tick, start: seq<Row>)
    requires Safe(s, start) && s.finalized == [] && s.attempts == []
    ensures Safe(Scanned(s, e), start) && |Scanned(s, e).finalized| + |Scanned(s, e).attempts| <= SAMPLE_BATCH_SIZE
    ensures Undisturbed(e) ==> Scanned(s, e).finalized == [] && Scanned(s, e).attempts == []
  {
    hide Safe, Foreign, SampledAll, Flushed, DueSamples;
    var t := Foreign(s, e.scan.others);
    WritesKeepSafe(s, e.scan.others, start);
    ForeignKeepsQueues(s, e.scan.others);
    var due := DueSamples(t.rows, e.now);
    DueFitsBatch(t.rows, e.now);
    var u := t.(scans := t.scans + Scans(due, e.quote));
    RecordsDoNotDecide(t, u.scans, t.fates, t.retries, start);
    SampledAllKeepsSafe(u, due, e.quote, 0, start);
    FlushedKeepsSafe(SampledAll(u, due, e.quote, 0), e.batch, start);
  }

  ghost predicate Inv(s: State, start: seq<Row>) {
    Safe(s, start) && |s.finalized| + |s.attempts| <= SAMPLE_BATCH_SIZE
  }

  lemma TickKeepsInv(s: State, e: Tick, start: seq<Row>)
    requires Inv(s, start)
    ensures Inv(Ticked(s, e), start)
    ensures Undisturbed(e) ==> Ticked(s, e).finalized == [] && Ticked(s, e).attempts == []
  {
    hide Safe, Retried, Flushed, Scanned;
    QueuesDoNotDecide(s, [], start);
    RetriedKeepsSafe(s.(attempts := []), s.attempts, e.retry, 0, start);
    if Undisturbed(e) {
      GrantedRetriesFinish(s.(attempts := []), s.attempts, e.retry, 0);
    }
    var a := AfterRetries(s, e);
    if a.attempts == [] {
      FlushedKeepsSafe(a, e.backlog, start);
      var b := AfterBacklog(a, e);
      if b.finalized == [] && s.attempts == [] {
        ScannedKeepsSafe(b, e, start);
      }
    }
  }

  function Ticks(s: State, es: seq<Tick>): State
    decreases |es|
  {
    if es == [] then s else Ticks(Ticked(s, es[0]), es[1..])
  }

  lemma {:induction false} TicksKeepInv(s: State, es: seq<Tick>, start: seq<Row>)
    requires Inv(s, start)
    ensures Inv(Ticks(s, es), start)
    decreases |es|
  {
    if es != [] {
      hide Inv, Ticked;
      TickKeepsInv(s, es[0], start);
      TicksKeepInv(Ticked(s, es[0]), es[1..], start);
    }
  }

  /**
   The sample went into the document with write `d.writes`, which left it settled, and it is settled still
   unless a later write restarted its observation in the document that write found.
   */
  ghost predicate Stored(start: seq<Row>, s: State, d: Delivery) {
    && Written(s.ops, d)
    && Settled(Run(start, s.ops[..d.writes]), d.result)
    && (Settled(s.rows, d.result) || RestartedSince(start, s.ops, d.writes, d.result.id))
  }

  lemma {:induction false} WrittenIsStored(s: State, start: seq<Row>, d: Delivery)
    requires Safe(s, start) && d in s.delivered
    ensures Stored(start, s, d)
  {
    hide RowsOk, Run, Settled, Apply;
    var n := d.writes - 1;
    assert Written(s.ops, d);
    NoHorizonIsSampledTwice(start, s.ops[..n]);
    BatchKeepsRows(Run(start, s.ops[..n]), s.ops[n].xs);
    RunOneMore(start, s.ops, n);
    assert Apply(Run(start, s.ops[..n]), s.ops[n]) == Batch(Run(start, s.ops[..n]), s.ops[n].xs) by {
      BatchIsApplied(Run(start, s.ops[..n]), s.ops[n].xs);
    }
    SettledOrRestarted(start, s.ops, d.writes, |s.ops|, d.result);
    assert s.ops[..|s.ops|] == s.ops;
  }

  lemma BatchIsApplied(rows: seq<Row>, xs: seq<SampleResult>)
    ensures Apply(rows, SampleBatch(xs)) == Batch(rows, xs)
  {
  }

  ghost predicate IsStored(start: seq<Row>, s: State, x: SampleResult) {
    exists d :: d in s.delivered && d.result == x && Stored(start, s, d)
  }

  /**
   Through any run, with any lock timeouts and any writes by other processes in between: at most twenty
   items are queued, no horizon is ever stored twice, and every sample the observer finalized is still
   queued, or went into the document with an acknowledged batch write after which it could change nothing
   any more, and still cannot unless a later write restarted its observation.
   */
  lemma NothingFinalizedIsLost(rows: seq<Row>, es: seq<Tick>)
    requires RowsOk(rows)
    ensures var s := Ticks(Begin(rows), es);
            && |s.finalized| + |s.attempts| <= SAMPLE_BATCH_SIZE
            && RowsOk(s.rows) && s.rows == Run(rows, s.ops)
            && multiset(s.produced) == multiset(s.finalized) + multiset(Results(s.delivered))
            && (forall d :: d in s.delivered ==> Stored(rows, s, d))
            && forall x :: x in s.produced ==> x in s.finalized || IsStored(rows, s, x)
  {
    hide RowsOk, Stored, Ticks, Run;
    var start := Begin(rows);
    var s := Ticks(start, es);
    StartIsSafe(rows);
    TicksKeepInv(start, es, rows);
    NoHorizonIsSampledTwice(rows, s.ops);
    forall d | d in s.delivered
      ensures Stored(rows, s, d)
    {
      WrittenIsStored(s, rows, d);
    }
    forall x | x in s.produced
      ensures x in s.finalized || IsStored(rows, s, x)
    {
      assert x in multiset(s.produced);
      if x !in s.finalized {
        assert x in Results(s.delivered);
        var i :| 0 <= i < |s.delivered| && Results(s.delivered)[i] == x;
        assert s.delivered[i] in s.delivered;
      }
    }
  }

  lemma StartIsSafe(rows: seq<Row>)
    requires RowsOk(rows)
    ensures Inv(Begin(rows), rows)
  {
  }

  /** Lock contention does not wedge the loop: one undisturbed tick empties both queues. */
  lemma UndisturbedTickDrains(rows: seq<Row>, es: seq<Tick>, e: Tick)
    requires RowsOk(rows) && Undisturbed(e)
    ensures var s := Ticked(Ticks(Begin(rows), es), e); s.finalized == [] && s.attempts == []
  {
    hide RowsOk, Ticks, Ticked, Undisturbed;
    var s := Begin(rows);
    StartIsSafe(rows);
    TicksKeepInv(s, es, rows);
    TickKeepsInv(Ticks(s, es), e, rows);
  }

  /**
   A flush that times out before its write leaves the queue as it was. One that times out after its commit has
   stored the whole queue, keeps it, and the next undisturbed flush empties it without changing the document.
   */
  lemma StalledFlushIsRepaired(s: State, others: seq<Op>, start: seq<Row>)
    requires Safe(s, start)
    ensures var t := Flushed(s, BatchAccess(others, TimedOut));
            t.rows == Run(s.rows, others) && t.finalized == s.finalized && t.delivered == s.delivered
    ensures var t := Flushed(s, BatchAccess(others, TimedOutAfterCommit));
            && t.finalized == s.finalized && t.delivered == s.delivered
            && (forall x :: x in s.finalized ==> Settled(t.rows, x))
            && var u := Flushed(t, BatchAccess([], Granted));
               u.rows == t.rows && u.finalized == [] && Results(u.delivered) == Results(t.delivered) + s.finalized
  {
    hide RowsOk, Settled, Batch;
    assert Run(s.rows, others) == Run(start, s.ops + others) by {
      RunConcat(start, s.ops, others);
    }
    NoHorizonIsSampledTwice(start, s.ops + others);
    BatchKeepsRows(Run(s.rows, others), s.finalized);
    var t := Flushed(s, BatchAccess(others, TimedOutAfterCommit));
    assert t.rows == Batch(Run(s.rows, others), s.finalized);
    SettledBatchAppliesNothing(t.rows, s.finalized);
    assert Run(t.rows, []) == t.rows;
    ResultsAppend(t.delivered, s.finalized, |t.ops| + 1);
    hide Run, Results;
    assert t.ops + [] == t.ops;
  }
}
