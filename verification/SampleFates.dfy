/**
 What the observer makes of every horizon it scans (src/observation_tracker.py): over whole runs, with any
 lock timeouts, each scanned pair has exactly one outcome, and it is the one its quote calls for.
 */
module SampleFates {
  import opened ObservationStore
  import opened DueSelection
  import opened ObserverLoop
  import opened Wrappers

  /** Times more than a minute after the target are late. */
  predicate Late(at: real, target: real) { at - target > 60.0 }

  /** The sample a fate settles its horizon with, if it does. */
  function SampleOf(f: Fate): Option<SampleResult> {
    match f
    case Final(x) => Some(x)
    case CountedAs(_, last) => last
    case Stalled(_) => None
  }

  /** The outcome that the answer to one scanned pair calls for. */
  predicate Fits(x: Scan, f: Fate) {
    var c, q := x.due, x.quote;
    var attempted := !Late(q.attemptedAt, c.target);
    var timely := attempted && !Late(q.answeredAt, c.target);
    && (f.Stalled? <==> attempted && q.answer.QuoteFailed? && !q.answer.access.granted)
    && (f.CountedAs? <==> attempted && q.answer.QuoteFailed? && q.answer.access.granted)
    && (f.CountedAs? ==> (f.last.None? <==> f.count < 3))
    && (f.Stalled? ==> f.item == PendingAttempt(c.id, c.horizon, c.target, q.answer.error, q.answeredAt))
    && (SampleOf(f).Some? ==>
          var r := SampleOf(f).value;
          && r.id == c.id && r.sample.horizon == c.horizon
          && r.sample.sampledAt == (if attempted then q.answeredAt else q.attemptedAt)
          && (timely && q.answer.Quoted? ==> r.sample.proceeds == Some(q.answer.proceeds) && r.sample.error == None)
          && (timely && !q.answer.Quoted? ==> r.sample.proceeds == None && r.sample.error == Some(q.answer.error))
          && (!timely ==> r.sample.proceeds == None && r.sample.error == Some(HorizonMissed)))
  }

  /** A stalled attempt is final once counted three times, with its error unless its answer was late. */
  predicate RetryFits(x: Retry) {
    var a := x.item;
    && x.fate.CountedAs?
    && x.fate.last == if x.fate.count < 3 then None
                      else Some(SampleResult(a.id, Sample(a.horizon, None,
                                  Some(if Late(a.sampledAt, a.target) then HorizonMissed else a.error), a.sampledAt)))
  }

  function Samples(fs: seq<Fate>): multiset<SampleResult> {
    if fs == [] then multiset{}
    else
      var last := SampleOf(fs[|fs| - 1]);
      Samples(fs[..|fs| - 1]) + if last.Some? then multiset{last.value} else multiset{}
  }

  function StalledItems(fs: seq<Fate>): multiset<PendingAttempt> {
    if fs == [] then multiset{}
    else
      var last := fs[|fs| - 1];
      StalledItems(fs[..|fs| - 1]) + if last.Stalled? then multiset{last.item} else multiset{}
  }

  function Fates(rs: seq<Retry>): seq<Fate> {
    seq(|rs|, i requires 0 <= i < |rs| => rs[i].fate)
  }

  function Items(rs: seq<Retry>): seq<PendingAttempt> {
    seq(|rs|, i requires 0 <= i < |rs| => rs[i].item)
  }

  /** `left` are the stalled attempts a tick has taken out of the queue and not counted yet. */
  ghost predicate Traced(s: State, left: seq<PendingAttempt>) {
    && |s.fates| <= |s.scans|
    && (forall i :: 0 <= i < |s.fates| ==> Fits(s.scans[i], s.fates[i]))
    && (forall i :: 0 <= i < |s.retries| ==> RetryFits(s.retries[i]))
    && multiset(s.produced) == Samples(s.fates) + Samples(Fates(s.retries))
    && StalledItems(s.fates) == multiset(s.attempts) + multiset(left) + multiset(Items(s.retries))
  }

  // ----- One outcome more -----

  lemma OneFateMore(fs: seq<Fate>, f: Fate)
    ensures Samples(fs + [f]) ==
            Samples(fs) + if SampleOf(f).Some? then multiset{SampleOf(f).value} else multiset{}
    ensures StalledItems(fs + [f]) == StalledItems(fs) + if f.Stalled? then multiset{f.item} else multiset{}
  {
    assert (fs + [f])[..|fs|] == fs;
  }

  /** The pair scanned next gets fate `f`, which finalizes `xs` and queues `stalled`. */
  lemma FateKeepsTraced(s: State, f: Fate, xs: seq<SampleResult>, stalled: seq<PendingAttempt>, t: State)
    requires Traced(s, []) && |s.fates| < |s.scans| && Fits(s.scans[|s.fates|], f)
    requires xs == if SampleOf(f).Some? then [SampleOf(f).value] else []
    requires stalled == if f.Stalled? then [f.item] else []
    requires t.scans == s.scans && t.retries == s.retries && t.fates == s.fates + [f]
    requires t.produced == s.produced + xs && t.attempts == s.attempts + stalled
    ensures Traced(t, [])
  {
    hide Fits, RetryFits, Samples, StalledItems;
    OneFateMore(s.fates, f);
  }

  lemma SampledOneFits(s: State, c: Due, q: Quote)
    ensures var t := SampledOne(s, c, q);
            && |t.fates| == |s.fates| + 1 && Fits(Scan(c, q), t.fates[|s.fates|])
  {
    hide Attempted, Run;
  }

  lemma SampledOneRecords(s: State, c: Due, q: Quote)
    ensures var t := SampledOne(s, c, q);
            && t.scans == s.scans && t.retries == s.retries
            && t.fates != [] && t.fates == s.fates + [t.fates[|t.fates| - 1]]
            && var f := t.fates[|t.fates| - 1];
               && t.produced == s.produced + (if SampleOf(f).Some? then [SampleOf(f).value] else [])
               && t.attempts == s.attempts + (if f.Stalled? then [f.item] else [])
  {
    hide Attempted, Run, GivenUp, NoProceeds, Missed;
  }

  lemma SampledOneKeepsTraced(s: State, c: Due, q: Quote)
    requires Traced(s, []) && |s.fates| < |s.scans| && s.scans[|s.fates|] == Scan(c, q)
    ensures var t := SampledOne(s, c, q);
            Traced(t, []) && t.scans == s.scans && |t.fates| == |s.fates| + 1
  {
    hide Traced, SampledOne, Fits, SampleOf;
    SampledOneFits(s, c, q);
    SampledOneRecords(s, c, q);
    var t := SampledOne(s, c, q);
    var f := t.fates[|s.fates|];
    var finals := if SampleOf(f).Some? then [SampleOf(f).value] else [];
    FateKeepsTraced(s, f, finals, if f.Stalled? then [f.item] else [], t);
  }

  /** The pairs scanned before this batch are the first `base`. */
  lemma {:induction false} SampledAllKeepsTraced(s: State, due: seq<Due>, env: nat -> Quote, n: nat, base: nat)
    requires n <= |due| && Traced(s, []) && |s.fates| == base + n && |s.scans| == base + |due|
    requires forall k :: 0 <= k < |due| ==> s.scans[base + k] == Scan(due[k], env(k))
    ensures var t := SampledAll(s, due, env, n);
            Traced(t, []) && t.scans == s.scans && |t.fates| == |t.scans|
    decreases |due| - n
  {
    hide Traced, SampledOne;
    if n < |due| {
      assert s.scans[base + n] == Scan(due[n], env(n));
      SampledOneKeepsTraced(s, due[n], env(n));
      var t := SampledOne(s, due[n], env(n));
      SampledAllKeepsTraced(t, due, env, n + 1, base);
    }
  }

  // ----- Everything else -----

  /** Writes of the document and deliveries leave the records alone. */
  lemma RecordsAloneDecide(s: State, t: State, left: seq<PendingAttempt>)
    requires Traced(s, left) && t.scans == s.scans && t.fates == s.fates && t.retries == s.retries
    requires t.produced == s.produced && t.attempts == s.attempts
    ensures Traced(t, left)
  {
  }

  lemma RetryRecords(s: State, a: PendingAttempt)
    ensures var t := Recounted(s, a);
            && t.scans == s.scans && t.fates == s.fates && t.attempts == s.attempts
            && t.retries == s.retries + [Retry(a, CountFate(s, a))] && RetryFits(Retry(a, CountFate(s, a)))
            && var last := CountFate(s, a).last;
               t.produced == s.produced + if last.Some? then [last.value] else []
  {
    hide Attempted;
  }

  lemma RetryKeepsTraced(s: State, a: PendingAttempt, left: seq<PendingAttempt>)
    requires Traced(s, [a] + left)
    ensures Traced(Recounted(s, a), left)
    ensures Recounted(s, a).fates == s.fates && Recounted(s, a).scans == s.scans
    ensures Recounted(s, a).attempts == s.attempts
  {
    hide Fits, RetryFits, Samples, StalledItems, Recounted, CountFate;
    var t := Recounted(s, a);
    var fate := CountFate(s, a);
    RetryRecords(s, a);
    assert SampleOf(fate) == fate.last by {
      assert RetryFits(Retry(a, fate));
      CountedSample(Retry(a, fate));
    }
    OneFateMore(Fates(s.retries), fate);
    assert Fates(t.retries) == Fates(s.retries) + [fate];
    assert Items(t.retries) == Items(s.retries) + [a];
  }

  lemma CountedSample(x: Retry)
    requires RetryFits(x)
    ensures x.fate.CountedAs? && SampleOf(x.fate) == x.fate.last
  {
  }

  lemma {:induction false} RetriedKeepsTraced(s: State, items: seq<PendingAttempt>, env: nat -> Access, n: nat)
    requires n <= |items| && Traced(s, items[n..]) && s.attempts == []
    ensures var t := Retried(s, items, env, n);
            Traced(t, []) && t.fates == s.fates && t.scans == s.scans
    decreases |items| - n
  {
    hide Traced, Recounted;
    RetriedUnfolds(s, items, env, n);
    hide Retried;
    if n < |items| {
      var t := Foreign(s, env(n).others);
      RecordsAloneDecide(s, t, items[n..]);
      if env(n).granted {
        assert items[n..] == [items[n]] + items[n + 1..];
        RetryKeepsTraced(t, items[n], items[n + 1..]);
        RetriedKeepsTraced(Recounted(t, items[n]), items, env, n + 1);
      } else {
        PutBack(t, items[n..]);
      }
    } else {
      assert items[n..] == [];
    }
  }

  lemma PutBack(s: State, left: seq<PendingAttempt>)
    requires Traced(s, left)
    ensures Traced(s.(attempts := s.attempts + left), [])
  {
    hide Fits, RetryFits, Samples, StalledItems;
  }

  lemma TakeOut(s: State)
    requires Traced(s, [])
    ensures Traced(s.(attempts := []), s.attempts[0..])
  {
    hide Fits, RetryFits, Samples, StalledItems;
    assert s.attempts[0..] == s.attempts;
  }

  lemma FlushedKeepsTraced(s: State, a: BatchAccess)
    requires Traced(s, [])
    ensures Traced(Flushed(s, a), []) && Flushed(s, a).fates == s.fates && Flushed(s, a).scans == s.scans
  {
    hide Traced, Batch, Run;
    RecordsAloneDecide(s, Flushed(s, a), []);
  }

  lemma ScannedKeepsTraced(s: State, e: Tick)
    requires Traced(s, []) && |s.fates| == |s.scans|
    ensures Traced(Scanned(s, e), []) && |Scanned(s, e).fates| == |Scanned(s, e).scans|
    ensures Scanned(s, e).scans ==
            s.scans + if e.scan.granted then Scans(DueSamples(Run(s.rows, e.scan.others), e.now), e.quote) else []
  {
    hide Traced, SampledAll, Flushed, DueSamples, Run;
    var t := Foreign(s, e.scan.others);
    RecordsAloneDecide(s, t, []);
    if e.scan.granted {
      var due := DueSamples(t.rows, e.now);
      var u := t.(scans := t.scans + Scans(due, e.quote));
      assert |u.scans| == |t.scans| + |due|;
      assert forall k :: 0 <= k < |due| ==> u.scans[|t.scans| + k] == Scan(due[k], e.quote(k));
      MoreScans(t, u.scans);
      hide Foreign, Scans;
      SampledAllKeepsTraced(u, due, e.quote, 0, |t.scans|);
      FlushedKeepsTraced(SampledAll(u, due, e.quote, 0), e.batch);
    }
  }

  lemma MoreScans(s: State, scans: seq<Scan>)
    requires Traced(s, []) && s.scans <= scans
    ensures Traced(s.(scans := scans), [])
  {
    hide Fits, RetryFits, Samples, StalledItems;
  }

  lemma TickKeepsTraced(s: State, e: Tick)
    requires Traced(s, []) && |s.fates| == |s.scans|
    ensures Traced(Ticked(s, e), []) && |Ticked(s, e).fates| == |Ticked(s, e).scans|
  {
    hide Traced, Retried, Flushed, Scanned;
    TakeOut(s);
    RetriedKeepsTraced(s.(attempts := []), s.attempts, e.retry, 0);
    var a := AfterRetries(s, e);
    if a.attempts == [] {
      FlushedKeepsTraced(a, e.backlog);
      var b := AfterBacklog(a, e);
      if b.finalized == [] && s.attempts == [] {
        ScannedKeepsTraced(b, e);
      }
    }
  }

  lemma {:induction false} TicksKeepTraced(s: State, es: seq<Tick>)
    requires Traced(s, []) && |s.fates| == |s.scans|
    ensures Traced(Ticks(s, es), []) && |Ticks(s, es).fates| == |Ticks(s, es).scans|
    decreases |es|
  {
    if es != [] {
      hide Traced, Ticked;
      TickKeepsTraced(s, es[0]);
      TicksKeepTraced(Ticked(s, es[0]), es[1..]);
    }
  }

  // ----- Over every run -----

  /**
   Through any run every pair ever scanned has exactly one outcome, the one its quote calls for. What was
   finalized is exactly the samples of these outcomes and of later retries, each as often as it occurs, and
   every stalled attempt is still queued or was counted exactly once by a retry.
   */
  lemma EveryScanHasItsOutcome(rows: seq<Row>, es: seq<Tick>)
    ensures var s := Ticks(Begin(rows), es);
            && |s.fates| == |s.scans|
            && (forall i :: 0 <= i < |s.scans| ==> Fits(s.scans[i], s.fates[i]))
            && (forall i :: 0 <= i < |s.retries| ==> RetryFits(s.retries[i]))
            && multiset(s.produced) == Samples(s.fates) + Samples(Fates(s.retries))
            && StalledItems(s.fates) == multiset(s.attempts) + multiset(Items(s.retries))
  {
    hide Fits, RetryFits, Ticks;
    TicksKeepTraced(Begin(rows), es);
  }

  /**
   A scanned pair settled at once or at its third count has a price exactly when its quote was attempted and
   answered with one within the minute, and says that the horizon was missed whenever either came later.
   */
  lemma PricesAreTimelyQuotes(rows: seq<Row>, es: seq<Tick>, i: nat)
    requires i < |Ticks(Begin(rows), es).scans|
    ensures var s := Ticks(Begin(rows), es);
            i < |s.fates| &&
            (SampleOf(s.fates[i]).Some? ==>
               var c, q, r := s.scans[i].due, s.scans[i].quote, SampleOf(s.fates[i]).value.sample;
               var late := q.attemptedAt - c.target > 60.0 || q.answeredAt - c.target > 60.0;
               && (r.proceeds.Some? <==> !late && q.answer.Quoted?)
               && (r.proceeds.Some? ==> r.proceeds.value == q.answer.proceeds)
               && (r.error == None <==> r.proceeds.Some?)
               && (late ==> r.error == Some(HorizonMissed))
               && (!late && !q.answer.Quoted? ==> r.error == Some(q.answer.error)))
  {
    hide Ticks;
    EveryScanHasItsOutcome(rows, es);
    assert Fits(Ticks(Begin(rows), es).scans[i], Ticks(Begin(rows), es).fates[i]);
  }

  /** With nothing queued and the lock granted, a tick scans exactly the due pairs of the document as it is then. */
  lemma IdleTickScansTheDue(s: State, e: Tick)
    requires Traced(s, []) && |s.fates| == |s.scans|
    requires s.attempts == [] && s.finalized == [] && e.scan.granted
    ensures var due := DueSamples(Run(s.rows, e.scan.others), e.now);
            var t := Ticked(s, e);
            && |t.scans| == |s.scans| + |due| && s.scans <= t.scans
            && forall k :: 0 <= k < |due| ==> t.scans[|s.scans| + k] == Scan(due[k], e.quote(k))
  {
    hide Traced, Scanned, DueSamples, Run, Flushed, AfterRetries;
    NothingToRetry(s, e);
    assert Ticked(s, e) == Scanned(s, e);
    hide Ticked;
    ScannedKeepsTraced(s, e);
  }
}
