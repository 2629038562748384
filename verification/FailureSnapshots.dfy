/**
 The bounded memory-failure document (src/failure_memory_diagnostics.py): per process the youngest events,
 a few baselines, and three slots with the freshest snapshot of each kind, which must survive every
 truncation, retry and size reduction of the row.
 */
module FailureSnapshots {
  import opened Wrappers

  const CRITICAL_BYTES: nat := 262_144_000
  const MAX_PROCESSES: nat := 8
  const MAX_EVENTS: nat := 48
  const MAX_BASELINES: nat := 8

  type Id = nat

  /** `timestamp` and `elapsed` are absent when not a finite non-negative number; `content` orders the JSON text. */
  datatype Event = Event(
    process: Id, wellFormed: bool, timestamp: Option<real>, sequence: int, elapsed: Option<real>, content: nat,
    baseline: bool, rss: Option<nat>, hwm: Option<nat>, hwmPeak: bool)

  datatype Key = Key(timestamp: real, sequence: nat, elapsed: real, content: nat)

  function SnapshotKey(e: Event): Option<Key> {
    if e.timestamp.None? then None
    else Some(Key(e.timestamp.value, if e.sequence >= 0 then e.sequence else 0,
                  if e.elapsed.Some? then e.elapsed.value else 0.0, e.content))
  }

  predicate KeyBelow(a: Key, b: Key) {
    a.timestamp < b.timestamp
    || (a.timestamp == b.timestamp
        && (a.sequence < b.sequence
            || (a.sequence == b.sequence
                && (a.elapsed < b.elapsed || (a.elapsed == b.elapsed && a.content < b.content)))))
  }

  predicate Usable(e: Event) { SnapshotKey(e).Some? && e.wellFormed }

  /** Strictly fresher; events without a key are never fresher. */
  predicate Fresher(a: Event, b: Event) {
    SnapshotKey(a).Some? && (SnapshotKey(b).None? || KeyBelow(SnapshotKey(b).value, SnapshotKey(a).value))
  }

  datatype Slot = LatestRss | LatestCritical | LatestHwm

  predicate Eligible(e: Event, s: Slot) {
    match s
    case LatestRss => e.rss.Some?
    case LatestCritical => e.rss.Some? && e.rss.value >= CRITICAL_BYTES
    case LatestHwm => e.hwmPeak && e.hwm.Some?
  }

  datatype Process = Process(id: Id, events: seq<Event>, baselines: seq<Event>, latest: map<Slot, Event>)

  // ----- Sorting -----

  function Insert<T>(xs: seq<T>, x: T, above: (T, T) -> bool): seq<T> {
    if xs == [] || !above(xs[|xs| - 1], x) then xs + [x]
    else Insert(xs[..|xs| - 1], x, above) + [xs[|xs| - 1]]
  }

  /** A stable sort: an element moves only below elements strictly above it. */
  function Sort<T>(xs: seq<T>, above: (T, T) -> bool): seq<T> {
    if xs == [] then [] else Insert(Sort(xs[..|xs| - 1], above), xs[|xs| - 1], above)
  }

  // ----- The document -----

  function Keyed(es: seq<Event>): seq<Event> {
    if es == [] then []
    else Keyed(es[..|es| - 1]) + if SnapshotKey(es[|es| - 1]).Some? then [es[|es| - 1]] else []
  }

  function Ranked(es: seq<Event>): seq<Event> { Sort(Keyed(es), Fresher) }

  /** Offer one candidate to every slot. */
  function Note(m: map<Slot, Event>, e: Event): map<Slot, Event> {
    map s: Slot | s in m || Eligible(e, s) :: if Eligible(e, s) && (s !in m || Fresher(e, m[s])) then e else m[s]
  }

  function LatestOf(cs: seq<Event>): map<Slot, Event> {
    if cs == [] then map[] else Note(LatestOf(cs[..|cs| - 1]), cs[|cs| - 1])
  }

  function SlotEvents(m: map<Slot, Event>): seq<Event> {
    Keyed((if LatestRss in m then [m[LatestRss]] else [])
          + (if LatestCritical in m then [m[LatestCritical]] else [])
          + if LatestHwm in m then [m[LatestHwm]] else [])
  }

  function Candidates(p: Process): seq<Event> { Ranked(p.events) + Ranked(p.baselines) + SlotEvents(p.latest) }

  function Tail<T>(xs: seq<T>, n: nat): seq<T> { if |xs| <= n then xs else xs[|xs| - n..] }

  /** The first baseline and the last seven. */
  function SomeBaselines(bs: seq<Event>): seq<Event> {
    if |bs| > MAX_BASELINES then bs[..1] + Tail(bs, MAX_BASELINES - 1) else bs
  }

  function Refreshed(p: Process): Process {
    Process(p.id, Tail(Ranked(p.events), MAX_EVENTS), SomeBaselines(Ranked(p.baselines)), LatestOf(Candidates(p)))
  }

  function Freshest(cs: seq<Event>): Event
    requires cs != []
  {
    if |cs| == 1 then cs[0]
    else if Fresher(cs[|cs| - 1], Freshest(cs[..|cs| - 1])) then cs[|cs| - 1]
    else Freshest(cs[..|cs| - 1])
  }

  function IndexOf(ps: seq<Process>, id: Id): (i: nat)
    ensures i <= |ps| && (i < |ps| ==> ps[i].id == id)
    ensures forall k :: 0 <= k < i ==> ps[k].id != id
  {
    if ps == [] then 0 else if ps[0].id == id then 0 else 1 + IndexOf(ps[1..], id)
  }

  function WithEvent(p: Process, e: Event): (q: Process)
    ensures q.id == p.id && q.latest == p.latest
  {
    if e.baseline then p.(baselines := p.baselines + [e]) else p.(events := p.events + [e])
  }

  function Added(ps: seq<Process>, e: Event): seq<Process> {
    if !Usable(e) then ps
    else
      var i := IndexOf(ps, e.process);
      var qs := if i == |ps| then ps + [Process(e.process, [], [], map[])] else ps;
      qs[i := WithEvent(qs[i], e)]
  }

  function AllAdded(ps: seq<Process>, batch: seq<Event>): seq<Process> {
    if batch == [] then ps else Added(AllAdded(ps, batch[..|batch| - 1]), batch[|batch| - 1])
  }

  /** A refreshed row together with the freshness of its best candidate. */
  datatype Rank = Rank(best: Event, row: Process)

  predicate RankAbove(a: Rank, b: Rank) {
    Fresher(a.best, b.best) || (!Fresher(b.best, a.best) && a.row.id > b.row.id)
  }

  function Ranks(ps: seq<Process>): seq<Rank> {
    if ps == [] then []
    else
      var p := ps[|ps| - 1];
      Ranks(ps[..|ps| - 1]) + if Candidates(p) == [] then [] else [Rank(Freshest(Candidates(p)), Refreshed(p))]
  }

  function Rows(rs: seq<Rank>): seq<Process> { seq(|rs|, i requires 0 <= i < |rs| => rs[i].row) }

  function KeptRows(ps: seq<Process>): seq<Process> { Rows(Tail(Sort(Ranks(ps), RankAbove), MAX_PROCESSES)) }

  // ----- Fitting the document into its size -----

  type Measure = seq<Process> -> nat

  function Weight(ps: seq<Process>): nat {
    if ps == [] then 0 else Weight(ps[..|ps| - 1]) + |ps[|ps| - 1].events| + |ps[|ps| - 1].baselines| + 1
  }

  function Halved(es: seq<Event>): seq<Event> {
    if |es| <= 1 then es else es[if |es| / 2 > 1 then |es| / 2 else 1..]
  }

  function EventsHalved(ps: seq<Process>): seq<Process> {
    seq(|ps|, i requires 0 <= i < |ps| => ps[i].(events := Halved(ps[i].events)))
  }

  function FirstWithBaselines(ps: seq<Process>): (i: nat)
    ensures i <= |ps| && (i < |ps| ==> |ps[i].baselines| > 1)
    ensures i == |ps| ==> forall k :: 0 <= k < |ps| ==> |ps[k].baselines| <= 1
  {
    if ps == [] then 0 else if |ps[0].baselines| > 1 then 0 else 1 + FirstWithBaselines(ps[1..])
  }

  predicate SomeEvents(ps: seq<Process>) { exists i :: 0 <= i < |ps| && |ps[i].events| > 1 }

  /** One reduction of a document that is still too large, if any is left. */
  function Reduced(ps: seq<Process>): Option<seq<Process>> {
    var i := FirstWithBaselines(ps);
    if SomeEvents(ps) then Some(EventsHalved(ps))
    else if i < |ps| then
      var bs := ps[i].baselines;
      Some(ps[i := ps[i].(baselines := bs[..1] + bs[2..])])
    else if |ps| > 1 then Some(ps[1..])
    else None
  }

  lemma {:induction false} HalvingShrinks(ps: seq<Process>)
    ensures Weight(EventsHalved(ps)) <= Weight(ps)
    ensures SomeEvents(ps) ==> Weight(EventsHalved(ps)) < Weight(ps)
  {
    if ps != [] {
      var n := |ps| - 1;
      HalvingShrinks(ps[..n]);
      assert EventsHalved(ps)[..n] == EventsHalved(ps[..n]);
      if SomeEvents(ps) && |ps[n].events| <= 1 {
        var i :| 0 <= i < |ps| && |ps[i].events| > 1;
        assert |ps[..n][i].events| > 1;
      }
    }
  }

  lemma {:induction false} ReplacingChangesWeight(ps: seq<Process>, i: nat, q: Process)
    requires i < |ps|
    ensures Weight(ps[i := q]) - |q.events| - |q.baselines|
         == Weight(ps) - |ps[i].events| - |ps[i].baselines|
  {
    var n := |ps| - 1;
    if i < n {
      ReplacingChangesWeight(ps[..n], i, q);
      assert ps[i := q][..n] == ps[..n][i := q];
    } else {
      assert ps[i := q][..n] == ps[..n];
    }
  }

  lemma {:induction false} DroppingFirstShrinks(ps: seq<Process>)
    requires ps != []
    ensures Weight(ps[1..]) < Weight(ps)
  {
    if |ps| > 1 {
      assert ps[1..][..|ps| - 2] == ps[..|ps| - 1][1..];
      DroppingFirstShrinks(ps[..|ps| - 1]);
    }
  }

  /** The size-trimming loop terminates: every reduction removes an event, a baseline or a row. */
  lemma ReductionShrinks(ps: seq<Process>)
    ensures Reduced(ps).Some? ==> Weight(Reduced(ps).value) < Weight(ps)
  {
    hide Weight;
    HalvingShrinks(ps);
    hide SomeEvents, EventsHalved;
    var i := FirstWithBaselines(ps);
    if i < |ps| {
      var bs := ps[i].baselines;
      ReplacingChangesWeight(ps, i, ps[i].(baselines := bs[..1] + bs[2..]));
    }
    if |ps| > 1 {
      DroppingFirstShrinks(ps);
    }
  }

  function Fitted(ps: seq<Process>, size: Measure, limit: nat): Option<seq<Process>>
    decreases Weight(ps)
  {
    ReductionShrinks(ps);
    if size(ps) <= limit then Some(ps)
    else if Reduced(ps).None? then None
    else Fitted(Reduced(ps).value, size, limit)
  }

  /** One flush: None when the document cannot be made to fit, in which case nothing is written. */
  function Flushed(ps: seq<Process>, batch: seq<Event>, size: Measure, limit: nat): Option<seq<Process>> {
    Fitted(KeptRows(AllAdded(ps, batch)), size, limit)
  }

  // ----- Order laws -----

  lemma KeysAreOrdered(a: Key, b: Key, c: Key)
    ensures !KeyBelow(a, a)
    ensures KeyBelow(a, c) ==> KeyBelow(a, b) || KeyBelow(b, c)
    ensures KeyBelow(a, b) && KeyBelow(b, c) ==> KeyBelow(a, c)
  {
  }

  lemma FresherIsAnOrder(a: Event, b: Event, c: Event)
    ensures !Fresher(a, a)
    ensures Fresher(a, c) ==> Fresher(a, b) || Fresher(b, c)
    ensures Fresher(a, b) && Fresher(b, c) ==> Fresher(a, c)
  {
    hide SnapshotKey, KeyBelow;
    if SnapshotKey(a).Some? && SnapshotKey(b).Some? && SnapshotKey(c).Some? {
      KeysAreOrdered(SnapshotKey(c).value, SnapshotKey(b).value, SnapshotKey(a).value);
    }
    if SnapshotKey(a).Some? {
      KeysAreOrdered(SnapshotKey(a).value, SnapshotKey(a).value, SnapshotKey(a).value);
    }
  }

  // ----- What a slot means -----

  /** The slot holds an eligible event no eligible event of the list is fresher than, if there is any. */
  ghost predicate IsLatest(m: map<Slot, Event>, seen: seq<Event>, s: Slot) {
    if s in m then
      m[s] in seen && Eligible(m[s], s) && forall e :: e in seen && Eligible(e, s) ==> !Fresher(e, m[s])
    else forall e :: e in seen ==> !Eligible(e, s)
  }

  lemma {:induction false} FoldFindsLatest(cs: seq<Event>, s: Slot)
    ensures IsLatest(LatestOf(cs), cs, s)
  {
    if cs != [] {
      var rest, e := cs[..|cs| - 1], cs[|cs| - 1];
      FoldFindsLatest(rest, s);
      hide Fresher, Eligible, LatestOf;
      assert LatestOf(cs) == Note(LatestOf(rest), e) by { FoldUnfolds(cs); }
      assert cs == rest + [e];
      var m := LatestOf(rest);
      FresherIsAnOrder(e, e, e);
      if s in m {
        forall x | x in rest && Eligible(x, s)
          ensures Fresher(e, m[s]) ==> !Fresher(x, e)
        {
          FresherIsAnOrder(x, e, m[s]);
        }
      }
    }
  }

  lemma FoldUnfolds(cs: seq<Event>)
    requires cs != []
    ensures LatestOf(cs) == Note(LatestOf(cs[..|cs| - 1]), cs[|cs| - 1])
  {
  }

  /** Candidates that cover a list decide its slots. */
  lemma {:induction false} LatestTransfers(m: map<Slot, Event>, cs: seq<Event>, seen: seq<Event>, s: Slot)
    requires IsLatest(m, cs, s) && forall c :: c in cs ==> c in seen
    requires forall e :: e in seen && Eligible(e, s) ==> exists c :: c in cs && Eligible(c, s) && !Fresher(e, c)
    ensures IsLatest(m, seen, s)
  {
    hide Fresher, Eligible;
    if s in m {
      forall e | e in seen && Eligible(e, s)
        ensures !Fresher(e, m[s])
      {
        var c :| c in cs && Eligible(c, s) && !Fresher(e, c);
        FresherIsAnOrder(e, c, m[s]);
      }
    }
  }

  // ----- Membership through sorting and truncation -----

  lemma {:induction false} InsertHas<T>(xs: seq<T>, x: T, above: (T, T) -> bool, y: T)
    ensures y in Insert(xs, x, above) <==> y in xs || y == x
  {
    if xs != [] && above(xs[|xs| - 1], x) {
      InsertHas(xs[..|xs| - 1], x, above, y);
      assert xs == xs[..|xs| - 1] + [xs[|xs| - 1]];
    }
  }

  lemma {:induction false} SortHas<T>(xs: seq<T>, above: (T, T) -> bool, y: T)
    ensures y in Sort(xs, above) <==> y in xs
  {
    if xs != [] {
      hide Insert;
      SortHas(xs[..|xs| - 1], above, y);
      InsertHas(Sort(xs[..|xs| - 1], above), xs[|xs| - 1], above, y);
      assert xs == xs[..|xs| - 1] + [xs[|xs| - 1]];
    }
  }

  lemma {:induction false} KeyedHas(es: seq<Event>, y: Event)
    ensures y in Keyed(es) <==> y in es && SnapshotKey(y).Some?
  {
    if es != [] {
      hide SnapshotKey;
      KeyedHas(es[..|es| - 1], y);
      assert es == es[..|es| - 1] + [es[|es| - 1]];
    }
  }

  lemma RankedHas(es: seq<Event>, y: Event)
    ensures y in Ranked(es) <==> y in es && SnapshotKey(y).Some?
  {
    hide SnapshotKey, Keyed, Sort, Fresher;
    KeyedHas(es, y);
    SortHas(Keyed(es), Fresher, y);
  }

  lemma SlotEventsHave(m: map<Slot, Event>, y: Event)
    ensures y in SlotEvents(m) <==> SnapshotKey(y).Some? && exists s :: s in m && m[s] == y
  {
    hide SnapshotKey, Keyed;
    var all := (if LatestRss in m then [m[LatestRss]] else [])
      + (if LatestCritical in m then [m[LatestCritical]] else [])
      + if LatestHwm in m then [m[LatestHwm]] else [];
    KeyedHas(all, y);
    if s :| s in m && m[s] == y {
      assert s == LatestRss || s == LatestCritical || s == LatestHwm;
      var a := if LatestRss in m then [m[LatestRss]] else [];
      var b := if LatestCritical in m then [m[LatestCritical]] else [];
      var c := if LatestHwm in m then [m[LatestHwm]] else [];
      assert y in a || y in b || y in c;
      assert all == a + b + c;
    }
  }

  lemma CandidatesHave(p: Process, y: Event)
    ensures y in Candidates(p) <==>
            SnapshotKey(y).Some? && (y in p.events || y in p.baselines || exists s :: s in p.latest && p.latest[s] == y)
  {
    hide SnapshotKey, Ranked, SlotEvents;
    RankedHas(p.events, y);
    RankedHas(p.baselines, y);
    SlotEventsHave(p.latest, y);
  }

  // ----- One row -----

  /** The row is a true digest of all events flushed for its process since the row exists. */
  ghost predicate RowOk(p: Process, seen: seq<Event>) {
    && (forall e :: e in seen ==> Usable(e) && e.process == p.id)
    && (forall e :: e in p.events || e in p.baselines ==> e in seen)
    && forall s :: IsLatest(p.latest, seen, s)
  }

  /** The row after the batch was appended and before its slots are recomputed. */
  ghost predicate Grown(p: Process, seen: seq<Event>, batch: seq<Event>) {
    && (forall e :: e in seen + batch ==> Usable(e) && e.process == p.id)
    && (forall e :: e in p.events || e in p.baselines ==> e in seen + batch)
    && (forall e :: e in batch ==> e in p.events || e in p.baselines)
    && forall s :: IsLatest(p.latest, seen, s)
  }

  lemma CandidatesCover(p: Process, seen: seq<Event>, batch: seq<Event>, s: Slot, e: Event)
    requires Grown(p, seen, batch) && e in seen + batch && Eligible(e, s)
    ensures exists c :: c in Candidates(p) && Eligible(c, s) && !Fresher(e, c)
  {
    hide Candidates, Fresher, Eligible, SnapshotKey;
    FresherIsAnOrder(e, e, e);
    if e in batch {
      CandidatesHave(p, e);
    } else {
      assert IsLatest(p.latest, seen, s) && e in seen;
      var c := p.latest[s];
      assert c in seen + batch && Usable(c);
      CandidatesHave(p, c);
    }
  }

  lemma CandidatesSeen(p: Process, seen: seq<Event>, batch: seq<Event>, c: Event)
    requires Grown(p, seen, batch) && c in Candidates(p)
    ensures c in seen + batch
  {
    hide Candidates, Fresher, Eligible, SnapshotKey;
    CandidatesHave(p, c);
    if c !in p.events && c !in p.baselines {
      var s :| s in p.latest && p.latest[s] == c;
      assert IsLatest(p.latest, seen, s);
    }
  }

  lemma TruncationKeepsOnly(es: seq<Event>, e: Event)
    ensures e in Tail(Ranked(es), MAX_EVENTS) ==> e in es
    ensures e in SomeBaselines(Ranked(es)) ==> e in es
  {
    hide Ranked;
    RankedHas(es, e);
  }

  /** Recomputing the slots from the truncated row's candidates keeps them right for everything ever seen. */
  lemma RefreshKeepsRow(p: Process, seen: seq<Event>, batch: seq<Event>)
    requires Grown(p, seen, batch)
    ensures RowOk(Refreshed(p), seen + batch)
  {
    var q := Refreshed(p);
    forall s
      ensures IsLatest(q.latest, seen + batch, s)
    {
      hide Grown, IsLatest, Candidates, Fresher, Eligible, LatestOf;
      FoldFindsLatest(Candidates(p), s);
      forall c | c in Candidates(p)
        ensures c in seen + batch
      {
        CandidatesSeen(p, seen, batch, c);
      }
      forall e | e in seen + batch && Eligible(e, s)
        ensures exists c :: c in Candidates(p) && Eligible(c, s) && !Fresher(e, c)
      {
        CandidatesCover(p, seen, batch, s, e);
      }
      LatestTransfers(q.latest, Candidates(p), seen + batch, s);
    }
    forall e | e in q.events || e in q.baselines
      ensures e in seen + batch
    {
      hide IsLatest, Candidates, LatestOf, Usable, Ranked, SomeBaselines;
      TruncationKeepsOnly(p.events, e);
      TruncationKeepsOnly(p.baselines, e);
    }
  }

  // ----- The whole document -----

  predicate IdsDistinct(ps: seq<Process>) {
    forall i, j :: 0 <= i < j < |ps| ==> ps[i].id != ps[j].id
  }

  function Own(batch: seq<Event>, id: Id): seq<Event> {
    if batch == [] then []
    else
      Own(batch[..|batch| - 1], id)
      + if Usable(batch[|batch| - 1]) && batch[|batch| - 1].process == id then [batch[|batch| - 1]] else []
  }

  /** What was flushed for a process since its row exists; a row that was dropped starts anew. */
  type History = Id -> seq<Event>

  function Before(ps: seq<Process>, seen: History, id: Id): seq<Event> {
    if IndexOf(ps, id) < |ps| then seen(id) else []
  }

  function SeenAfter(ps: seq<Process>, seen: History, batch: seq<Event>): History {
    (id: Id) => Before(ps, seen, id) + Own(batch, id)
  }

  ghost predicate DocumentOk(ps: seq<Process>, seen: History) {
    IdsDistinct(ps) && forall i :: 0 <= i < |ps| ==> RowOk(ps[i], seen(ps[i].id))
  }

  ghost predicate RowsGrown(ps: seq<Process>, qs: seq<Process>, seen: History, batch: seq<Event>) {
    forall i :: 0 <= i < |qs| ==> Grown(qs[i], Before(ps, seen, qs[i].id), Own(batch, qs[i].id))
  }

  predicate Untouched(ps: seq<Process>, qs: seq<Process>, batch: seq<Event>, id: Id) {
    IndexOf(qs, id) == |qs| ==> IndexOf(ps, id) == |ps| && Own(batch, id) == []
  }

  ghost predicate AllGrown(ps: seq<Process>, qs: seq<Process>, seen: History, batch: seq<Event>) {
    IdsDistinct(qs) && RowsGrown(ps, qs, seen, batch) && forall id: Id :: Untouched(ps, qs, batch, id)
  }

  lemma {:induction false} EmptyRowGrown(id: Id)
    ensures Grown(Process(id, [], [], map[]), [], [])
  {
  }

  lemma {:induction false} OkIsGrown(p: Process, seen: seq<Event>)
    requires RowOk(p, seen)
    ensures Grown(p, seen, [])
  {
    hide IsLatest, Usable;
    assert seen + [] == seen;
  }

  lemma {:induction false} EventGrows(p: Process, seen: seq<Event>, batch: seq<Event>, e: Event)
    requires Grown(p, seen, batch) && Usable(e) && e.process == p.id
    ensures Grown(WithEvent(p, e), seen, batch + [e])
  {
    hide IsLatest, Usable;
    var q := WithEvent(p, e);
    forall x | x in seen + (batch + [e])
      ensures Usable(x) && x.process == p.id
    {
      assert x in seen + batch || x == e;
    }
    forall x | x in q.events || x in q.baselines
      ensures x in seen + (batch + [e])
    {
      if x != e {
        assert x in seen + batch;
      }
    }
  }

  lemma {:induction false} IndexIsUnique(ps: seq<Process>, i: nat)
    requires IdsDistinct(ps) && i < |ps|
    ensures IndexOf(ps, ps[i].id) == i
  {
  }

  lemma {:induction false} OwnUnfolds(batch: seq<Event>, e: Event, id: Id)
    ensures Own(batch + [e], id) == if Usable(e) && e.process == id then Own(batch, id) + [e] else Own(batch, id)
  {
    hide Usable;
    assert (batch + [e])[..|batch|] == batch;
  }

  lemma {:induction false} IndexAfterAppend(ps: seq<Process>, p: Process, id: Id)
    ensures IndexOf(ps + [p], id) ==
            if IndexOf(ps, id) < |ps| then IndexOf(ps, id) else if p.id == id then |ps| else |ps| + 1
  {
    FirstIndex(ps + [p], id, if IndexOf(ps, id) < |ps| then IndexOf(ps, id) else if p.id == id then |ps| else |ps| + 1);
  }

  lemma {:induction false} FirstIndex(ps: seq<Process>, id: Id, i: nat)
    requires i <= |ps| && (i < |ps| ==> ps[i].id == id) && forall k :: 0 <= k < i ==> ps[k].id != id
    ensures IndexOf(ps, id) == i
  {
  }

  lemma {:induction false} CreatedGrows(ps: seq<Process>, qs: seq<Process>, seen: History, batch: seq<Event>, id: Id)
    requires AllGrown(ps, qs, seen, batch) && IndexOf(qs, id) == |qs|
    ensures AllGrown(ps, qs + [Process(id, [], [], map[])], seen, batch)
  {
    hide Grown, Own;
    EmptyRowGrown(id);
    assert Untouched(ps, qs, batch, id);
    var rs := qs + [Process(id, [], [], map[])];
    forall i | 0 <= i < |rs|
      ensures Grown(rs[i], Before(ps, seen, rs[i].id), Own(batch, rs[i].id))
    {
      if i < |qs| {
        assert rs[i] == qs[i];
      }
    }
    forall m: Id
      ensures Untouched(ps, rs, batch, m)
    {
      assert Untouched(ps, qs, batch, m);
      IndexAfterAppend(qs, Process(id, [], [], map[]), m);
    }
  }

  lemma {:induction false} SameIdsSameIndex(ps: seq<Process>, qs: seq<Process>, id: Id)
    requires |ps| == |qs| && forall i :: 0 <= i < |ps| ==> ps[i].id == qs[i].id
    ensures IndexOf(ps, id) == IndexOf(qs, id)
  {
    FirstIndex(qs, id, IndexOf(ps, id));
  }

  lemma {:induction false} AppendedRowsGrow(
    ps: seq<Process>, qs: seq<Process>, seen: History, batch: seq<Event>, e: Event, i: nat)
    requires RowsGrown(ps, qs, seen, batch) && Usable(e) && IdsDistinct(qs) && i < |qs| && qs[i].id == e.process
    ensures RowsGrown(ps, qs[i := WithEvent(qs[i], e)], seen, batch + [e])
  {
    var rs := qs[i := WithEvent(qs[i], e)];
    hide Grown, Own, Usable, Before, WithEvent, IdsDistinct;
    EventGrows(qs[i], Before(ps, seen, e.process), Own(batch, e.process), e);
    forall k | 0 <= k < |rs|
      ensures Grown(rs[k], Before(ps, seen, rs[k].id), Own(batch + [e], rs[k].id))
    {
      OwnUnfolds(batch, e, rs[k].id);
      if k != i {
        DistinctFromOther(qs, i, k);
      }
    }
  }

  lemma {:induction false} AppendedGrows(ps: seq<Process>, qs: seq<Process>, seen: History, batch: seq<Event>, e: Event)
    requires AllGrown(ps, qs, seen, batch) && Usable(e) && IndexOf(qs, e.process) < |qs|
    ensures var i := IndexOf(qs, e.process); AllGrown(ps, qs[i := WithEvent(qs[i], e)], seen, batch + [e])
  {
    var i := IndexOf(qs, e.process);
    var rs := qs[i := WithEvent(qs[i], e)];
    SameIdsDistinct(qs, rs);
    hide Grown, Own, Usable, Before, WithEvent, IdsDistinct, RowsGrown;
    AppendedRowsGrow(ps, qs, seen, batch, e, i);
    forall m: Id
      ensures Untouched(ps, rs, batch + [e], m)
    {
      assert Untouched(ps, qs, batch, m);
      SameIdsSameIndex(rs, qs, m);
      OwnUnfolds(batch, e, m);
    }
  }

  lemma {:induction false} SameIdsDistinct(ps: seq<Process>, qs: seq<Process>)
    requires IdsDistinct(ps) && |ps| == |qs| && forall i :: 0 <= i < |ps| ==> ps[i].id == qs[i].id
    ensures IdsDistinct(qs)
  {
  }

  lemma {:induction false} DistinctFromOther(ps: seq<Process>, i: nat, k: nat)
    requires IdsDistinct(ps) && i < |ps| && k < |ps| && i != k
    ensures ps[i].id != ps[k].id
  {
  }

  lemma {:induction false} SkippedGrows(ps: seq<Process>, qs: seq<Process>, seen: History, batch: seq<Event>, e: Event)
    requires AllGrown(ps, qs, seen, batch) && !Usable(e)
    ensures AllGrown(ps, qs, seen, batch + [e])
  {
    hide Grown, Own, Usable, Before;
    forall k | 0 <= k < |qs|
      ensures Grown(qs[k], Before(ps, seen, qs[k].id), Own(batch + [e], qs[k].id))
    {
      OwnUnfolds(batch, e, qs[k].id);
    }
    forall m: Id
      ensures Untouched(ps, qs, batch + [e], m)
    {
      assert Untouched(ps, qs, batch, m);
      OwnUnfolds(batch, e, m);
    }
  }

  lemma {:induction false} AddingGrows(ps: seq<Process>, seen: History, batch: seq<Event>)
    requires DocumentOk(ps, seen)
    ensures AllGrown(ps, AllAdded(ps, batch), seen, batch)
  {
    if batch == [] {
      NothingAddedGrown(ps, seen);
    } else {
      hide DocumentOk, AllGrown, Usable;
      var rest, e := batch[..|batch| - 1], batch[|batch| - 1];
      AddingGrows(ps, seen, rest);
      assert batch == rest + [e];
      var qs := AllAdded(ps, rest);
      if !Usable(e) {
        SkippedGrows(ps, qs, seen, rest, e);
      } else {
        var i := IndexOf(qs, e.process);
        if i == |qs| {
          CreatedGrows(ps, qs, seen, rest, e.process);
          IndexAfterAppend(qs, Process(e.process, [], [], map[]), e.process);
          AppendedGrows(ps, qs + [Process(e.process, [], [], map[])], seen, rest, e);
        } else {
          AppendedGrows(ps, qs, seen, rest, e);
        }
      }
    }
  }

  lemma {:induction false} NothingAddedGrown(ps: seq<Process>, seen: History)
    requires DocumentOk(ps, seen)
    ensures AllGrown(ps, ps, seen, [])
  {
    hide RowOk, Grown;
    forall i | 0 <= i < |ps|
      ensures Grown(ps[i], Before(ps, seen, ps[i].id), Own([], ps[i].id))
    {
      IndexIsUnique(ps, i);
      OkIsGrown(ps[i], seen(ps[i].id));
    }
  }

  // ----- Ranking drops rows, it does not change them -----

  predicate RankIdsDistinct(rs: seq<Rank>) {
    forall i, j :: 0 <= i < j < |rs| ==> rs[i].row.id != rs[j].row.id
  }

  lemma {:induction false} RanksAreRefreshed(ps: seq<Process>, r: Rank)
    requires r in Ranks(ps)
    ensures exists p :: p in ps && r.row == Refreshed(p)
  {
    hide Candidates, Refreshed, Freshest;
    var n := |ps| - 1;
    assert ps == ps[..n] + [ps[n]];
    if r in Ranks(ps[..n]) {
      RanksAreRefreshed(ps[..n], r);
    }
  }

  lemma {:induction false} PrefixIdsDistinct(ps: seq<Process>, p: Process)
    requires IdsDistinct(ps) && ps != [] && p in ps[..|ps| - 1]
    ensures p.id != ps[|ps| - 1].id
  {
  }

  lemma {:induction false} RanksAre(ps: seq<Process>)
    requires IdsDistinct(ps)
    ensures RankIdsDistinct(Ranks(ps))
  {
    if ps != [] {
      hide Candidates, Refreshed, Freshest, IdsDistinct;
      var n := |ps| - 1;
      assert IdsDistinct(ps[..n]) by { DistinctPrefix(ps); }
      RanksAre(ps[..n]);
      var before := Ranks(ps[..n]);
      forall i | 0 <= i < |before|
        ensures before[i].row.id != ps[n].id
      {
        RanksAreRefreshed(ps[..n], before[i]);
        var p :| p in ps[..n] && before[i].row == Refreshed(p);
        RefreshKeepsId(p);
        PrefixIdsDistinct(ps, p);
      }
      RefreshKeepsId(ps[n]);
    }
  }

  lemma {:induction false} DistinctPrefix(ps: seq<Process>)
    requires IdsDistinct(ps) && ps != []
    ensures IdsDistinct(ps[..|ps| - 1])
  {
  }

  lemma {:induction false} RefreshKeepsId(p: Process)
    ensures Refreshed(p).id == p.id
  {
  }

  lemma {:induction false} SortKeepsRanksDistinct(rs: seq<Rank>)
    requires RankIdsDistinct(rs)
    ensures RankIdsDistinct(Sort(rs, RankAbove))
  {
    if rs != [] {
      hide RankAbove;
      var n := |rs| - 1;
      SortKeepsRanksDistinct(rs[..n]);
      forall r | r in Sort(rs[..n], RankAbove)
        ensures r.row.id != rs[n].row.id
      {
        SortHas(rs[..n], RankAbove, r);
      }
      InsertKeepsRanksDistinct(Sort(rs[..n], RankAbove), rs[n]);
    }
  }

  lemma {:induction false} InsertKeepsRanksDistinct(rs: seq<Rank>, r: Rank)
    requires RankIdsDistinct(rs) && forall x :: x in rs ==> x.row.id != r.row.id
    ensures RankIdsDistinct(Insert(rs, r, RankAbove))
  {
    if rs != [] && RankAbove(rs[|rs| - 1], r) {
      hide RankAbove;
      var n := |rs| - 1;
      InsertKeepsRanksDistinct(rs[..n], r);
      var front := Insert(rs[..n], r, RankAbove);
      forall i | 0 <= i < |front|
        ensures front[i].row.id != rs[n].row.id
      {
        InsertHas(rs[..n], r, RankAbove, front[i]);
        assert front[i] in front;
      }
    }
  }

  lemma {:induction false} TailDistinct(rs: seq<Rank>, n: nat)
    requires RankIdsDistinct(rs)
    ensures RankIdsDistinct(Tail(rs, n)) && |Tail(rs, n)| <= n && forall r :: r in Tail(rs, n) ==> r in rs
  {
  }

  lemma {:induction false} KeptRowsAre(ps: seq<Process>)
    requires IdsDistinct(ps)
    ensures IdsDistinct(KeptRows(ps)) && |KeptRows(ps)| <= MAX_PROCESSES
    ensures forall q :: q in KeptRows(ps) ==> exists p :: p in ps && q == Refreshed(p)
  {
    RanksAre(ps);
    SortKeepsRanksDistinct(Ranks(ps));
    hide Ranks, Sort, Refreshed, RankAbove;
    var rs := Sort(Ranks(ps), RankAbove);
    TailDistinct(rs, MAX_PROCESSES);
    hide Tail;
    forall q | q in KeptRows(ps)
      ensures exists p :: p in ps && q == Refreshed(p)
    {
      var i :| 0 <= i < |KeptRows(ps)| && KeptRows(ps)[i] == q;
      var r := Tail(rs, MAX_PROCESSES)[i];
      SortHas(Ranks(ps), RankAbove, r);
      RanksAreRefreshed(ps, r);
    }
  }

  lemma {:induction false} KeptRowsOk(ps: seq<Process>, qs: seq<Process>, seen: History, batch: seq<Event>)
    requires AllGrown(ps, qs, seen, batch)
    ensures DocumentOk(KeptRows(qs), SeenAfter(ps, seen, batch))
  {
    hide Grown, RowOk, KeptRows, Own, Before, Refreshed;
    KeptRowsAre(qs);
    var after := KeptRows(qs);
    forall i | 0 <= i < |after|
      ensures RowOk(after[i], SeenAfter(ps, seen, batch)(after[i].id))
    {
      assert after[i] in after;
      var p :| p in qs && after[i] == Refreshed(p);
      RefreshKeepsRow(p, Before(ps, seen, p.id), Own(batch, p.id));
      RefreshKeepsId(p);
    }
  }

  // ----- Size reduction only removes -----

  lemma {:induction false} FewerIsOk(p: Process, q: Process, seen: seq<Event>)
    requires RowOk(p, seen) && q.id == p.id && q.latest == p.latest
    requires forall e :: e in q.events || e in q.baselines ==> e in p.events || e in p.baselines
    ensures RowOk(q, seen)
  {
    hide IsLatest, Usable;
  }

  lemma {:induction false} HalvingOk(ps: seq<Process>, seen: History)
    requires DocumentOk(ps, seen)
    ensures DocumentOk(EventsHalved(ps), seen)
  {
    hide RowOk;
    var qs := EventsHalved(ps);
    forall i | 0 <= i < |qs|
      ensures RowOk(qs[i], seen(qs[i].id))
    {
      FewerIsOk(ps[i], qs[i], seen(ps[i].id));
    }
  }

  lemma {:induction false} ReductionOk(ps: seq<Process>, seen: History)
    requires DocumentOk(ps, seen) && Reduced(ps).Some?
    ensures DocumentOk(Reduced(ps).value, seen)
  {
    hide RowOk;
    HalvingOk(ps, seen);
    var i := FirstWithBaselines(ps);
    if i < |ps| {
      var bs := ps[i].baselines;
      FewerIsOk(ps[i], ps[i].(baselines := bs[..1] + bs[2..]), seen(ps[i].id));
    }
    hide EventsHalved, SomeEvents;
  }

  lemma {:induction false} FittingOk(ps: seq<Process>, seen: History, size: Measure, limit: nat)
    requires DocumentOk(ps, seen) && Fitted(ps, size, limit).Some?
    ensures DocumentOk(Fitted(ps, size, limit).value, seen) && size(Fitted(ps, size, limit).value) <= limit
    decreases Weight(ps)
  {
    hide DocumentOk, Reduced;
    if size(ps) > limit {
      ReductionShrinks(ps);
      ReductionOk(ps, seen);
      FittingOk(Reduced(ps).value, seen, size, limit);
    }
  }

  /**
   Every flush keeps every retained row a true digest: each latest slot holds the freshest eligible event
   flushed for that process since its row exists, in spite of sorting, truncation, retries of old events
   and size reduction; and the written document fits.
   */
  lemma {:induction false} FlushKeepsLatest(
    ps: seq<Process>, seen: History, batch: seq<Event>, size: Measure, limit: nat)
    requires DocumentOk(ps, seen) && Flushed(ps, batch, size, limit).Some?
    ensures var qs := Flushed(ps, batch, size, limit).value;
            DocumentOk(qs, SeenAfter(ps, seen, batch)) && size(qs) <= limit
  {
    hide DocumentOk, AllGrown, KeptRows, SeenAfter;
    AddingGrows(ps, seen, batch);
    KeptRowsOk(ps, AllAdded(ps, batch), seen, batch);
    FittingOk(KeptRows(AllAdded(ps, batch)), SeenAfter(ps, seen, batch), size, limit);
  }

  // ----- Every run of flushes by any processes -----

  function AfterAll(ps: seq<Process>, batches: seq<seq<Event>>, size: Measure, limit: nat): seq<Process>
    decreases |batches|
  {
    if batches == [] then ps
    else
      var next := Flushed(ps, batches[0], size, limit);
      AfterAll(if next.Some? then next.value else ps, batches[1..], size, limit)
  }

  function SeenAll(ps: seq<Process>, seen: History, batches: seq<seq<Event>>, size: Measure, limit: nat): History
    decreases |batches|
  {
    if batches == [] then seen
    else
      var next := Flushed(ps, batches[0], size, limit);
      if next.Some? then SeenAll(next.value, SeenAfter(ps, seen, batches[0]), batches[1..], size, limit)
      else SeenAll(ps, seen, batches[1..], size, limit)
  }

  lemma {:induction false} RunKeepsLatest(
    ps: seq<Process>, seen: History, batches: seq<seq<Event>>, size: Measure, limit: nat)
    requires DocumentOk(ps, seen)
    ensures DocumentOk(AfterAll(ps, batches, size, limit), SeenAll(ps, seen, batches, size, limit))
    decreases |batches|
  {
    if batches != [] {
      hide DocumentOk, Flushed, SeenAfter;
      var next := Flushed(ps, batches[0], size, limit);
      if next.Some? {
        FlushKeepsLatest(ps, seen, batches[0], size, limit);
        RunKeepsLatest(next.value, SeenAfter(ps, seen, batches[0]), batches[1..], size, limit);
      } else {
        RunKeepsLatest(ps, seen, batches[1..], size, limit);
      }
    }
  }

  /** From the empty document on, a latest slot is never behind any event flushed since its row exists. */
  lemma {:induction false} LatestSlotsAreNeverBehind(
    batches: seq<seq<Event>>, size: Measure, limit: nat, i: nat, s: Slot, e: Event)
    requires i < |AfterAll([], batches, size, limit)|
    requires var row := AfterAll([], batches, size, limit)[i];
             e in SeenAll([], id => [], batches, size, limit)(row.id) && Eligible(e, s)
    ensures var row := AfterAll([], batches, size, limit)[i];
            s in row.latest && !Fresher(e, row.latest[s]) && row.latest[s].process == row.id
  {
    hide AfterAll, SeenAll, Fresher, Eligible, SnapshotKey;
    RunKeepsLatest([], id => [], batches, size, limit);
    var row := AfterAll([], batches, size, limit)[i];
    assert RowOk(row, SeenAll([], id => [], batches, size, limit)(row.id));
    assert IsLatest(row.latest, SeenAll([], id => [], batches, size, limit)(row.id), s);
  }
}
