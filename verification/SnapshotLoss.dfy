/**
 What a dropped process row costs. The document keeps eight rows and drops more when it is too large; a
 process whose row was dropped and that comes back starts with empty slots. Measured against everything
 ever flushed for a process, a slot may therefore be behind, and here is exactly when.
 */
module SnapshotLoss {
  import opened Wrappers
  import opened FailureSnapshots

  // ----- The history that never starts anew -----

  /** Everything written for a process by the flushes that succeeded. */
  function Ever(ps: seq<Process>, batches: seq<seq<Event>>, size: Measure, limit: nat, id: Id): seq<Event>
    decreases |batches|
  {
    if batches == [] then []
    else
      var next := Flushed(ps, batches[0], size, limit);
      if next.Some? then Own(batches[0], id) + Ever(next.value, batches[1..], size, limit, id)
      else Ever(ps, batches[1..], size, limit, id)
  }

  /** The rows of a process as they were when a flush left them out. */
  function LostRows(ps: seq<Process>, batches: seq<seq<Event>>, size: Measure, limit: nat, id: Id): seq<Process>
    decreases |batches|
  {
    if batches == [] then []
    else
      var next := Flushed(ps, batches[0], size, limit);
      if next.Some? then
        Lost(AllAdded(ps, batches[0]), next.value, id) + LostRows(next.value, batches[1..], size, limit, id)
      else LostRows(ps, batches[1..], size, limit, id)
  }

  function Lost(grown: seq<Process>, kept: seq<Process>, id: Id): seq<Process> {
    var i := IndexOf(grown, id);
    if i < |grown| && IndexOf(kept, id) == |kept| then [Refreshed(grown[i])] else []
  }

  /** Some lost row had an event in the slot that is no less fresh than `e`. */
  ghost predicate CoveredByLost(lost: seq<Process>, s: Slot, e: Event) {
    exists r :: r in lost && s in r.latest && !Fresher(e, r.latest[s])
  }

  /** The row goes on with everything it had, or it is lost with everything it had. */
  ghost predicate Passed(all: seq<Event>, passed: seq<Event>, lost: seq<Process>) {
    || (passed == all && lost == [])
    || (passed == [] && (all != [] ==> lost != []) && forall r :: r in lost ==> RowOk(r, all))
  }

  /** A flush hands each event of the process on to its row, or to the row it drops. */
  lemma {:induction false} FlushAccounts(
    ps: seq<Process>, seen: History, batch: seq<Event>, size: Measure, limit: nat, id: Id)
    requires DocumentOk(ps, seen) && Flushed(ps, batch, size, limit).Some?
    ensures var qs := Flushed(ps, batch, size, limit).value;
            var all := Before(ps, seen, id) + Own(batch, id);
            var lost := Lost(AllAdded(ps, batch), qs, id);
            Passed(all, Before(qs, SeenAfter(ps, seen, batch), id), lost)
  {
    hide Grown, RowOk, Refreshed, Own, Flushed;
    AddingGrows(ps, seen, batch);
    var qs := Flushed(ps, batch, size, limit).value;
    var grown := AllAdded(ps, batch);
    assert Untouched(ps, grown, batch, id);
    hide DocumentOk;
    if IndexOf(grown, id) < |grown| {
      RefreshKeepsRow(grown[IndexOf(grown, id)], Before(ps, seen, id), Own(batch, id));
    } else if IndexOf(qs, id) < |qs| {
      FlushedRowsGrew(ps, batch, size, limit, qs[IndexOf(qs, id)]);
    }
  }

  lemma {:induction false} FlushedRowsGrew(ps: seq<Process>, batch: seq<Event>, size: Measure, limit: nat, q: Process)
    requires IdsDistinct(AllAdded(ps, batch)) && Flushed(ps, batch, size, limit).Some?
    requires q in Flushed(ps, batch, size, limit).value
    ensures IndexOf(AllAdded(ps, batch), q.id) < |AllAdded(ps, batch)|
  {
    RowsComeFromGrown(AllAdded(ps, batch), size, limit, q);
  }

  /** Nothing but a row of the grown document is kept. */
  lemma {:induction false} RowsComeFromGrown(grown: seq<Process>, size: Measure, limit: nat, q: Process)
    requires IdsDistinct(grown) && Fitted(KeptRows(grown), size, limit).Some?
    requires q in Fitted(KeptRows(grown), size, limit).value
    ensures IndexOf(grown, q.id) < |grown|
  {
    hide KeptRows, Fitted, Refreshed;
    KeptRowsAre(grown);
    FittingKeepsIds(KeptRows(grown), size, limit, q);
    var k :| k in KeptRows(grown) && k.id == q.id;
    var p :| p in grown && k == Refreshed(p);
    RefreshKeepsId(p);
  }

  lemma {:induction false} FittingKeepsIds(ps: seq<Process>, size: Measure, limit: nat, q: Process)
    requires Fitted(ps, size, limit).Some? && q in Fitted(ps, size, limit).value
    ensures exists p :: p in ps && p.id == q.id
    decreases Weight(ps)
  {
    hide Reduced;
    if size(ps) > limit {
      ReductionShrinks(ps);
      FittingKeepsIds(Reduced(ps).value, size, limit, q);
      var r :| r in Reduced(ps).value && r.id == q.id;
      ReductionKeepsIds(ps, r);
    }
  }

  lemma {:induction false} ReductionKeepsIds(ps: seq<Process>, r: Process)
    requires Reduced(ps).Some? && r in Reduced(ps).value
    ensures exists p :: p in ps && p.id == r.id
  {
    var i :| 0 <= i < |Reduced(ps).value| && Reduced(ps).value[i] == r;
    if !SomeEvents(ps) && FirstWithBaselines(ps) == |ps| {
      assert ps[i + 1] in ps;
    } else {
      assert ps[i] in ps;
    }
  }

  lemma {:induction false} FlushUnfolds(
    ps: seq<Process>, seen: History, batches: seq<seq<Event>>, size: Measure, limit: nat, id: Id)
    requires batches != [] && Flushed(ps, batches[0], size, limit).Some?
    ensures var qs := Flushed(ps, batches[0], size, limit).value;
            var rest := batches[1..];
            && Ever(ps, batches, size, limit, id) == Own(batches[0], id) + Ever(qs, rest, size, limit, id)
            && LostRows(ps, batches, size, limit, id)
               == Lost(AllAdded(ps, batches[0]), qs, id) + LostRows(qs, rest, size, limit, id)
            && AfterAll(ps, batches, size, limit) == AfterAll(qs, rest, size, limit)
            && SeenAll(ps, seen, batches, size, limit)
               == SeenAll(qs, SeenAfter(ps, seen, batches[0]), rest, size, limit)
  {
    hide Flushed, Own, Lost, SeenAfter;
  }

  /** Every event ever flushed is with the row, or with a row that was lost; and lost rows hold only such events. */
  ghost predicate Accounts(all: seq<Event>, lost: seq<Process>, held: seq<Event>, s: Slot) {
    && (forall e :: e in all && Eligible(e, s) ==> e in held || CoveredByLost(lost, s, e))
    && (forall r :: r in lost && s in r.latest ==> r.latest[s] in all && Eligible(r.latest[s], s))
  }

  lemma {:induction false} RunAccounts(
    ps: seq<Process>, seen: History, batches: seq<seq<Event>>, size: Measure, limit: nat, id: Id, s: Slot)
    requires DocumentOk(ps, seen)
    ensures Accounts(Before(ps, seen, id) + Ever(ps, batches, size, limit, id), LostRows(ps, batches, size, limit, id),
                     Before(AfterAll(ps, batches, size, limit), SeenAll(ps, seen, batches, size, limit), id), s)
    decreases |batches|
  {
    hide Eligible, Fresher, DocumentOk, Flushed, Passed, CoveredByLost, SeenAfter, Before, Lost, Own;
    if batches == [] {
    } else if Flushed(ps, batches[0], size, limit).None? {
      hide Accounts;
      RunAccounts(ps, seen, batches[1..], size, limit, id, s);
    } else {
      var qs := Flushed(ps, batches[0], size, limit).value;
      var seen' := SeenAfter(ps, seen, batches[0]);
      FlushKeepsLatest(ps, seen, batches[0], size, limit);
      FlushAccounts(ps, seen, batches[0], size, limit, id);
      RunAccounts(qs, seen', batches[1..], size, limit, id, s);
      FlushUnfolds(ps, seen, batches, size, limit, id);
      hide Accounts, Ever, LostRows, AfterAll, SeenAll;
      JoinAccounts(Before(ps, seen, id) + Own(batches[0], id), Before(qs, seen', id),
                   Ever(qs, batches[1..], size, limit, id), Lost(AllAdded(ps, batches[0]), qs, id),
                   LostRows(qs, batches[1..], size, limit, id),
                   Before(AfterAll(qs, batches[1..], size, limit),
                          SeenAll(qs, seen', batches[1..], size, limit), id), s);
      assert Before(ps, seen, id) + Ever(ps, batches, size, limit, id)
          == Before(ps, seen, id) + Own(batches[0], id) + Ever(qs, batches[1..], size, limit, id);
    }
  }

  lemma {:induction false} JoinAccounts(
    all: seq<Event>, passed: seq<Event>, later: seq<Event>, lost: seq<Process>, lostLater: seq<Process>,
    held: seq<Event>, s: Slot)
    requires Passed(all, passed, lost)
    requires Accounts(passed + later, lostLater, held, s)
    ensures Accounts(all + later, lost + lostLater, held, s)
  {
    hide Eligible, Fresher, Usable;
    forall e | e in all + later && Eligible(e, s)
      ensures e in held || CoveredByLost(lost + lostLater, s, e)
    {
      if e in passed + later {
        if CoveredByLost(lostLater, s, e) {
          var r :| r in lostLater && s in r.latest && !Fresher(e, r.latest[s]);
          assert r in lost + lostLater;
        }
      } else {
        var r := lost[0];
        assert r in lost && IsLatest(r.latest, all, s);
        assert r in lost + lostLater;
      }
    }
    forall r | r in lost + lostLater && s in r.latest
      ensures r.latest[s] in all + later && Eligible(r.latest[s], s)
    {
      if r in lost {
        assert IsLatest(r.latest, all, s);
      }
    }
  }

  /** The slot is not behind an event. */
  predicate Covers(row: Process, s: Slot, e: Event) {
    s in row.latest && !Fresher(e, row.latest[s])
  }

  /**
   A slot of a retained row is not behind anything ever flushed for its process exactly when no flush
   dropped an earlier row of that process whose slot held a fresher event.
   */
  lemma {:induction false} SlotCoversEverythingExactlyWhen(
    batches: seq<seq<Event>>, size: Measure, limit: nat, i: nat, s: Slot)
    requires i < |AfterAll([], batches, size, limit)|
    ensures var row := AfterAll([], batches, size, limit)[i];
            (forall e :: e in Ever([], batches, size, limit, row.id) && Eligible(e, s) ==> Covers(row, s, e))
            <==>
            (forall r :: r in LostRows([], batches, size, limit, row.id) && s in r.latest ==>
               Covers(row, s, r.latest[s]))
  {
    hide AfterAll, SeenAll, Ever, LostRows, Fresher, Eligible;
    var nothing: History := id => [];
    var rows, seen := AfterAll([], batches, size, limit), SeenAll([], nothing, batches, size, limit);
    var row := rows[i];
    var ever, lost := Ever([], batches, size, limit, row.id), LostRows([], batches, size, limit, row.id);
    RunKeepsLatest([], nothing, batches, size, limit);
    IndexIsUnique(rows, i);
    RunAccounts([], nothing, batches, size, limit, row.id, s);
    assert Before([], nothing, row.id) + ever == ever;
    hide DocumentOk, Before;
    CoversAllExactlyWhen(row, s, ever, lost, seen(row.id));
  }

  lemma {:induction false} CoversAllExactlyWhen(
    row: Process, s: Slot, ever: seq<Event>, lost: seq<Process>, held: seq<Event>)
    requires IsLatest(row.latest, held, s) && Accounts(ever, lost, held, s)
    ensures (forall e :: e in ever && Eligible(e, s) ==> Covers(row, s, e))
            <==> (forall r :: r in lost && s in r.latest ==> Covers(row, s, r.latest[s]))
  {
    hide Fresher, Eligible;
    if forall r :: r in lost && s in r.latest ==> Covers(row, s, r.latest[s]) {
      forall e | e in ever && Eligible(e, s)
        ensures Covers(row, s, e)
      {
        if e !in held {
          var r :| r in lost && s in r.latest && !Fresher(e, r.latest[s]);
          FresherIsAnOrder(e, r.latest[s], row.latest[s]);
        }
      }
    }
  }

  // ----- A run that loses a slot -----

  /** The row of a process with one event, which is no baseline. */
  function Single(e: Event): Process {
    Process(e.process, [e], [], map s: Slot | Eligible(e, s) :: e)
  }

  function Singles(es: seq<Event>): seq<Process> { seq(|es|, i requires 0 <= i < |es| => Single(es[i])) }

  function OneByOne(es: seq<Event>): seq<seq<Event>> { seq(|es|, i requires 0 <= i < |es| => [es[i]]) }

  lemma {:induction false} SameCandidates(cs: seq<Event>, e: Event)
    requires cs != [] && forall k :: 0 <= k < |cs| ==> cs[k] == e
    ensures LatestOf(cs) == map s: Slot | Eligible(e, s) :: e
    ensures Freshest(cs) == e
  {
    hide Eligible, Fresher;
    if |cs| == 1 {
      assert LatestOf(cs[..0]) == map[];
    } else {
      SameCandidates(cs[..|cs| - 1], e);
    }
  }

  /** One event, added to no row or refreshed again, gives the same row. */
  lemma {:induction false} SingleIsRefreshed(p: Process, e: Event)
    requires SingleRow(p, e)
    ensures Candidates(p) != [] && Freshest(Candidates(p)) == e && Refreshed(p) == Single(e)
  {
    hide Eligible, Fresher, SnapshotKey, LatestOf, Freshest, Candidates;
    OneKeyed(e);
    forall y | y in Candidates(p)
      ensures y == e
    {
      CandidatesHave(p, y);
    }
    CandidatesHave(p, e);
    assert forall k :: 0 <= k < |Candidates(p)| ==> Candidates(p)[k] in Candidates(p);
    SameCandidates(Candidates(p), e);
  }

  lemma {:induction false} OneKeyed(e: Event)
    requires SnapshotKey(e).Some?
    ensures Ranked([e]) == [e] && Ranked([]) == []
  {
    assert [e][..0] == [];
    assert Keyed([e]) == Keyed([e][..0]) + [e];
    assert Sort([e], Fresher) == Insert(Sort([e][..0], Fresher), e, Fresher);
  }

  /** Every next event is fresher than all before it, and its process is none of the last eight. */
  predicate Rising(es: seq<Event>) {
    && (forall i :: 0 <= i < |es| ==> Usable(es[i]) && !es[i].baseline)
    && (forall i, j :: 0 <= i < j < |es| ==> Fresher(es[j], es[i]))
    && (forall i, j :: 0 <= i < j < |es| && j - i <= MAX_PROCESSES ==> es[i].process != es[j].process)
  }

  function RanksOf(es: seq<Event>): (rs: seq<Rank>)
    ensures |rs| == |es| && forall i :: 0 <= i < |es| ==> rs[i] == Rank(es[i], Single(es[i]))
  {
    if es == [] then []
    else RanksOf(es[..|es| - 1]) + [Rank(es[|es| - 1], Single(es[|es| - 1]))]
  }

  /** The row of one event, new or as it was written before. */
  predicate SingleRow(p: Process, e: Event) {
    && SnapshotKey(e).Some? && p.id == e.process && p.events == [e] && p.baselines == []
    && (p.latest == map[] || p == Single(e))
  }

  lemma {:induction false} RanksOfSingles(ps: seq<Process>, es: seq<Event>)
    requires |ps| == |es| && forall i :: 0 <= i < |es| ==> SingleRow(ps[i], es[i])
    ensures Ranks(ps) == RanksOf(es)
  {
    if ps != [] {
      hide SingleRow, Candidates, Freshest, Refreshed, Single;
      var n := |ps| - 1;
      RanksOfSingles(ps[..n], es[..n]);
      SingleIsRefreshed(ps[n], es[n]);
    }
  }

  lemma {:induction false} RisingIsSorted(es: seq<Event>)
    requires Rising(es)
    ensures Sort(RanksOf(es), RankAbove) == RanksOf(es)
  {
    if es != [] {
      hide Rising, Single, RankAbove;
      var n := |es| - 1;
      RisingTail(es, n);
      RisingIsSorted(es[..n]);
      assert RanksOf(es)[..n] == RanksOf(es[..n]);
      if n > 0 {
        NextIsNotBelow(es, n);
      }
    }
  }

  lemma NextIsNotBelow(es: seq<Event>, n: nat)
    requires Rising(es) && 0 < n < |es|
    ensures !RankAbove(RanksOf(es)[n - 1], RanksOf(es)[n])
  {
    assert Fresher(es[n], es[n - 1]);
    hide Fresher, Rising;
    FresherIsAnOrder(es[n - 1], es[n], es[n - 1]);
  }

  lemma NewRow(ps: seq<Process>, e: Event)
    requires Usable(e) && !e.baseline && IndexOf(ps, e.process) == |ps|
    ensures AllAdded(ps, [e]) == ps + [Process(e.process, [e], [], map[])]
  {
    hide Usable, IndexOf;
    assert [e][..0] == [] && [] + [e] == [e];
    var qs := ps + [Process(e.process, [], [], map[])];
    assert AllAdded(ps, [e]) == Added(ps, e) == qs[|ps| := WithEvent(qs[|ps|], e)];
  }

  /** One more event of a process without a row: the document is the rows of the last eight events. */
  lemma {:induction false} NextSingle(es: seq<Event>, e: Event, size: Measure, limit: nat)
    requires Rising(es + [e]) && |es| <= MAX_PROCESSES && size(Singles(Tail(es + [e], MAX_PROCESSES))) <= limit
    ensures Flushed(Singles(es), [e], size, limit) == Some(Singles(Tail(es + [e], MAX_PROCESSES)))
  {
    RowsAreSingle(es, e);
    hide Single, SingleRow, Rising, Singles, Ranks, Sort, KeptRows, AllAdded;
    KeptSingles(Singles(es) + [Process(e.process, [e], [], map[])], es + [e]);
  }

  lemma {:induction false} KeptSingles(ps: seq<Process>, all: seq<Event>)
    requires Rising(all) && |ps| == |all| && forall i :: 0 <= i < |ps| ==> SingleRow(ps[i], all[i])
    ensures KeptRows(ps) == Singles(Tail(all, MAX_PROCESSES))
  {
    hide Single, SingleRow, Rising, Ranks, Sort, RankAbove;
    RisingIsSorted(all);
    RanksOfSingles(ps, all);
    assert Rows(Tail(RanksOf(all), MAX_PROCESSES)) == Singles(Tail(all, MAX_PROCESSES));
  }

  lemma {:induction false} RowsAreSingle(es: seq<Event>, e: Event)
    requires Rising(es + [e]) && |es| <= MAX_PROCESSES
    ensures var ps := Singles(es) + [Process(e.process, [e], [], map[])];
            && AllAdded(Singles(es), [e]) == ps
            && forall i :: 0 <= i < |ps| ==> SingleRow(ps[i], (es + [e])[i])
  {
    var all := es + [e];
    hide Fresher, Eligible;
    assert all[|es|] == e;
    assert forall i :: 0 <= i < |es| ==> Usable(all[i]) && Singles(es)[i].id == all[i].process != e.process;
    FirstIndex(Singles(es), e.process, |es|);
    NewRow(Singles(es), e);
  }

  lemma {:induction false} RisingTail(es: seq<Event>, n: nat)
    requires Rising(es)
    ensures Rising(Tail(es, n)) && Rising(es[..if n <= |es| then n else |es|])
  {
    hide Fresher, Usable;
  }

  /**
   Processes that flush one event each, in rising freshness: from any such document on, it always consists
   of the rows of the last eight.
   */
  lemma {:induction false} LastEightStay(done: seq<Event>, es: seq<Event>, size: Measure, limit: nat)
    requires Rising(done + es) && forall ps :: size(ps) <= limit
    ensures AfterAll(Singles(Tail(done, MAX_PROCESSES)), OneByOne(es), size, limit)
         == Singles(Tail(done + es, MAX_PROCESSES))
    decreases |es|
  {
    if es == [] {
      assert done + es == done;
    } else {
      hide Fresher, Usable, Flushed;
      var now := Tail(done, MAX_PROCESSES);
      assert done + es == (done + [es[0]]) + es[1..];
      assert Tail(now + [es[0]], MAX_PROCESSES) == Tail(done + [es[0]], MAX_PROCESSES);
      assert Rising(now + [es[0]]) by {
        assert (done + es)[..|done| + 1] == done + [es[0]];
        RisingTail(done + es, |done| + 1);
        RisingTail(done + [es[0]], |now| + 1);
        assert Tail(done + [es[0]], |now| + 1) == now + [es[0]];
      }
      NextSingle(now, es[0], size, limit);
      assert OneByOne(es)[0] == [es[0]] && OneByOne(es)[1..] == OneByOne(es[1..]);
      LastEightStay(done + [es[0]], es[1..], size, limit);
    }
  }

  function Snapshot(process: Id, at: real, rss: nat): Event {
    Event(process, true, Some(at), 0, None, 0, false, Some(rss), None, false)
  }

  /** One process exceeds the critical size, eight others follow, and the first one comes back below it. */
  function Comeback(): seq<Event> {
    seq(10, k requires 0 <= k < 10 =>
      Snapshot(if k < 9 then k else 0, k as real, if k == 0 then CRITICAL_BYTES else 1))
  }

  lemma NoSingles()
    ensures Singles([]) == []
  {
  }

  lemma SinglesAt(es: seq<Event>, i: nat)
    requires i < |es|
    ensures |Singles(es)| == |es| && Singles(es)[i] == Single(es[i])
  {
  }

  lemma {:induction false} ComebackRises()
    ensures var es := Comeback();
            && Rising(es) && |es| == 10
            && es[0] == Snapshot(0, 0.0, CRITICAL_BYTES) && es[9] == Snapshot(0, 9.0, 1)
  {
    var es := Comeback();
    assert forall i :: 0 <= i < 10 ==> es[i].timestamp == Some(i as real);
  }

  lemma {:induction false} FirstIsFlushed(es: seq<Event>, size: Measure, limit: nat)
    requires Rising(es) && es != [] && forall ps :: size(ps) <= limit
    ensures es[0] in Ever([], OneByOne(es), size, limit, es[0].process)
  {
    hide Fresher;
    var batches := OneByOne(es);
    assert batches[0] == [es[0]] && [] + [es[0]] == [es[0]];
    RisingTail(es, 1);
    assert es[..1] == [es[0]] && Singles([]) == [];
    NextSingle([], es[0], size, limit);
    OwnUnfolds([], es[0], es[0].process);
    hide Flushed, Own;
    assert es[0] in Own(batches[0], es[0].process);
  }

  lemma {:induction false} LastOfTen(es: seq<Event>, size: Measure, limit: nat)
    requires Rising(es) && |es| == 10 && forall ps :: size(ps) <= limit
    ensures var rows := AfterAll([], OneByOne(es), size, limit);
            |rows| == MAX_PROCESSES && rows[7] == Single(es[9])
  {
    hide Rising, AfterAll, Single, Singles;
    assert [] + es == es;
    LastEightStay([], es, size, limit);
    NoSingles();
    SinglesAt(Tail(es, MAX_PROCESSES), 7);
    assert Tail(es, MAX_PROCESSES)[7] == es[9];
  }

  /**
   The critical snapshot of a process that is in the document is gone, although it was flushed and never
   superseded.
   */
  lemma {:induction false} ComebackLosesCriticalSlot(size: Measure, limit: nat)
    requires forall ps :: size(ps) <= limit
    ensures var rows := AfterAll([], OneByOne(Comeback()), size, limit);
            && |rows| == MAX_PROCESSES && rows[7] == Single(Snapshot(0, 9.0, 1)) && LatestCritical !in rows[7].latest
            && Snapshot(0, 0.0, CRITICAL_BYTES) in Ever([], OneByOne(Comeback()), size, limit, 0)
            && Eligible(Snapshot(0, 0.0, CRITICAL_BYTES), LatestCritical)
  {
    ComebackRises();
    hide Rising, AfterAll, Ever, Comeback;
    LastOfTen(Comeback(), size, limit);
    FirstIsFlushed(Comeback(), size, limit);
  }
}
