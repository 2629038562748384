/**
 What the memory-failure document keeps (src/failure_memory_diagnostics.py), in plain words: which snapshot a
 latest slot holds, and which events and baselines survive the truncation of a row.
 */
module SnapshotRules {
  import opened FailureSnapshots
  import opened Wrappers

  /** Later by clock, then by sequence number, then by elapsed time, then by content; untimed events never are. */
  predicate Later(a: Event, b: Event) {
    && a.timestamp.Some?
    && (b.timestamp.None? || a.timestamp.value > b.timestamp.value
        || (a.timestamp == b.timestamp
            && var m, n := if a.sequence > 0 then a.sequence else 0, if b.sequence > 0 then b.sequence else 0;
               var s, t := if a.elapsed.Some? then a.elapsed.value else 0.0,
                           if b.elapsed.Some? then b.elapsed.value else 0.0;
               m > n || (m == n && (s > t || (s == t && a.content > b.content)))))
  }

  lemma FresherMeansLater(a: Event, b: Event)
    ensures Fresher(a, b) <==> Later(a, b)
  {
  }

  /** An event of the kind a slot is for: any resident size, one of at least 250 MiB, or a high-water peak. */
  predicate OfKind(e: Event, s: Slot) {
    match s
    case LatestRss => e.rss.Some?
    case LatestCritical => e.rss.Some? && e.rss.value >= 262_144_000
    case LatestHwm => e.hwm.Some? && e.hwmPeak
  }

  /**
   After any run of flushes a row has a latest snapshot of a kind exactly when one was flushed for its process
   since the row exists; it is one of those, and none of them is later.
   */
  lemma SlotsHoldTheLatest(batches: seq<seq<Event>>, size: Measure, limit: nat, i: nat, s: Slot)
    requires i < |AfterAll([], batches, size, limit)|
    ensures var row := AfterAll([], batches, size, limit)[i];
            var seen := SeenAll([], id => [], batches, size, limit)(row.id);
            && (s in row.latest <==> exists e :: e in seen && OfKind(e, s))
            && (s in row.latest ==>
                  && row.latest[s] in seen && OfKind(row.latest[s], s) && row.latest[s].process == row.id
                  && forall e :: e in seen && OfKind(e, s) ==> !Later(e, row.latest[s]))
  {
    var row := AfterAll([], batches, size, limit)[i];
    var seen := SeenAll([], id => [], batches, size, limit)(row.id);
    RunKeepsLatest([], id => [], batches, size, limit);
    assert RowOk(row, seen) && IsLatest(row.latest, seen, s) by {
      hide AfterAll, SeenAll;
    }
    forall e
      ensures Eligible(e, s) <==> OfKind(e, s)
      ensures s in row.latest ==> (Fresher(e, row.latest[s]) <==> Later(e, row.latest[s]))
    {
      if s in row.latest {
        FresherMeansLater(e, row.latest[s]);
      }
    }
    hide AfterAll, SeenAll, Fresher, Eligible, Later, OfKind;
  }

  // ----- Truncation -----

  ghost predicate Rising(es: seq<Event>) {
    forall i, j :: 0 <= i < j < |es| ==> !Fresher(es[i], es[j])
  }

  lemma {:induction false} InsertRises(es: seq<Event>, e: Event)
    requires Rising(es)
    ensures Rising(Insert(es, e, Fresher))
  {
    hide Fresher;
    if es != [] {
      var n := |es| - 1;
      if Fresher(es[n], e) {
        InsertRises(es[..n], e);
        var front := Insert(es[..n], e, Fresher);
        forall i | 0 <= i < |front|
          ensures !Fresher(front[i], es[n])
        {
          InsertHas(es[..n], e, Fresher, front[i]);
          assert front[i] in front;
          FresherIsAnOrder(es[n], e, es[n]);
        }
      } else {
        forall i | 0 <= i < n
          ensures !Fresher(es[i], e)
        {
          FresherIsAnOrder(es[i], es[n], e);
        }
      }
    }
  }

  lemma {:induction false} SortRises(es: seq<Event>)
    ensures Rising(Sort(es, Fresher)) && |Sort(es, Fresher)| == |es|
  {
    if es != [] {
      hide Fresher, Rising;
      SortRises(es[..|es| - 1]);
      InsertRises(Sort(es[..|es| - 1], Fresher), es[|es| - 1]);
      InsertGrows(Sort(es[..|es| - 1], Fresher), es[|es| - 1]);
    }
  }

  lemma {:induction false} InsertGrows(es: seq<Event>, e: Event)
    ensures |Insert(es, e, Fresher)| == |es| + 1
  {
    hide Fresher;
    if es != [] && Fresher(es[|es| - 1], e) {
      InsertGrows(es[..|es| - 1], e);
    }
  }

  lemma {:induction false} KeyedAreTimed(es: seq<Event>)
    ensures |Keyed(es)| == |set i | 0 <= i < |es| && es[i].timestamp.Some?|
  {
    var hits := set i | 0 <= i < |es| && es[i].timestamp.Some?;
    if es == [] {
      assert hits == {};
    } else {
      var n := |es| - 1;
      KeyedAreTimed(es[..n]);
      var fewer := set i | 0 <= i < n && es[..n][i].timestamp.Some?;
      assert hits == fewer + if n in hits then {n} else {};
    }
  }

  lemma RankedRise(es: seq<Event>, e: Event)
    ensures Rising(Ranked(es)) && |Ranked(es)| == |set i | 0 <= i < |es| && es[i].timestamp.Some?|
    ensures e in Ranked(es) <==> e in es && e.timestamp.Some?
  {
    hide Fresher, Rising, Keyed, Sort;
    SortRises(Keyed(es));
    KeyedAreTimed(es);
    RankedHas(es, e);
  }

  /** No event of the list is later than one further behind. */
  ghost predicate InOrder(es: seq<Event>) {
    forall i, j :: 0 <= i < j < |es| ==> !Later(es[i], es[j])
  }

  lemma RisingMeansInOrder(es: seq<Event>)
    requires Rising(es)
    ensures InOrder(es)
  {
    hide Fresher, Later;
    forall i, j | 0 <= i < j < |es|
      ensures !Later(es[i], es[j])
    {
      FresherMeansLater(es[i], es[j]);
    }
  }

  /**
   A row keeps, in order, the latest 48 of its timed events; of more than eight baselines it keeps the earliest
   and the latest seven.
   */
  lemma RowsKeepTheLatest(p: Process, e: Event)
    ensures var q := Refreshed(p);
            var timed := |set i | 0 <= i < |p.events| && p.events[i].timestamp.Some?|;
            && q.id == p.id && InOrder(q.events)
            && |q.events| == (if timed <= 48 then timed else 48)
            && (e in q.events ==> e in p.events)
            && (e in p.events && e.timestamp.Some? && e !in q.events ==>
                  forall x :: x in q.events ==> !Later(e, x))
    ensures var q := Refreshed(p);
            var timed := |set i | 0 <= i < |p.baselines| && p.baselines[i].timestamp.Some?|;
            && InOrder(q.baselines)
            && |q.baselines| == (if timed <= 8 then timed else 8)
            && (e in q.baselines ==> e in p.baselines)
            && (e in p.baselines && e.timestamp.Some? && e !in q.baselines ==>
                  && |q.baselines| == 8 && !Later(q.baselines[0], e)
                  && forall k :: 1 <= k < |q.baselines| ==> !Later(e, q.baselines[k]))
  {
    hide LatestOf, Candidates;
    assert Refreshed(p).events == Tail(Ranked(p.events), 48);
    assert Refreshed(p).baselines == SomeBaselines(Ranked(p.baselines));
    hide Refreshed, Ranked, Later;
    RankedRise(p.events, e);
    RankedRise(p.baselines, e);
    RisingMeansInOrder(Ranked(p.events));
    RisingMeansInOrder(Ranked(p.baselines));
    hide Rising;
    TailKeepsTheLatest(Ranked(p.events), 48, e);
    SomeBaselinesKeep(Ranked(p.baselines), e);
    KeptAreThere(p, e);
  }

  lemma KeptAreThere(p: Process, e: Event)
    ensures e in Tail(Ranked(p.events), 48) ==> e in p.events
    ensures e in SomeBaselines(Ranked(p.baselines)) ==> e in p.baselines
  {
    hide Ranked;
    RankedHas(p.events, e);
    RankedHas(p.baselines, e);
  }

  lemma TailKeepsTheLatest(es: seq<Event>, n: nat, e: Event)
    requires InOrder(es)
    ensures InOrder(Tail(es, n)) && |Tail(es, n)| == if |es| <= n then |es| else n
    ensures e in es && e !in Tail(es, n) ==> forall x :: x in Tail(es, n) ==> !Later(e, x)
  {
    hide Later;
    var k := |es| - |Tail(es, n)|;
    assert Tail(es, n) == es[k..];
    if e in es && e !in Tail(es, n) {
      forall j | k <= j < |es|
        ensures es[j] in es[k..]
      {
        assert es[k..][j - k] == es[j];
      }
      var i :| 0 <= i < |es| && es[i] == e;
      forall x | x in Tail(es, n)
        ensures !Later(e, x)
      {
        var j :| 0 <= j < |es[k..]| && es[k..][j] == x;
        assert es[k + j] == x;
      }
    }
  }

  lemma FirstAndLastInOrder(bs: seq<Event>)
    requires InOrder(bs) && |bs| > 8
    ensures InOrder([bs[0]] + bs[|bs| - 7..])
  {
    hide Later;
    var kept := [bs[0]] + bs[|bs| - 7..];
    forall i, j | 0 <= i < j < |kept|
      ensures !Later(kept[i], kept[j])
    {
      assert kept[j] == bs[|bs| - 8 + j];
      assert i > 0 ==> kept[i] == bs[|bs| - 8 + i];
    }
  }

  lemma SomeBaselinesKeep(bs: seq<Event>, e: Event)
    requires InOrder(bs)
    ensures var kept := SomeBaselines(bs);
            && InOrder(kept) && |kept| == (if |bs| <= 8 then |bs| else 8)
            && (e in bs && e !in kept ==>
                  |kept| == 8 && !Later(kept[0], e) && forall k :: 1 <= k < |kept| ==> !Later(e, kept[k]))
  {
    hide Later;
    if |bs| > 8 {
      var kept := SomeBaselines(bs);
      TailKeepsTheLatest(bs, 7, e);
      FirstAndLastInOrder(bs);
      assert kept == [bs[0]] + bs[|bs| - 7..] && Tail(bs, 7) == bs[|bs| - 7..];
      if e in bs && e !in kept {
        var i :| 0 <= i < |bs| && bs[i] == e;
        assert kept[0] == bs[0] && i > 0 && !Later(bs[0], bs[i]);
        hide InOrder, SomeBaselines, Tail;
        forall k | 1 <= k < 8
          ensures !Later(e, kept[k])
        {
          assert kept[k] in Tail(bs, 7);
        }
      }
    }
  }

  // ----- Which rows stay -----

  lemma RankAboveIsAnOrder(a: Rank, b: Rank, c: Rank)
    ensures !RankAbove(a, a) && !(RankAbove(a, b) && RankAbove(b, a))
    ensures RankAbove(a, c) ==> RankAbove(a, b) || RankAbove(b, c)
  {
    hide Fresher;
    FresherIsAnOrder(a.best, b.best, c.best);
    FresherIsAnOrder(b.best, a.best, c.best);
    FresherIsAnOrder(c.best, b.best, a.best);
    FresherIsAnOrder(c.best, a.best, b.best);
    FresherIsAnOrder(b.best, c.best, a.best);
    FresherIsAnOrder(a.best, b.best, a.best);
  }

  ghost predicate RanksRise(rs: seq<Rank>) {
    forall i, j :: 0 <= i < j < |rs| ==> !RankAbove(rs[i], rs[j])
  }

  lemma {:induction false} InsertRanksRise(rs: seq<Rank>, r: Rank)
    requires RanksRise(rs)
    ensures RanksRise(Insert(rs, r, RankAbove)) && |Insert(rs, r, RankAbove)| == |rs| + 1
  {
    hide RankAbove;
    if rs != [] {
      var n := |rs| - 1;
      if RankAbove(rs[n], r) {
        InsertRanksRise(rs[..n], r);
        var front := Insert(rs[..n], r, RankAbove);
        forall i | 0 <= i < |front|
          ensures !RankAbove(front[i], rs[n])
        {
          InsertHas(rs[..n], r, RankAbove, front[i]);
          assert front[i] in front;
          RankAboveIsAnOrder(rs[n], r, rs[n]);
        }
      } else {
        forall i | 0 <= i < n
          ensures !RankAbove(rs[i], r)
        {
          RankAboveIsAnOrder(rs[i], rs[n], r);
        }
      }
    }
  }

  lemma {:induction false} SortRanksRise(rs: seq<Rank>)
    ensures RanksRise(Sort(rs, RankAbove)) && |Sort(rs, RankAbove)| == |rs|
  {
    if rs != [] {
      hide RankAbove, RanksRise, Insert;
      SortRanksRise(rs[..|rs| - 1]);
      InsertRanksRise(Sort(rs[..|rs| - 1], RankAbove), rs[|rs| - 1]);
    }
  }

  lemma {:induction false} FreshestIsLatest(cs: seq<Event>, e: Event)
    requires cs != []
    ensures Freshest(cs) in cs && (e in cs ==> !Later(e, Freshest(cs)))
  {
    hide Later, Fresher;
    var n := |cs| - 1;
    FresherMeansLater(cs[n], cs[n]);
    FresherIsAnOrder(cs[n], cs[n], cs[n]);
    if n > 0 {
      FreshestIsLatest(cs[..n], e);
      var best := Freshest(cs[..n]);
      assert cs == cs[..n] + [cs[n]];
      FresherMeansLater(cs[n], best);
      FresherMeansLater(e, best);
      FresherMeansLater(e, cs[n]);
      FresherIsAnOrder(e, cs[n], best);
      FresherIsAnOrder(cs[n], e, best);
      FresherIsAnOrder(e, best, cs[n]);
    }
  }

  lemma {:induction false} RanksHaveTheLatest(ps: seq<Process>, r: Rank, e: Event)
    requires r in Ranks(ps)
    ensures exists p :: p in ps && r.row == Refreshed(p) && r.best in Candidates(p)
                        && (e in Candidates(p) ==> !Later(e, r.best))
  {
    hide Candidates, Refreshed, Freshest, Later;
    var n := |ps| - 1;
    assert ps == ps[..n] + [ps[n]];
    if r in Ranks(ps[..n]) {
      RanksHaveTheLatest(ps[..n], r, e);
    } else {
      FreshestIsLatest(Candidates(ps[n]), e);
    }
  }

  lemma RowPosition(rs: seq<Rank>, k: nat, i: nat)
    requires RankIdsDistinct(rs) && k <= |rs| && i < |rs|
    ensures rs[i].row in Rows(rs[k..]) <==> i >= k
  {
    var rows := Rows(rs[k..]);
    assert forall m :: 0 <= m < |rows| ==> rows[m] == rs[k + m].row;
    if i >= k {
      assert rows[i - k] == rs[i].row;
    }
  }

  /** The rows of the last `n` ranks, in a list with distinct ids: the others come before them. */
  lemma TailRows(rs: seq<Rank>, n: nat, r: Rank, q: Rank)
    requires RankIdsDistinct(rs) && RanksRise(rs) && r in rs && q in rs
    requires r.row !in Rows(Tail(rs, n)) && q.row in Rows(Tail(rs, n))
    ensures |Rows(Tail(rs, n))| == n && r.row.id != q.row.id && !RankAbove(r, q)
  {
    hide RankAbove;
    var k := |rs| - |Tail(rs, n)|;
    assert Tail(rs, n) == rs[k..];
    var i :| 0 <= i < |rs| && rs[i] == r;
    var j :| 0 <= j < |rs| && rs[j] == q;
    RowPosition(rs, k, i);
    RowPosition(rs, k, j);
    hide Tail;
    assert i < k <= j;
  }

  /**
   A row goes only when eight others stay, and each of these has a later candidate than any of its own, or one
   as late and a greater id.
   */
  lemma KeptRowsAreTheLatest(ps: seq<Process>, r: Rank, q: Rank)
    requires IdsDistinct(ps) && r in Ranks(ps) && q in Ranks(ps)
    requires r.row !in KeptRows(ps) && q.row in KeptRows(ps)
    ensures |KeptRows(ps)| == 8
    ensures Later(q.best, r.best) || (!Later(r.best, q.best) && q.row.id > r.row.id)
  {
    FresherMeansLater(q.best, r.best);
    FresherMeansLater(r.best, q.best);
    SortRanksRise(Ranks(ps));
    RanksAre(ps);
    SortKeepsRanksDistinct(Ranks(ps));
    SortHas(Ranks(ps), RankAbove, r);
    SortHas(Ranks(ps), RankAbove, q);
    hide Ranks, Sort, Fresher, Later, IdsDistinct, RankAbove, RanksRise, RankIdsDistinct, Rows, Tail;
    TailRows(Sort(Ranks(ps), RankAbove), 8, r, q);
    DistinctRanksAreOrdered(q, r);
  }

  lemma DistinctRanksAreOrdered(q: Rank, r: Rank)
    requires q.row.id != r.row.id && !RankAbove(r, q)
    ensures Fresher(q.best, r.best) || (!Fresher(r.best, q.best) && q.row.id > r.row.id)
  {
  }

  // ----- Fitting the document -----

  /**
   One reduction: every row with several events keeps the later half of them, rounded up; when no row has, the
   first row with several baselines loses its second; when none has, the row first in line goes.
   */
  lemma ReductionExactly(ps: seq<Process>, i: nat)
    requires i < |ps|
    ensures var many := exists k :: 0 <= k < |ps| && |ps[k].events| > 1;
            var based := exists k :: 0 <= k < |ps| && |ps[k].baselines| > 1;
            && (Reduced(ps).None? <==> !many && !based && |ps| == 1)
            && (many ==>
                  var q := if |Reduced(ps).value| == |ps| then Reduced(ps).value[i] else ps[i];
                  var n := |ps[i].events|;
                  && |Reduced(ps).value| == |ps| && q == ps[i].(events := q.events)
                  && |q.events| == (n + 1) / 2 && q.events == ps[i].events[n - (n + 1) / 2..])
            && (!many && based ==>
                  exists k :: && 0 <= k < |ps| && |ps[k].baselines| > 1
                              && (forall m :: 0 <= m < k ==> |ps[m].baselines| <= 1)
                              && Reduced(ps).value ==
                                 ps[k := ps[k].(baselines := [ps[k].baselines[0]] + ps[k].baselines[2..])])
            && (!many && !based && |ps| > 1 ==> Reduced(ps).value == ps[1..])
  {
    var many := exists k :: 0 <= k < |ps| && |ps[k].events| > 1;
    assert SomeEvents(ps) <==> many;
    var k := FirstWithBaselines(ps);
    if many {
      HalfStays(ps[i].events);
    } else if k < |ps| {
      assert ps[k].baselines[..1] == [ps[k].baselines[0]];
      var m :| m == k;
      assert forall n :: 0 <= n < m ==> |ps[n].baselines| <= 1 by {
        FirstIsFirst(ps);
      }
    }
  }

  lemma {:induction false} FirstIsFirst(ps: seq<Process>)
    ensures forall n :: 0 <= n < FirstWithBaselines(ps) ==> |ps[n].baselines| <= 1
  {
    if ps != [] && |ps[0].baselines| <= 1 {
      FirstIsFirst(ps[1..]);
      assert forall n :: 0 < n < |ps| ==> ps[n] == ps[1..][n - 1];
    }
  }

  lemma HalfStays(es: seq<Event>)
    ensures |Halved(es)| == (|es| + 1) / 2 && Halved(es) == es[|es| - (|es| + 1) / 2..]
  {
  }
}
