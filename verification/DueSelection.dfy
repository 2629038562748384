/**
 Which horizons the observer samples next (src/observation_tracker.py): every due horizon in deadline
 order, sample windows still open before missed ones, and a fair round robin over the missed backlog.
 */
module DueSelection {
  import opened ObservationStore
  import opened Wrappers

  const MAX_HORIZON_SAMPLE_LAG_SECONDS: real := 60.0

  const HORIZONS: seq<Horizon> := [M1, M3, M5, M15, M30, M60]

  datatype Due = Due(id: Id, horizon: Horizon, amount: int, target: real)

  function Delay(h: Horizon): real {
    match h
    case M1 => 60.0
    case M3 => 180.0
    case M5 => 300.0
    case M15 => 900.0
    case M30 => 1800.0
    case M60 => 3600.0
  }

  function Rank(h: Horizon): nat {
    match h
    case M1 => 0
    case M3 => 1
    case M5 => 2
    case M15 => 3
    case M30 => 4
    case M60 => 5
  }

  /** The 60-second boundary itself is still in time. */
  predicate Missed(now: real, target: real) { now - target > MAX_HORIZON_SAMPLE_LAG_SECONDS }

  function Min(a: nat, b: nat): nat { if a < b then a else b }

  // ----- All due horizons, in deadline order -----

  predicate IsDue(r: Row, h: Horizon, now: real) {
    r.status == Pending && !Sampled(r, h) && now >= r.startedAt + Delay(h)
  }

  function DueOf(r: Row, h: Horizon): Due { Due(r.id, h, r.amount, r.startedAt + Delay(h)) }

  /** Deadline first, then the shorter horizon, then the observation id. */
  predicate Precedes(a: Due, b: Due) {
    a.target < b.target
    || (a.target == b.target && Rank(a.horizon) < Rank(b.horizon))
    || (a.target == b.target && Rank(a.horizon) == Rank(b.horizon) && a.id <= b.id)
  }

  predicate Sorted(xs: seq<Due>) {
    forall i, j :: 0 <= i < j < |xs| ==> Precedes(xs[i], xs[j])
  }

  function Insert(xs: seq<Due>, x: Due): seq<Due> {
    if xs == [] then [x]
    else if Precedes(xs[|xs| - 1], x) then xs + [x]
    else Insert(xs[..|xs| - 1], x) + [xs[|xs| - 1]]
  }

  lemma PrecedesIsAnOrder(a: Due, b: Due, c: Due)
    ensures Precedes(a, b) || Precedes(b, a)
    ensures Precedes(a, b) && Precedes(b, c) ==> Precedes(a, c)
  {
  }

  lemma AppendSorted(xs: seq<Due>, x: Due)
    requires Sorted(xs) && forall i :: 0 <= i < |xs| ==> Precedes(xs[i], x)
    ensures Sorted(xs + [x])
  {
    hide Precedes;
  }

  lemma LastIsGreatest(xs: seq<Due>, x: Due)
    requires Sorted(xs) && xs != [] && Precedes(xs[|xs| - 1], x)
    ensures forall i :: 0 <= i < |xs| ==> Precedes(xs[i], x)
  {
    hide Precedes;
    forall i | 0 <= i < |xs|
      ensures Precedes(xs[i], x)
    {
      PrecedesIsAnOrder(xs[i], xs[|xs| - 1], x);
    }
  }

  lemma {:induction false} InsertPermutes(xs: seq<Due>, x: Due)
    ensures multiset(Insert(xs, x)) == multiset(xs) + multiset{x}
  {
    hide Precedes;
    if xs != [] && !Precedes(xs[|xs| - 1], x) {
      InsertPermutes(xs[..|xs| - 1], x);
      assert xs == xs[..|xs| - 1] + [xs[|xs| - 1]];
    }
  }

  lemma {:induction false} InsertSorts(xs: seq<Due>, x: Due)
    requires Sorted(xs)
    ensures Sorted(Insert(xs, x))
  {
    hide Precedes;
    if xs == [] {
    } else if Precedes(xs[|xs| - 1], x) {
      LastIsGreatest(xs, x);
      AppendSorted(xs, x);
    } else {
      var n := |xs| - 1;
      var front := Insert(xs[..n], x);
      InsertSorts(xs[..n], x);
      forall i | 0 <= i < |front|
        ensures Precedes(front[i], xs[n])
      {
        InsertPermutes(xs[..n], x);
        assert front[i] in multiset(front);
        PrecedesIsAnOrder(x, xs[n], x);
      }
      AppendSorted(front, xs[n]);
    }
  }

  function Sort(xs: seq<Due>): seq<Due> {
    if xs == [] then [] else Insert(Sort(xs[..|xs| - 1]), xs[|xs| - 1])
  }

  lemma SplitLast(xs: seq<Due>)
    requires xs != []
    ensures multiset(xs) == multiset(xs[..|xs| - 1]) + multiset{xs[|xs| - 1]}
  {
    assert xs == xs[..|xs| - 1] + [xs[|xs| - 1]];
  }

  lemma {:induction false} SortPermutes(xs: seq<Due>)
    ensures multiset(Sort(xs)) == multiset(xs)
  {
    if xs != [] {
      var rest, x := xs[..|xs| - 1], xs[|xs| - 1];
      SortPermutes(rest);
      assert Sort(xs) == Insert(Sort(rest), x);
      hide Insert, Sort;
      InsertPermutes(Sort(rest), x);
      SplitLast(xs);
    }
  }

  lemma {:induction false} SortSorts(xs: seq<Due>)
    ensures Sorted(Sort(xs))
  {
    if xs != [] {
      hide Insert, Sorted;
      SortSorts(xs[..|xs| - 1]);
      InsertSorts(Sort(xs[..|xs| - 1]), xs[|xs| - 1]);
    }
  }

  function DueOfRow(r: Row, hs: seq<Horizon>, now: real): seq<Due> {
    if hs == [] then []
    else
      DueOfRow(r, hs[..|hs| - 1], now)
      + if IsDue(r, hs[|hs| - 1], now) then [DueOf(r, hs[|hs| - 1])] else []
  }

  function AllDue(rows: seq<Row>, now: real): seq<Due> {
    if rows == [] then [] else AllDue(rows[..|rows| - 1], now) + DueOfRow(rows[|rows| - 1], HORIZONS, now)
  }

  function DueCandidates(rows: seq<Row>, now: real): seq<Due> { Sort(AllDue(rows, now)) }

  method DueSampleCandidates(rows: seq<Row>, now: real) returns (due: seq<Due>)
    ensures due == DueCandidates(rows, now)
  {
    hide Sort, IsDue;
    due := [];
    for i := 0 to |rows|
      invariant due == AllDue(rows[..i], now)
    {
      ghost var before := due;
      assert rows[..i + 1][..i] == rows[..i];
      for k := 0 to |HORIZONS|
        invariant due == before + DueOfRow(rows[i], HORIZONS[..k], now)
      {
        assert HORIZONS[..k + 1][..k] == HORIZONS[..k];
        if IsDue(rows[i], HORIZONS[k], now) {
          due := due + [DueOf(rows[i], HORIZONS[k])];
        }
      }
      assert HORIZONS[..|HORIZONS|] == HORIZONS;
    }
    assert rows[..|rows|] == rows;
    due := Sort(due);
  }

  lemma {:induction false} RowIsScannedOnce(r: Row, hs: seq<Horizon>, now: real, d: Due)
    requires forall i, j :: 0 <= i < j < |hs| ==> hs[i] != hs[j]
    ensures multiset(DueOfRow(r, hs, now))[d] ==
            if d.horizon in hs && IsDue(r, d.horizon, now) && d == DueOf(r, d.horizon) then 1 else 0
  {
    if hs != [] {
      hide IsDue;
      RowIsScannedOnce(r, hs[..|hs| - 1], now, d);
      assert hs == hs[..|hs| - 1] + [hs[|hs| - 1]];
    }
  }

  predicate IsDueIn(rows: seq<Row>, now: real, d: Due) {
    exists i :: 0 <= i < |rows| && IsDue(rows[i], d.horizon, now) && d == DueOf(rows[i], d.horizon)
  }

  lemma DueInLastOrBefore(rows: seq<Row>, now: real, d: Due)
    requires rows != []
    ensures var n := |rows| - 1;
            IsDueIn(rows, now, d) <==>
            IsDueIn(rows[..n], now, d) || (IsDue(rows[n], d.horizon, now) && d == DueOf(rows[n], d.horizon))
  {
    hide IsDue, DueOf;
    var n := |rows| - 1;
    if IsDueIn(rows[..n], now, d) {
      var i :| 0 <= i < n && IsDue(rows[..n][i], d.horizon, now) && d == DueOf(rows[..n][i], d.horizon);
      assert rows[i] == rows[..n][i];
    }
    if IsDueIn(rows, now, d) {
      var i :| 0 <= i < |rows| && IsDue(rows[i], d.horizon, now) && d == DueOf(rows[i], d.horizon);
      assert i < n ==> rows[i] == rows[..n][i];
    }
  }

  lemma {:induction false} EachRowIsScannedOnce(rows: seq<Row>, now: real, d: Due)
    requires UniqueIds(rows)
    ensures multiset(AllDue(rows, now))[d] == if IsDueIn(rows, now, d) then 1 else 0
  {
    if rows != [] {
      var n := |rows| - 1;
      assert UniqueIds(rows[..n]);
      EachRowIsScannedOnce(rows[..n], now, d);
      RowIsScannedOnce(rows[n], HORIZONS, now, d);
      EveryHorizonIsListed(d.horizon);
      DueInLastOrBefore(rows, now, d);
      if IsDueIn(rows[..n], now, d) {
        var i :| 0 <= i < n && rows[..n][i].id == d.id;
        assert rows[i].id != rows[n].id;
      }
      hide IsDue, DueOfRow, IsDueIn, UniqueIds;
    }
  }

  lemma EveryHorizonIsListed(h: Horizon)
    ensures h in HORIZONS
  {
    assert HORIZONS[Rank(h)] == h;
  }

  /**
   The candidates are exactly the due (observation, horizon) pairs, each once, by deadline. A sampled
   horizon, a finished observation or a target in the future is never among them.
   */
  lemma CandidatesAreExact(rows: seq<Row>, now: real, d: Due)
    requires UniqueIds(rows)
    ensures Sorted(DueCandidates(rows, now))
    ensures multiset(DueCandidates(rows, now))[d] == if IsDueIn(rows, now, d) then 1 else 0
  {
    hide Sort, Sorted, IsDueIn;
    SortSorts(AllDue(rows, now));
    SortPermutes(AllDue(rows, now));
    EachRowIsScannedOnce(rows, now, d);
  }

  /** The horizons in minutes. */
  function Minutes(h: Horizon): nat {
    match h
    case M1 => 1
    case M3 => 3
    case M5 => 5
    case M15 => 15
    case M30 => 30
    case M60 => 60
  }

  lemma CandidatesArePairs(rows: seq<Row>, now: real, d: Due)
    requires UniqueIds(rows)
    ensures d in DueCandidates(rows, now) <==> IsDueIn(rows, now, d)
  {
    hide UniqueIds, IsDueIn;
    CandidatesAreExact(rows, now, d);
    assert d in DueCandidates(rows, now) <==> d in multiset(DueCandidates(rows, now));
  }

  /**
   A pair is due exactly when its observation is pending, has no sample for the horizon, and that many minutes
   have passed since it started; the earlier deadline goes first, then the shorter horizon, then the smaller id.
   */
  lemma DueExactlyWhen(rows: seq<Row>, now: real, d: Due, i: nat, j: nat)
    requires UniqueIds(rows)
    ensures d in DueCandidates(rows, now) <==>
            exists k :: && 0 <= k < |rows| && rows[k].id == d.id && rows[k].amount == d.amount
                        && rows[k].status == Pending
                        && (forall s :: s in rows[k].samples ==> s.horizon != d.horizon)
                        && d.target == rows[k].startedAt + 60.0 * Minutes(d.horizon) as real && now >= d.target
    ensures i < j < |DueCandidates(rows, now)| ==>
              var a, b := DueCandidates(rows, now)[i], DueCandidates(rows, now)[j];
              && a.target <= b.target
              && (a.target == b.target ==> Minutes(a.horizon) <= Minutes(b.horizon))
              && (a.target == b.target && a.horizon == b.horizon ==> a.id <= b.id)
  {
    CandidatesAreExact(rows, now, d);
    CandidatesArePairs(rows, now, d);
    hide DueCandidates, UniqueIds;
    assert Delay(d.horizon) == 60.0 * Minutes(d.horizon) as real;
  }

  // ----- Round robin over observations -----

  /** The queue a dictionary of queues holds for one observation; an absent key holds nothing. */
  function Held(qs: seq<seq<Due>>, id: Id): seq<Due> {
    if qs == [] then [] else if qs[0] != [] && qs[0][0].id == id then qs[0] else Held(qs[1..], id)
  }

  /** The dictionary of queues, in order of first appearance: non-empty, one per observation. */
  predicate QueuesOk(qs: seq<seq<Due>>) {
    qs != [] ==>
      && qs[0] != []
      && (forall d :: d in qs[0] ==> d.id == qs[0][0].id)
      && Held(qs[1..], qs[0][0].id) == []
      && QueuesOk(qs[1..])
  }

  function Enqueue(qs: seq<seq<Due>>, d: Due): seq<seq<Due>> {
    if qs == [] then [[d]]
    else if qs[0] != [] && qs[0][0].id == d.id then [qs[0] + [d]] + qs[1..]
    else [qs[0]] + Enqueue(qs[1..], d)
  }

  function Group(xs: seq<Due>): seq<seq<Due>> {
    if xs == [] then [] else Enqueue(Group(xs[..|xs| - 1]), xs[|xs| - 1])
  }

  function Total(qs: seq<seq<Due>>): nat {
    if qs == [] then 0 else |qs[0]| + Total(qs[1..])
  }

  /** One round: the head of every queue, and what is left of the queues. */
  function Heads(qs: seq<seq<Due>>): seq<Due> {
    if qs == [] then [] else (if qs[0] == [] then [] else [qs[0][0]]) + Heads(qs[1..])
  }

  function Tails(qs: seq<seq<Due>>): seq<seq<Due>> {
    if qs == [] then [] else (if |qs[0]| <= 1 then [] else [qs[0][1..]]) + Tails(qs[1..])
  }

  lemma {:induction false} RoundShrinks(qs: seq<seq<Due>>)
    ensures Total(Tails(qs)) + |Heads(qs)| == Total(qs)
  {
    if qs != [] {
      RoundShrinks(qs[1..]);
      if |qs[0]| > 1 {
        assert Tails(qs)[0] == qs[0][1..] && Tails(qs)[1..] == Tails(qs[1..]);
      } else {
        assert Tails(qs) == Tails(qs[1..]);
      }
    }
  }

  /** Round after round until every queue is empty. */
  function Rounds(qs: seq<seq<Due>>): seq<Due>
    decreases Total(qs)
  {
    RoundShrinks(qs);
    if Heads(qs) == [] then [] else Heads(qs) + Rounds(Tails(qs))
  }

  function FairRecovery(xs: seq<Due>, limit: nat): seq<Due> {
    var all := Rounds(Group(xs));
    all[..Min(limit, |all|)]
  }

  method FairRecoveryCandidates(xs: seq<Due>, limit: nat) returns (selected: seq<Due>)
    ensures selected == FairRecovery(xs, limit)
  {
    hide Enqueue, Heads, Tails, Rounds, QueuesOk, Held, Total;
    var qs: seq<seq<Due>> := [];
    for i := 0 to |xs|
      invariant qs == Group(xs[..i])
    {
      assert xs[..i + 1][..i] == xs[..i];
      qs := Enqueue(qs, xs[i]);
    }
    assert xs[..|xs|] == xs;
    GroupHolds(xs);
    selected := TakeRounds(qs, limit);
  }

  method TakeRounds(queues: seq<seq<Due>>, limit: nat) returns (selected: seq<Due>)
    requires QueuesOk(queues)
    ensures selected == Rounds(queues)[..Min(limit, |Rounds(queues)|)]
  {
    hide Heads, Tails, Rounds, QueuesOk, Total;
    var qs := queues;
    ghost var all := Rounds(queues);
    selected := [];
    assert all == selected + Rounds(qs);
    while qs != [] && |selected| < limit
      invariant QueuesOk(qs) && |selected| <= limit && all == selected + Rounds(qs)
      decreases Total(qs)
    {
      RoundUnfolds(qs);
      RoundKeepsQueues(qs);
      ghost var before := selected;
      var next;
      selected, next := TakeRound(qs, selected, limit);
      RoundTaken(all, before, Heads(qs), Rounds(Tails(qs)), selected, limit);
      if |selected| == limit {
        return;
      }
      qs := next;
    }
    if qs == [] {
      NoQueuesLeft(qs);
    }
    assert selected == all[..|selected|];
  }

  lemma RoundTaken(all: seq<Due>, before: seq<Due>, heads: seq<Due>, rest: seq<Due>, selected: seq<Due>, limit: nat)
    requires all == before + (heads + rest) && |before| < limit
    requires selected == (before + heads)[..Min(limit, |before + heads|)]
    ensures |selected| == limit ==> selected == all[..Min(limit, |all|)]
    ensures |selected| < limit ==> all == selected + rest
  {
    assert all == (before + heads) + rest;
  }

  /** One pass over the queues, cut off as soon as the limit is reached. */
  method TakeRound(qs: seq<seq<Due>>, before: seq<Due>, limit: nat)
    returns (selected: seq<Due>, next: seq<seq<Due>>)
    requires QueuesOk(qs) && |before| < limit
    ensures var all := before + Heads(qs); selected == all[..Min(limit, |all|)]
    ensures |selected| < limit ==> next == Tails(qs)
  {
    hide Heads, Tails, QueuesOk;
    ghost var all := before + Heads(qs);
    selected, next := before, [];
    assert qs[0..] == qs;
    for i := 0 to |qs|
      invariant all == selected + Heads(qs[i..]) && |selected| < limit
      invariant Tails(qs) == next + Tails(qs[i..])
    {
      HeadsUnfold(qs, i);
      selected := selected + [qs[i][0]];
      if |qs[i]| > 1 {
        next := next + [qs[i][1..]];
      }
      if |selected| >= limit {
        return;
      }
    }
    NoQueuesLeft(qs[|qs|..]);
  }

  lemma NoQueuesLeft(qs: seq<seq<Due>>)
    requires qs == []
    ensures Heads(qs) == [] && Tails(qs) == [] && Rounds(qs) == []
  {
  }

  lemma RoundUnfolds(qs: seq<seq<Due>>)
    requires QueuesOk(qs) && qs != []
    ensures Heads(qs) != [] && Rounds(qs) == Heads(qs) + Rounds(Tails(qs)) && Total(Tails(qs)) < Total(qs)
  {
    hide Tails, Total, Held;
    RoundShrinks(qs);
  }

  lemma {:induction false} HeadsUnfold(qs: seq<seq<Due>>, i: nat)
    requires QueuesOk(qs) && i < |qs|
    ensures qs[i] != []
    ensures Heads(qs[i..]) == [qs[i][0]] + Heads(qs[i + 1..])
    ensures Tails(qs[i..]) == (if |qs[i]| <= 1 then [] else [qs[i][1..]]) + Tails(qs[i + 1..])
  {
    hide Held;
    if i > 0 {
      HeadsUnfold(qs[1..], i - 1);
      assert qs[i..] == qs[1..][i - 1..] && qs[i + 1..] == qs[1..][i..];
    } else {
      assert qs[0..] == qs;
    }
  }

  // ----- What the round robin guarantees -----

  function Of(xs: seq<Due>, id: Id): seq<Due> {
    if xs == [] then []
    else Of(xs[..|xs| - 1], id) + if xs[|xs| - 1].id == id then [xs[|xs| - 1]] else []
  }

  lemma {:induction false} OfConcat(xs: seq<Due>, ys: seq<Due>, id: Id)
    ensures Of(xs + ys, id) == Of(xs, id) + Of(ys, id)
  {
    if ys == [] {
      assert xs + ys == xs;
    } else {
      OfConcat(xs, ys[..|ys| - 1], id);
      assert (xs + ys)[..|xs + ys| - 1] == xs + ys[..|ys| - 1];
    }
  }

  lemma {:induction false} EnqueueHolds(qs: seq<seq<Due>>, d: Due, id: Id)
    requires QueuesOk(qs)
    ensures Held(Enqueue(qs, d), id) == Held(qs, id) + if id == d.id then [d] else []
  {
    if qs != [] {
      EnqueueHolds(qs[1..], d, id);
      if qs[0][0].id == d.id {
        assert Enqueue(qs, d)[1..] == qs[1..];
      } else {
        assert Enqueue(qs, d)[1..] == Enqueue(qs[1..], d);
      }
    }
  }

  lemma {:induction false} EnqueueKeepsQueues(qs: seq<seq<Due>>, d: Due)
    requires QueuesOk(qs)
    ensures QueuesOk(Enqueue(qs, d))
  {
    var after := Enqueue(qs, d);
    if qs == [] {
      assert QueuesOk(after[1..]) && Held(after[1..], d.id) == [];
    } else if qs[0][0].id == d.id {
      assert after[1..] == qs[1..] && after[0][0] == qs[0][0];
    } else {
      EnqueueKeepsQueues(qs[1..], d);
      EnqueueHolds(qs[1..], d, qs[0][0].id);
      assert after[1..] == Enqueue(qs[1..], d);
    }
  }

  lemma {:induction false} GroupHolds(xs: seq<Due>)
    ensures QueuesOk(Group(xs)) && forall id :: Held(Group(xs), id) == Of(xs, id)
  {
    if xs != [] {
      hide QueuesOk, Enqueue, Held;
      var n := |xs| - 1;
      GroupHolds(xs[..n]);
      EnqueueKeepsQueues(Group(xs[..n]), xs[n]);
      forall id
        ensures Held(Group(xs), id) == Of(xs, id)
      {
        EnqueueHolds(Group(xs[..n]), xs[n], id);
      }
    }
  }

  lemma {:induction false} RoundTakesHead(qs: seq<seq<Due>>, id: Id)
    requires QueuesOk(qs)
    ensures Of(Heads(qs), id) == if Held(qs, id) == [] then [] else [Held(qs, id)[0]]
  {
    if qs != [] {
      RoundTakesHead(qs[1..], id);
      OfConcat([qs[0][0]], Heads(qs[1..]), id);
      assert Of([qs[0][0]], id) == if qs[0][0].id == id then [qs[0][0]] else [];
    }
  }

  lemma {:induction false} RoundLeavesTail(qs: seq<seq<Due>>, id: Id)
    requires QueuesOk(qs)
    ensures Held(Tails(qs), id) == if |Held(qs, id)| <= 1 then [] else Held(qs, id)[1..]
  {
    if qs != [] {
      RoundLeavesTail(qs[1..], id);
      if |qs[0]| > 1 {
        assert Tails(qs)[0] == qs[0][1..] && Tails(qs)[1..] == Tails(qs[1..]);
        assert qs[0][1] in qs[0];
      } else {
        assert Tails(qs) == Tails(qs[1..]);
      }
    }
  }

  lemma {:induction false} RoundKeepsQueues(qs: seq<seq<Due>>)
    requires QueuesOk(qs)
    ensures QueuesOk(Tails(qs))
  {
    if qs != [] {
      RoundKeepsQueues(qs[1..]);
      RoundLeavesTail(qs[1..], qs[0][0].id);
      if |qs[0]| > 1 {
        assert Tails(qs)[0] == qs[0][1..] && Tails(qs)[1..] == Tails(qs[1..]);
        assert qs[0][1] in qs[0];
      } else {
        assert Tails(qs) == Tails(qs[1..]);
      }
    }
  }

  lemma {:induction false} RoundsKeepEachOrder(qs: seq<seq<Due>>, id: Id)
    requires QueuesOk(qs)
    ensures Of(Rounds(qs), id) == Held(qs, id)
    decreases Total(qs)
  {
    hide QueuesOk, Held, Of, Heads, Tails, Total, Rounds;
    if qs == [] {
      NoQueuesLeft(qs);
      assert Of([], id) == [] && Held(qs, id) == [] by { EmptyHolds(id); }
    } else {
      RoundUnfolds(qs);
      RoundKeepsQueues(qs);
      RoundTakesHead(qs, id);
      RoundLeavesTail(qs, id);
      RoundsKeepEachOrder(Tails(qs), id);
      OfConcat(Heads(qs), Rounds(Tails(qs)), id);
    }
  }

  lemma EmptyHolds(id: Id)
    ensures Of([], id) == [] && Held([], id) == []
  {
  }

  lemma {:induction false} HeadsAreShared(xs: seq<Due>, k: nat, id: Id)
    requires k <= |xs|
    ensures |Of(xs[..k], id)| <= |Of(xs, id)|
  {
    OfConcat(xs[..k], xs[k..], id);
    assert xs[..k] + xs[k..] == xs;
  }

  /** In any prefix of the rounds an observation leads another that still has work by at most one pick. */
  lemma {:induction false} RoundsAreFair(qs: seq<seq<Due>>, k: nat, a: Id, b: Id)
    requires QueuesOk(qs) && k <= |Rounds(qs)|
    requires |Of(Rounds(qs)[..k], b)| < |Held(qs, b)|
    ensures |Of(Rounds(qs)[..k], a)| <= |Of(Rounds(qs)[..k], b)| + 1
    decreases Total(qs)
  {
    hide QueuesOk, Held, Of, Heads, Tails, Total, Rounds;
    if qs == [] {
      NoQueuesLeft(qs);
      EmptyHolds(a);
      assert Rounds(qs)[..k] == [];
    } else {
      RoundUnfolds(qs);
      RoundKeepsQueues(qs);
      RoundTakesHead(qs, a);
      RoundLeavesTail(qs, a);
      RoundTakesHead(qs, b);
      RoundLeavesTail(qs, b);
      var h := |Heads(qs)|;
      if k <= h {
        assert Rounds(qs)[..k] == Heads(qs)[..k];
        HeadsAreShared(Heads(qs), k, a);
      } else {
        var rest := Rounds(Tails(qs));
        assert Rounds(qs)[..k] == Heads(qs) + rest[..k - h];
        OfConcat(Heads(qs), rest[..k - h], a);
        OfConcat(Heads(qs), rest[..k - h], b);
        if |Held(qs, b)| > 1 {
          RoundsAreFair(Tails(qs), k - h, a, b);
        }
      }
    }
  }

  lemma {:induction false} CountIsLocal(xs: seq<Due>, d: Due)
    ensures multiset(xs)[d] == multiset(Of(xs, d.id))[d]
  {
    if xs != [] {
      CountIsLocal(xs[..|xs| - 1], d);
      assert xs == xs[..|xs| - 1] + [xs[|xs| - 1]];
    }
  }

  lemma RoundsPermute(xs: seq<Due>)
    ensures multiset(Rounds(Group(xs))) == multiset(xs) && |Rounds(Group(xs))| == |xs|
  {
    hide QueuesOk, Held, Of, Rounds, Group;
    GroupHolds(xs);
    forall d: Due
      ensures multiset(Rounds(Group(xs)))[d] == multiset(xs)[d]
    {
      RoundsKeepEachOrder(Group(xs), d.id);
      CountIsLocal(Rounds(Group(xs)), d);
      CountIsLocal(xs, d);
    }
    assert multiset(Rounds(Group(xs))) == multiset(xs);
    assert |multiset(Rounds(Group(xs)))| == |multiset(xs)|;
  }

  /**
   Backlog recovery takes min(limit, n) of the candidates, each observation's in their own order, and never
   gives one observation more than one pick ahead of another whose candidates are not all taken.
   */
  lemma BacklogRecoveryIsFair(xs: seq<Due>, limit: nat, a: Id, b: Id)
    ensures var got := FairRecovery(xs, limit);
            && |got| == Min(limit, |xs|)
            && multiset(got) <= multiset(xs)
            && Of(got, a) <= Of(xs, a)
            && (|Of(got, b)| < |Of(xs, b)| ==> |Of(got, a)| <= |Of(got, b)| + 1)
  {
    hide QueuesOk, Held, Of, Rounds, Group;
    var all := Rounds(Group(xs));
    var got := FairRecovery(xs, limit);
    RoundsPermute(xs);
    GroupHolds(xs);
    RoundsKeepEachOrder(Group(xs), a);
    RoundsKeepEachOrder(Group(xs), b);
    var rest := all[|got|..];
    assert all == got + rest;
    OfConcat(got, rest, a);
    if |Of(got, b)| < |Of(xs, b)| {
      RoundsAreFair(Group(xs), |got|, a, b);
    }
  }

  // ----- The batch of one tick -----

  function Timely(due: seq<Due>, now: real): seq<Due> {
    if due == [] then []
    else Timely(due[..|due| - 1], now) + if Missed(now, due[|due| - 1].target) then [] else [due[|due| - 1]]
  }

  function Historical(due: seq<Due>, now: real): seq<Due> {
    if due == [] then []
    else Historical(due[..|due| - 1], now) + if Missed(now, due[|due| - 1].target) then [due[|due| - 1]] else []
  }

  function SelectBatch(due: seq<Due>, now: real, limit: nat): seq<Due> {
    var timely := Timely(due, now);
    timely[..Min(limit, |timely|)]
    + if |timely| >= limit then [] else FairRecovery(Historical(due, now), limit - |timely|)
  }

  function DueSamples(rows: seq<Row>, now: real): seq<Due> {
    SelectBatch(DueCandidates(rows, now), now, SAMPLE_BATCH_SIZE)
  }

  method DueObservationSamples(rows: seq<Row>, now: real) returns (selected: seq<Due>)
    ensures selected == DueSamples(rows, now)
  {
    hide DueCandidates, Timely, Historical, FairRecovery;
    var due := DueSampleCandidates(rows, now);
    var timely := Timely(due, now);
    selected := timely[..Min(SAMPLE_BATCH_SIZE, |timely|)];
    if |selected| < SAMPLE_BATCH_SIZE {
      var recovered := FairRecoveryCandidates(Historical(due, now), SAMPLE_BATCH_SIZE - |selected|);
      selected := selected + recovered;
    }
  }

  lemma AppendPartition(ts: seq<Due>, hs: seq<Due>, rest: seq<Due>, d: Due)
    requires multiset(ts) + multiset(hs) == multiset(rest)
    ensures multiset(ts + [d]) + multiset(hs) == multiset(rest + [d])
    ensures multiset(ts) + multiset(hs + [d]) == multiset(rest + [d])
  {
  }

  lemma WindowsUnfold(rest: seq<Due>, d: Due, now: real)
    ensures Timely(rest + [d], now) == Timely(rest, now) + if Missed(now, d.target) then [] else [d]
    ensures Historical(rest + [d], now) == Historical(rest, now) + if Missed(now, d.target) then [d] else []
  {
    hide Missed;
    assert (rest + [d])[..|rest|] == rest;
  }

  lemma {:induction false} WindowsPartition(due: seq<Due>, now: real)
    ensures multiset(Timely(due, now)) + multiset(Historical(due, now)) == multiset(due)
  {
    if due != [] {
      hide Missed, Timely, Historical;
      var rest, d := due[..|due| - 1], due[|due| - 1];
      assert due == rest + [d];
      WindowsPartition(rest, now);
      WindowsUnfold(rest, d, now);
      AppendPartition(Timely(rest, now), Historical(rest, now), rest, d);
    }
  }

  lemma {:induction false} WindowsDecide(due: seq<Due>, now: real)
    ensures forall d :: d in Timely(due, now) ==> !Missed(now, d.target)
    ensures forall d :: d in Historical(due, now) ==> Missed(now, d.target)
  {
    hide Missed;
    if due != [] {
      WindowsDecide(due[..|due| - 1], now);
    }
  }

  /**
   One tick samples min(limit, n) of the due horizons, none twice, and a horizon whose window is already
   missed only after every horizon still inside its window.
   */
  lemma TimelyWindowsGoFirst(due: seq<Due>, now: real, limit: nat)
    ensures var got := SelectBatch(due, now, limit);
            && |got| == Min(limit, |due|)
            && multiset(got) <= multiset(due)
            && ((exists d :: d in got && Missed(now, d.target)) ==> Timely(due, now) <= got)
  {
    hide Timely, Historical, FairRecovery;
    WindowsPartition(due, now);
    WindowsDecide(due, now);
    var timely, missed := Timely(due, now), Historical(due, now);
    assert |multiset(timely) + multiset(missed)| == |multiset(due)|;
    var first := timely[..Min(limit, |timely|)];
    assert timely == first + timely[|first|..];
    if |timely| < limit {
      BacklogRecoveryIsFair(missed, limit - |timely|, 0, 0);
      assert SelectBatch(due, now, limit) == timely + FairRecovery(missed, limit - |timely|);
    } else {
      assert SelectBatch(due, now, limit) == first;
      forall d | d in first
        ensures d in timely
      {
      }
    }
  }
}
