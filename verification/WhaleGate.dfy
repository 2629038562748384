/**
 The whale-buy gate (src/monitor.py): one strong buy, or enough buys of one wallet and token within three
 minutes. Its per-key queues are pruned lazily; the reference remembers every trade for ever.
 */
module WhaleGate {
  const SINGLE_STRENGTH: nat := 1_500_000_000
  const MIN_ACCUMULATION_TRADE: nat := 1_000_000_000
  const ACCUMULATION_TARGET: nat := 5_000_000_000
  const ACCUMULATION_WINDOW: real := 180.0
  const CLEANUP_INTERVAL: real := 60.0

  type Key = (nat, nat)

  datatype Trade = Trade(time: real, amount: int)
  datatype Signal = Signal(now: real, key: Key, amount: int)
  datatype Verdict = Noise | Single | Accumulated | TooLittle

  function Sum(ts: seq<Trade>): int { if ts == [] then 0 else Sum(ts[..|ts| - 1]) + ts[|ts| - 1].amount }

  // ----- The gate -----

  datatype State = State(history: map<Key, seq<Trade>>, lastCleanup: real)

  /** Queues are pruned from the front only. */
  function Prune(ts: seq<Trade>, cutoff: real): seq<Trade> {
    if ts == [] || ts[0].time >= cutoff then ts else Prune(ts[1..], cutoff)
  }

  function Cleaned(h: map<Key, seq<Trade>>, cutoff: real): map<Key, seq<Trade>> {
    map k | k in h && Prune(h[k], cutoff) != [] :: Prune(h[k], cutoff)
  }

  function At(h: map<Key, seq<Trade>>, k: Key): seq<Trade> { if k in h then h[k] else [] }

  function Swept(s: State, now: real): State {
    if now - s.lastCleanup >= CLEANUP_INTERVAL then State(Cleaned(s.history, now - ACCUMULATION_WINDOW), now) else s
  }

  /** What the queue of the signal's key becomes, and the verdict. */
  function Judge(ts: seq<Trade>, x: Signal): (seq<Trade>, Verdict) {
    if x.amount <= MIN_ACCUMULATION_TRADE then (ts, Noise)
    else
      var all := ts + [Trade(x.now, x.amount)];
      if x.amount >= SINGLE_STRENGTH then (all, Single)
      else if Sum(all) >= ACCUMULATION_TARGET then ([], Accumulated)
      else (all, TooLittle)
  }

  function Gate(s: State, x: Signal): (State, Verdict) {
    var t := Swept(s, x.now);
    var (queue, verdict) := Judge(Prune(At(t.history, x.key), x.now - ACCUMULATION_WINDOW), x);
    (t.(history := if queue == [] then t.history - {x.key} else t.history[x.key := queue]), verdict)
  }

  class AccumulationGate {
    var history: map<Key, seq<Trade>>
    var lastCleanup: real

    constructor ()
      ensures history == map[] && lastCleanup == 0.0
    {
      history, lastCleanup := map[], 0.0;
    }

    function Value(): State
      reads this
    {
      State(history, lastCleanup)
    }

    method PopExpired(ts: seq<Trade>, cutoff: real) returns (kept: seq<Trade>)
      ensures kept == Prune(ts, cutoff)
    {
      kept := ts;
      while kept != [] && kept[0].time < cutoff
        invariant Prune(ts, cutoff) == Prune(kept, cutoff)
        decreases |kept|
      {
        kept := kept[1..];
      }
    }

    method CleanUp(now: real)
      modifies this
      ensures Value() == State(Cleaned(old(history), now - ACCUMULATION_WINDOW), now)
    {
      var cutoff := now - ACCUMULATION_WINDOW;
      var was := history;
      var todo := was.Keys;
      AllToDo(was, cutoff);
      while todo != {}
        invariant todo <= was.Keys && history == PartlyCleaned(was, todo, cutoff)
        decreases |todo|
      {
        var k :| k in todo;
        var kept := PopExpired(history[k], cutoff);
        history := if kept == [] then history - {k} else history[k := kept];
        todo := todo - {k};
      }
      NoneToDo(was, cutoff);
      lastCleanup := now;
    }

    method WhaleBuyAmountAllowed(x: Signal) returns (verdict: Verdict)
      modifies this
      ensures Value() == Gate(old(Value()), x).0 && verdict == Gate(old(Value()), x).1
    {
      hide Cleaned, Prune, Sum;
      if x.now - lastCleanup >= CLEANUP_INTERVAL {
        CleanUp(x.now);
      }
      var queue := PopExpired(At(history, x.key), x.now - ACCUMULATION_WINDOW);
      if x.amount <= MIN_ACCUMULATION_TRADE {
        history := if queue == [] then history - {x.key} else history[x.key := queue];
        return Noise;
      }
      queue := queue + [Trade(x.now, x.amount)];
      if x.amount >= SINGLE_STRENGTH {
        history := history[x.key := queue];
        return Single;
      }
      var accumulated := Sum(queue);
      if accumulated >= ACCUMULATION_TARGET {
        history := history - {x.key};
        return Accumulated;
      }
      history := history[x.key := queue];
      return TooLittle;
    }
  }

  function PartlyCleaned(h: map<Key, seq<Trade>>, todo: set<Key>, cutoff: real): map<Key, seq<Trade>> {
    map k | k in h && (k in todo || Prune(h[k], cutoff) != []) :: if k in todo then h[k] else Prune(h[k], cutoff)
  }

  lemma AllToDo(h: map<Key, seq<Trade>>, cutoff: real)
    ensures PartlyCleaned(h, h.Keys, cutoff) == h
  {
  }

  lemma NoneToDo(h: map<Key, seq<Trade>>, cutoff: real)
    ensures PartlyCleaned(h, {}, cutoff) == Cleaned(h, cutoff)
  {
  }

  // ----- The reference -----

  function Recent(ts: seq<Trade>, cutoff: real): seq<Trade> {
    if ts == [] then []
    else Recent(ts[..|ts| - 1], cutoff) + if ts[|ts| - 1].time >= cutoff then [ts[|ts| - 1]] else []
  }

  /** Every qualifying trade of the key since its last accumulation approval, however old. */
  function Unconsumed(xs: seq<Signal>, k: Key): seq<Trade>
    decreases |xs|, 0
  {
    if xs == [] then []
    else
      var before, x := Unconsumed(xs[..|xs| - 1], k), xs[|xs| - 1];
      if x.key != k || x.amount <= 1_000_000_000 then before
      else if Naive(xs[..|xs| - 1], x) == Accumulated then []
      else before + [Trade(x.now, x.amount)]
  }

  /**
   The rule as documented, in lamports and seconds: 1 SOL or less is noise, from 1.5 SOL on one trade is
   enough, and below that the trades of the last three minutes must make 5 SOL.
   */
  function Naive(xs: seq<Signal>, x: Signal): Verdict
    decreases |xs|, 1
  {
    if x.amount <= 1_000_000_000 then Noise
    else if x.amount >= 1_500_000_000 then Single
    else if Sum(Recent(Unconsumed(xs, x.key), x.now - 180.0)) + x.amount >= 5_000_000_000 then Accumulated
    else TooLittle
  }

  const START := State(map[], 0.0)

  function Gates(xs: seq<Signal>): State {
    if xs == [] then START else Gate(Gates(xs[..|xs| - 1]), xs[|xs| - 1]).0
  }

  /** Signals carry a monotonic clock. */
  predicate InOrder(xs: seq<Signal>) {
    forall i, j :: 0 <= i < j < |xs| ==> xs[i].now <= xs[j].now
  }

  // ----- Pruning loses nothing that could still count -----

  ghost predicate TimesAscend(ts: seq<Trade>) {
    forall i, j :: 0 <= i < j < |ts| ==> ts[i].time <= ts[j].time
  }

  /** The queue is the reference list without some trades that are already too old. */
  ghost predicate Faithful(queue: seq<Trade>, full: seq<Trade>, cutoff: real) {
    && TimesAscend(full) && |queue| <= |full| && queue == full[|full| - |queue|..]
    && forall i :: 0 <= i < |full| - |queue| ==> full[i].time < cutoff
  }

  lemma {:induction false} RecentConcat(ts: seq<Trade>, us: seq<Trade>, cutoff: real)
    ensures Recent(ts + us, cutoff) == Recent(ts, cutoff) + Recent(us, cutoff)
  {
    if us == [] {
      assert ts + us == ts;
    } else {
      assert (ts + us)[..|ts + us| - 1] == ts + us[..|us| - 1];
      RecentConcat(ts, us[..|us| - 1], cutoff);
    }
  }

  lemma {:induction false} OldAreNotRecent(ts: seq<Trade>, cutoff: real)
    requires forall i :: 0 <= i < |ts| ==> ts[i].time < cutoff
    ensures Recent(ts, cutoff) == []
  {
    if ts != [] {
      OldAreNotRecent(ts[..|ts| - 1], cutoff);
    }
  }

  lemma {:induction false} YoungAreRecent(ts: seq<Trade>, cutoff: real)
    requires forall i :: 0 <= i < |ts| ==> ts[i].time >= cutoff
    ensures Recent(ts, cutoff) == ts
  {
    if ts != [] {
      YoungAreRecent(ts[..|ts| - 1], cutoff);
      assert ts == ts[..|ts| - 1] + [ts[|ts| - 1]];
    }
  }

  lemma {:induction false} PruneIsSuffix(ts: seq<Trade>, cutoff: real)
    ensures |Prune(ts, cutoff)| <= |ts| && Prune(ts, cutoff) == ts[|ts| - |Prune(ts, cutoff)|..]
    ensures forall i :: 0 <= i < |ts| - |Prune(ts, cutoff)| ==> ts[i].time < cutoff
  {
    if ts != [] && ts[0].time < cutoff {
      PruneIsSuffix(ts[1..], cutoff);
    }
  }

  lemma SuffixAscends(ts: seq<Trade>, k: nat)
    requires TimesAscend(ts) && k <= |ts|
    ensures TimesAscend(ts[k..])
  {
  }

  /** Popping expired trades from the front finds exactly the recent ones. */
  lemma {:induction false} PruneIsFilter(ts: seq<Trade>, cutoff: real)
    requires TimesAscend(ts)
    ensures Prune(ts, cutoff) == Recent(ts, cutoff)
  {
    if ts != [] && ts[0].time < cutoff {
      SuffixAscends(ts, 1);
      OldAreNotRecent([ts[0]], cutoff);
      hide TimesAscend, Recent;
      PruneIsFilter(ts[1..], cutoff);
      assert ts == [ts[0]] + ts[1..];
      RecentConcat([ts[0]], ts[1..], cutoff);
    } else {
      hide Recent;
      YoungAreRecent(ts, cutoff);
    }
  }

  lemma PruningStaysFaithful(queue: seq<Trade>, full: seq<Trade>, cutoff: real, later: real)
    requires Faithful(queue, full, cutoff) && cutoff <= later
    ensures Faithful(Prune(queue, later), full, later) && Prune(queue, later) == Recent(full, later)
    ensures Faithful(queue, full, later)
  {
    var k := |full| - |queue|;
    assert full == full[..k] + queue;
    assert TimesAscend(queue);
    PruneIsFilter(queue, later);
    PruneIsSuffix(queue, later);
    RecentConcat(full[..k], queue, later);
    OldAreNotRecent(full[..k], later);
    hide Prune, Recent;
  }

  lemma AppendStaysFaithful(queue: seq<Trade>, full: seq<Trade>, cutoff: real, t: Trade)
    requires Faithful(queue, full, cutoff) && forall i :: 0 <= i < |full| ==> full[i].time <= t.time
    ensures Faithful(queue + [t], full + [t], cutoff)
  {
  }

  lemma CleanedAt(h: map<Key, seq<Trade>>, cutoff: real, k: Key)
    ensures At(Cleaned(h, cutoff), k) == Prune(At(h, k), cutoff)
  {
  }

  /** No reference trade is later than the last signal. */
  lemma {:induction false} TradesPrecede(xs: seq<Signal>, k: Key, now: real)
    requires InOrder(xs) && (xs != [] ==> xs[|xs| - 1].now <= now)
    ensures forall i :: 0 <= i < |Unconsumed(xs, k)| ==> Unconsumed(xs, k)[i].time <= now
  {
    if xs != [] {
      TradesPrecede(xs[..|xs| - 1], k, now);
      hide Naive;
    }
  }

  lemma SumOfRecent(ts: seq<Trade>, t: Trade)
    ensures Sum(ts + [t]) == Sum(ts) + t.amount
  {
    assert (ts + [t])[..|ts|] == ts;
  }

  /** The queue the gate judges is exactly the reference's recent trades. */
  lemma JudgedQueue(s: State, full: seq<Trade>, cutoff: real, x: Signal, k: Key)
    requires Faithful(At(s.history, k), full, cutoff) && cutoff <= x.now - ACCUMULATION_WINDOW
    ensures Faithful(At(Swept(s, x.now).history, k), full, x.now - ACCUMULATION_WINDOW)
    ensures Prune(At(Swept(s, x.now).history, k), x.now - ACCUMULATION_WINDOW)
            == Recent(full, x.now - ACCUMULATION_WINDOW)
  {
    var c := x.now - ACCUMULATION_WINDOW;
    CleanedAt(s.history, c, k);
    PruningStaysFaithful(At(s.history, k), full, cutoff, c);
    hide Faithful, Prune, Recent, Cleaned;
    PruningStaysFaithful(At(Swept(s, x.now).history, k), full, c, c);
  }

  lemma UnconsumedUnfolds(xs: seq<Signal>, x: Signal, k: Key)
    ensures Unconsumed(xs + [x], k) ==
            if x.key != k || x.amount <= MIN_ACCUMULATION_TRADE then Unconsumed(xs, k)
            else if Naive(xs, x) == Accumulated then []
            else Unconsumed(xs, k) + [Trade(x.now, x.amount)]
  {
    hide Naive;
    assert (xs + [x])[..|xs|] == xs;
  }

  lemma JudgementIsNaive(queue: seq<Trade>, xs: seq<Signal>, x: Signal)
    requires queue == Recent(Unconsumed(xs, x.key), x.now - ACCUMULATION_WINDOW)
    ensures Judge(queue, x).1 == Naive(xs, x)
  {
    hide Recent, Unconsumed, Sum;
    SumOfRecent(queue, Trade(x.now, x.amount));
  }

  lemma JudgementStaysFaithful(queue: seq<Trade>, xs: seq<Signal>, x: Signal)
    requires InOrder(xs) && (xs != [] ==> xs[|xs| - 1].now <= x.now)
    requires var c := x.now - ACCUMULATION_WINDOW;
             Faithful(queue, Unconsumed(xs, x.key), c) && queue == Recent(Unconsumed(xs, x.key), c)
    ensures Judge(queue, x).1 == Naive(xs, x)
    ensures Faithful(Judge(queue, x).0, Unconsumed(xs + [x], x.key), x.now - ACCUMULATION_WINDOW)
  {
    hide Recent, Sum, InOrder, Faithful, Unconsumed, Naive;
    JudgementIsNaive(queue, xs, x);
    UnconsumedUnfolds(xs, x, x.key);
    TradesPrecede(xs, x.key, x.now);
    AppendStaysFaithful(queue, Unconsumed(xs, x.key), x.now - ACCUMULATION_WINDOW, Trade(x.now, x.amount));
  }

  lemma PrefixInOrder(xs: seq<Signal>)
    requires InOrder(xs) && xs != []
    ensures InOrder(xs[..|xs| - 1])
    ensures |xs| > 1 ==> xs[..|xs| - 1][|xs| - 2].now <= xs[|xs| - 1].now
  {
  }

  lemma StartIsFaithful(k: Key, cutoff: real)
    ensures Faithful(At(Gates([]).history, k), Unconsumed([], k), cutoff)
  {
  }

  lemma {:induction false} GateIsFaithful(xs: seq<Signal>, k: Key, cutoff: real)
    requires InOrder(xs) && (xs != [] ==> xs[|xs| - 1].now - ACCUMULATION_WINDOW <= cutoff)
    ensures Faithful(At(Gates(xs).history, k), Unconsumed(xs, k), cutoff)
  {
    hide InOrder, Faithful, Gate, Unconsumed, At, Gates;
    if xs == [] {
      StartIsFaithful(k, cutoff);
    } else {
      var before, x := xs[..|xs| - 1], xs[|xs| - 1];
      var c := x.now - ACCUMULATION_WINDOW;
      PrefixInOrder(xs);
      GateIsFaithful(before, k, c);
      GatesUnfold(xs);
      StepIsFaithful(Gates(before), before, x, k);
      assert xs == before + [x];
      PruningStaysFaithful(At(Gates(xs).history, k), Unconsumed(xs, k), c, cutoff);
    }
  }

  lemma GateQueue(s: State, x: Signal, k: Key)
    ensures var t := Swept(s, x.now);
            At(Gate(s, x).0.history, k) ==
            if k == x.key then Judge(Prune(At(t.history, k), x.now - ACCUMULATION_WINDOW), x).0 else At(t.history, k)
  {
    hide Swept, Judge, Prune;
  }

  lemma StepIsFaithful(s: State, xs: seq<Signal>, x: Signal, k: Key)
    requires InOrder(xs) && (xs != [] ==> xs[|xs| - 1].now <= x.now)
    requires Faithful(At(s.history, k), Unconsumed(xs, k), x.now - ACCUMULATION_WINDOW)
    ensures Faithful(At(Gate(s, x).0.history, k), Unconsumed(xs + [x], k), x.now - ACCUMULATION_WINDOW)
    ensures k == x.key ==> Gate(s, x).1 == Naive(xs, x)
  {
    hide Faithful, Swept, Naive, Judge, Prune, Recent, Unconsumed, At, InOrder;
    var c := x.now - ACCUMULATION_WINDOW;
    var t := Swept(s, x.now);
    JudgedQueue(s, Unconsumed(xs, k), c, x, k);
    GateQueue(s, x, k);
    if k == x.key {
      PruningStaysFaithful(At(t.history, k), Unconsumed(xs, k), c, c);
      JudgementStaysFaithful(Prune(At(t.history, k), c), xs, x);
    } else {
      UnconsumedUnfolds(xs, x, k);
    }
  }

  /**
   Lazy pruning and the occasional global clean-up never change a decision: for a monotonic clock the gate
   decides every signal as the rule over the unpruned history does.
   */
  lemma GateFollowsTheRule(xs: seq<Signal>, x: Signal)
    requires InOrder(xs + [x])
    ensures Gate(Gates(xs), x).1 == Naive(xs, x)
  {
    assert InOrder(xs) && (xs != [] ==> xs[|xs| - 1].now <= x.now) by {
      assert forall i :: 0 <= i < |xs| ==> xs[i] == (xs + [x])[i];
      assert x == (xs + [x])[|xs|];
    }
    hide InOrder, Faithful, Gate, Naive;
    GateIsFaithful(xs, x.key, x.now - ACCUMULATION_WINDOW);
    StepIsFaithful(Gates(xs), xs, x, x.key);
  }

  // ----- Accumulation approvals consume disjoint trades -----

  function Accumulations(xs: seq<Signal>, k: Key): nat {
    if xs == [] then 0
    else
      var before, x := xs[..|xs| - 1], xs[|xs| - 1];
      Accumulations(before, k) + if x.key == k && Gate(Gates(before), x).1 == Accumulated then 1 else 0
  }

  function Paid(xs: seq<Signal>, k: Key): int {
    if xs == [] then 0
    else
      var x := xs[|xs| - 1];
      Paid(xs[..|xs| - 1], k) + if x.key == k && x.amount > MIN_ACCUMULATION_TRADE then x.amount else 0
  }

  lemma {:induction false} QualifyingTradesOnly(xs: seq<Signal>, k: Key)
    ensures forall i :: 0 <= i < |Unconsumed(xs, k)| ==> Unconsumed(xs, k)[i].amount > MIN_ACCUMULATION_TRADE
  {
    if xs != [] {
      QualifyingTradesOnly(xs[..|xs| - 1], k);
      hide Naive;
    }
  }

  lemma {:induction false} RecentIsNoMore(ts: seq<Trade>, cutoff: real)
    requires forall i :: 0 <= i < |ts| ==> ts[i].amount > 0
    ensures 0 <= Sum(Recent(ts, cutoff)) <= Sum(ts)
  {
    if ts != [] {
      RecentIsNoMore(ts[..|ts| - 1], cutoff);
      SumOfRecent(Recent(ts[..|ts| - 1], cutoff), ts[|ts| - 1]);
      assert Recent(ts[..|ts| - 1], cutoff) + [] == Recent(ts[..|ts| - 1], cutoff);
    }
  }

  lemma AccountsUnfold(xs: seq<Signal>, x: Signal, k: Key)
    ensures Accumulations(xs + [x], k) ==
            Accumulations(xs, k) + if x.key == k && Gate(Gates(xs), x).1 == Accumulated then 1 else 0
    ensures Paid(xs + [x], k) ==
            Paid(xs, k) + if x.key == k && x.amount > MIN_ACCUMULATION_TRADE then x.amount else 0
  {
    hide Gate, Gates;
    assert (xs + [x])[..|xs|] == xs;
  }

  /** An accumulation needs its target in qualifying trades. */
  lemma AccumulationIsPaid(xs: seq<Signal>, x: Signal)
    requires Naive(xs, x) == Accumulated
    ensures x.amount > MIN_ACCUMULATION_TRADE
    ensures Sum(Recent(Unconsumed(xs, x.key), x.now - ACCUMULATION_WINDOW)) + x.amount >= ACCUMULATION_TARGET
  {
    hide Sum, Recent, Unconsumed;
  }

  lemma NothingPaidYet(k: Key)
    ensures Accumulations([], k) == 0 && Paid([], k) == 0 && Sum(Unconsumed([], k)) == 0
  {
  }

  /** Every accumulation approval is backed by 5 SOL of trades that back no other approval. */
  lemma {:induction false} ApprovalsAreBacked(xs: seq<Signal>, k: Key)
    requires InOrder(xs)
    ensures Accumulations(xs, k) * 5_000_000_000 + Sum(Unconsumed(xs, k)) <= Paid(xs, k)
    ensures 0 <= Sum(Unconsumed(xs, k))
  {
    NothingPaidYet(k);
    assert Sum([]) == 0;
    hide Gate, Gates, Recent, InOrder, Sum, Naive, Unconsumed, Accumulations, Paid;
    if xs != [] {
      var before, x := xs[..|xs| - 1], xs[|xs| - 1];
      assert xs == before + [x];
      PrefixInOrder(xs);
      ApprovalsAreBacked(before, k);
      AccountsUnfold(before, x, k);
      UnconsumedUnfolds(before, x, k);
      GateFollowsTheRule(before, x);
      QualifyingTradesOnly(before, k);
      RecentIsNoMore(Unconsumed(before, k), x.now - ACCUMULATION_WINDOW);
      SumOfRecent(Unconsumed(before, k), Trade(x.now, x.amount));
      if Naive(before, x) == Accumulated {
        AccumulationIsPaid(before, x);
      }
    }
  }

  // ----- The buffers stay small -----

  ghost predicate AllFrom(ts: seq<Trade>, start: real) {
    forall i :: 0 <= i < |ts| ==> ts[i].time >= start
  }

  /** No empty queue is kept, and nothing older than the last clean-up allowed. */
  ghost predicate Tidy(h: map<Key, seq<Trade>>, start: real) {
    forall k :: k in h ==> h[k] != [] && AllFrom(h[k], start)
  }

  lemma {:induction false} PruneKeepsAllFrom(ts: seq<Trade>, cutoff: real, start: real)
    requires AllFrom(ts, start)
    ensures AllFrom(Prune(ts, cutoff), start)
  {
    if ts != [] && ts[0].time < cutoff {
      PruneKeepsAllFrom(ts[1..], cutoff, start);
    }
  }

  lemma SweptIsTidy(xs: seq<Signal>, now: real)
    requires InOrder(xs) && (xs != [] ==> xs[|xs| - 1].now <= now)
    requires Tidy(Gates(xs).history, Gates(xs).lastCleanup - ACCUMULATION_WINDOW)
    ensures var t := Swept(Gates(xs), now); Tidy(t.history, t.lastCleanup - ACCUMULATION_WINDOW)
  {
    hide AllFrom, InOrder, Gates, Prune;
    var s := Gates(xs);
    var c := now - ACCUMULATION_WINDOW;
    if now - s.lastCleanup >= CLEANUP_INTERVAL {
      forall k | k in Cleaned(s.history, c)
        ensures AllFrom(Prune(s.history[k], c), c)
      {
        QueueAscends(xs, k, c);
        PruneReaches(s.history[k], c);
      }
    }
  }

  lemma QueueAscends(xs: seq<Signal>, k: Key, cutoff: real)
    requires InOrder(xs) && (xs != [] ==> xs[|xs| - 1].now - ACCUMULATION_WINDOW <= cutoff)
    ensures TimesAscend(At(Gates(xs).history, k))
  {
    hide InOrder, Gates, At, Unconsumed;
    GateIsFaithful(xs, k, cutoff);
  }

  lemma {:induction false} PruneReaches(ts: seq<Trade>, cutoff: real)
    requires TimesAscend(ts)
    ensures AllFrom(Prune(ts, cutoff), cutoff)
  {
    if ts != [] && ts[0].time < cutoff {
      PruneReaches(ts[1..], cutoff);
    }
  }

  /**
   Memory is bounded in time: after every signal no empty queue remains, and every buffered trade of any
   wallet and token is less than four minutes old (the window plus the clean-up interval).
   */
  lemma {:induction false} BuffersAreRecent(xs: seq<Signal>)
    requires InOrder(xs) && xs != [] && xs[0].now >= 0.0
    ensures var s, now := Gates(xs), xs[|xs| - 1].now;
            && s.lastCleanup <= now < s.lastCleanup + 60.0
            && Tidy(s.history, s.lastCleanup - ACCUMULATION_WINDOW)
            && Tidy(s.history, now - 240.0)
  {
    hide InOrder, Gates, Swept, AllFrom;
    var before, x := xs[..|xs| - 1], xs[|xs| - 1];
    var s := Gates(before);
    BeforeLast(xs);
    if before != [] {
      BuffersAreRecent(before);
    }
    SweptIsTidy(before, x.now);
    SweptIsCurrent(s, x.now);
    GateIsTidy(s, x);
    GatesUnfold(xs);
    AllowOlder(Gates(xs).history, Swept(s, x.now).lastCleanup - ACCUMULATION_WINDOW,
               x.now - ACCUMULATION_WINDOW - CLEANUP_INTERVAL);
  }

  lemma BeforeLast(xs: seq<Signal>)
    requires InOrder(xs) && xs != [] && xs[0].now >= 0.0
    ensures var before, now := xs[..|xs| - 1], xs[|xs| - 1].now;
            && InOrder(before) && now >= 0.0
            && (if before == [] then Gates(before) == START
                && Tidy(START.history, START.lastCleanup - ACCUMULATION_WINDOW)
                else before[|before| - 1].now <= now && before[0].now >= 0.0)
  {
  }

  lemma GatesUnfold(xs: seq<Signal>)
    requires xs != []
    ensures Gates(xs) == Gate(Gates(xs[..|xs| - 1]), xs[|xs| - 1]).0
  {
  }

  lemma SweptIsCurrent(s: State, now: real)
    requires s.lastCleanup <= now
    ensures Swept(s, now).lastCleanup <= now < Swept(s, now).lastCleanup + CLEANUP_INTERVAL
  {
  }

  lemma AllowOlder(h: map<Key, seq<Trade>>, start: real, earlier: real)
    requires Tidy(h, start) && earlier <= start
    ensures Tidy(h, earlier)
  {
  }

  lemma GateIsTidy(s: State, x: Signal)
    requires var t := Swept(s, x.now);
             Tidy(t.history, t.lastCleanup - ACCUMULATION_WINDOW) && t.lastCleanup <= x.now
    ensures Gate(s, x).0.lastCleanup == Swept(s, x.now).lastCleanup
    ensures Tidy(Gate(s, x).0.history, Swept(s, x.now).lastCleanup - ACCUMULATION_WINDOW)
  {
    var t := Swept(s, x.now);
    var start := t.lastCleanup - ACCUMULATION_WINDOW;
    hide Swept, Prune, Sum;
    var queue := Prune(At(t.history, x.key), x.now - ACCUMULATION_WINDOW);
    PruneKeepsAllFrom(At(t.history, x.key), x.now - ACCUMULATION_WINDOW, start);
    assert AllFrom(queue + [Trade(x.now, x.amount)], start);
  }
}
