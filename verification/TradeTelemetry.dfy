/**
 The outcome record sent when a position closes (`_completed_telemetry` in src/risk_manager.py): it
 scans the stored log backwards for the position's BUY and SELLs, within fixed limits, and reports the
 sale legs next to the totals kept on the position. Whenever it calls the legs complete, they are all
 the sales the position ever had and their profits add up to the reported profit.
 */
module TradeTelemetry {
  import opened Wrappers
  import opened PaperLedger
  import opened TradeReplay
  import opened LedgerAccounting
  import opened LedgerTheorems

  const SCAN_LIMIT: nat := 2048
  const LEG_LIMIT: nat := 64

  datatype Outcome = Outcome(tradeId: Id, buy: Option<Event>, legs: seq<Event>, complete: bool, pnl: int)

  predicate About(e: Event, pid: Id) {
    (e.BuyEvent? || e.SellEvent? || e.LifecycleEvent?) && e.positionId == pid
  }

  /** The position's sales since its latest BUY, oldest first; none when the log has no such BUY. */
  function Legs(log: seq<Event>, pid: Id): Option<seq<Event>> {
    if log == [] then None
    else
      var n := |log| - 1;
      if About(log[n], pid) && log[n].BuyEvent? then Some([])
      else
        var rest := Legs(log[..n], pid);
        if rest.Some? && About(log[n], pid) && log[n].SellEvent? then Some(rest.value + [log[n]]) else rest
  }

  /** The sales met when reading `log` backwards until the BUY, or to the start when there is none. */
  function Tailing(log: seq<Event>, pid: Id): seq<Event> {
    if log == [] then []
    else
      var n := |log| - 1;
      if About(log[n], pid) && log[n].BuyEvent? then []
      else Tailing(log[..n], pid) + if About(log[n], pid) && log[n].SellEvent? then [log[n]] else []
  }

  function SumPnl(legs: seq<Event>): int
    requires forall e :: e in legs ==> e.SellEvent?
  {
    if legs == [] then 0 else SumPnl(legs[..|legs| - 1]) + legs[|legs| - 1].pnl
  }

  lemma {:induction false} LegsAreSales(log: seq<Event>, pid: Id)
    ensures forall e :: e in Tailing(log, pid) ==> e.SellEvent? && e.positionId == pid
    ensures Legs(log, pid).Some? ==> Legs(log, pid).value == Tailing(log, pid)
  {
    if log != [] {
      LegsAreSales(log[..|log| - 1], pid);
    }
  }

  /** The backwards scan, as the code runs it; `legs` is kept oldest first, newest 64 at most. */
  method CompletedTelemetry(events: seq<Event>, p: Position) returns (outcome: Outcome)
    ensures outcome.tradeId == p.positionId && outcome.pnl == p.cumulativeProceeds - p.entryCost
    ensures var window := Last(events, SCAN_LIMIT);
            && outcome.legs == Last(Tailing(window, p.positionId), LEG_LIMIT)
            && (outcome.complete <==>
                  Legs(window, p.positionId).Some? && |Tailing(window, p.positionId)| <= LEG_LIMIT)
  {
    ghost var window := Last(events, SCAN_LIMIT);
    var pid := p.positionId;
    ghost var met: seq<Event> := [];
    var buy: Option<Event> := None;
    var legs: seq<Event> := [];
    var legCount := 0;
    var index := 0;
    assert window[..|window|] == window;
    while index < |events| && index < SCAN_LIMIT && buy.None?
      invariant index <= |window|
      invariant legCount == |met| && legs == Last(met, LEG_LIMIT)
      invariant buy.None? ==> Scanned(window, window[..|window| - index], pid, met)
      invariant buy.Some? ==> Tailing(window, pid) == met && Legs(window, pid).Some?
      decreases SCAN_LIMIT - index, buy.None?
    {
      var e := events[|events| - 1 - index];
      var rest := window[..|window| - index];
      assert rest[|rest| - 1] == e && rest[..|rest| - 1] == window[..|window| - (index + 1)];
      index := index + 1;
      if About(e, pid) && e.BuyEvent? {
        buy := Some(e);
      } else if About(e, pid) && e.SellEvent? {
        legCount := legCount + 1;
        if |legs| < LEG_LIMIT {
          legs := [e] + legs;
        }
        met := [e] + met;
      }
    }
    outcome := Outcome(pid, buy, legs, legCount <= LEG_LIMIT && buy.Some?, p.cumulativeProceeds - p.entryCost);
  }

  /** What is still unread at the front decides, together with the sales already met, about the whole. */
  ghost predicate Scanned(window: seq<Event>, rest: seq<Event>, pid: Id, met: seq<Event>) {
    && Tailing(window, pid) == Tailing(rest, pid) + met
    && (Legs(window, pid).Some? <==> Legs(rest, pid).Some?)
  }

  // ----- Against the ledger -----

  /** A live group's totals are the sums over its legs. */
  lemma {:induction false} LegsExplainGroup(log: seq<Event>, pid: Id)
    requires pid in Replay(log).live
    ensures Legs(log, pid).Some?
    ensures forall e :: e in Legs(log, pid).value ==> e.SellEvent?
    ensures var g := Replay(log).groups[Replay(log).live[pid]];
            SumPnl(Legs(log, pid).value) == g.pnl && |Legs(log, pid).value| == g.exits
  {
    var n := |log| - 1;
    var e := log[n];
    LegsAreSales(log, pid);
    LegsAreSales(log[..n], pid);
    if !(e.BuyEvent? && e.positionId == pid) {
      LegsExplainGroup(log[..n], pid);
    }
  }

  /** A BUY found in a suffix is the one the whole log would find. */
  lemma {:induction false} SuffixFindsSameLegs(log: seq<Event>, k: nat, pid: Id)
    requires k <= |log| && Legs(log[k..], pid).Some?
    ensures Legs(log, pid) == Legs(log[k..], pid)
  {
    var n := |log| - 1;
    assert log[k..][..n - k] == log[..n][k..];
    assert log[k..][n - k] == log[n];
    if !(About(log[n], pid) && log[n].BuyEvent?) {
      SuffixFindsSameLegs(log[..n], k, pid);
    }
  }

  /**
   Closing a position: if the outcome record says its legs are complete, they are exactly the sales of
   this position in everything ever logged, and their profits sum to the reported profit.
   */
  lemma {:induction false} CompleteLegsExplainProfit(b: Book, m: Mint, proceeds: int, reason: Reason)
    requires Valid(b) && m in b.positions && proceeds >= 0
    ensures var p := b.positions[m];
            var c := Sold(b, m, p.amount, proceeds, reason);
            var window := Last(c.events, SCAN_LIMIT);
            Legs(window, p.positionId).Some? ==>
              && Legs(c.history, p.positionId) == Some(Tailing(window, p.positionId))
              && (forall e :: e in Tailing(window, p.positionId) ==> e.SellEvent?)
              && SumPnl(Tailing(window, p.positionId)) == p.cumulativeProceeds + proceeds - p.entryCost
  {
    ClosingLegs(b, m, proceeds, reason);
    var p := b.positions[m];
    var c := Sold(b, m, p.amount, proceeds, reason);
    var e := c.history[|b.history|];
    assert c.events == b.events + [e] && c.history == b.history + [e];
    StoredEventsEndTheHistory(b);
    hide Tracks, ClampFree, CashOk, LogOk, Replay, Legs, Tailing, SumPnl, Sold, Last, Valid;
    if Legs(Last(c.events, SCAN_LIMIT), p.positionId).Some? {
      WindowFindsLegs(b.events, b.history, e, p.positionId);
    }
  }

  lemma StoredEventsEndTheHistory(b: Book)
    requires Valid(b)
    ensures |b.events| <= |b.history| && b.events == b.history[|b.history| - |b.events|..]
  {
    hide Tracks, ClampFree, CashOk;
  }

  lemma {:induction false} WindowFindsLegs(events: seq<Event>, history: seq<Event>, e: Event, pid: Id)
    requires |events| <= |history| && events == history[|history| - |events|..]
    requires Legs(Last(events + [e], SCAN_LIMIT), pid).Some?
    ensures Legs(history + [e], pid) == Some(Tailing(Last(events + [e], SCAN_LIMIT), pid))
    ensures forall s :: s in Tailing(Last(events + [e], SCAN_LIMIT), pid) ==> s.SellEvent?
  {
    hide Legs, Tailing, Last;
    var window := Last(events + [e], SCAN_LIMIT);
    WindowIsSuffix(events, history, e);
    SuffixFindsSameLegs(history + [e], |history| + 1 - |window|, pid);
    LegsAreSales(window, pid);
  }

  lemma {:induction false} WindowIsSuffix(events: seq<Event>, history: seq<Event>, e: Event)
    requires |events| <= |history| && events == history[|history| - |events|..]
    ensures var window := Last(events + [e], SCAN_LIMIT);
            |window| <= |history| + 1 && window == (history + [e])[|history| + 1 - |window|..]
  {
    assert (history + [e])[|history| - |events|..] == events + [e];
  }

  lemma {:induction false} ClosingLegs(b: Book, m: Mint, proceeds: int, reason: Reason)
    requires Valid(b) && m in b.positions && proceeds >= 0
    ensures var p := b.positions[m];
            var legs := Legs(Sold(b, m, p.amount, proceeds, reason).history, p.positionId);
            && legs.Some? && (forall e :: e in legs.value ==> e.SellEvent?)
            && SumPnl(legs.value) == p.cumulativeProceeds + proceeds - p.entryCost
  {
    hide ClampFree, CashOk, LogOk, Replay, Sandwich;
    var p := b.positions[m];
    var d := Replay(b.history);
    assert p.positionId in d.live && Matches(d.groups[d.live[p.positionId]], m, p);
    LegsExplainGroup(b.history, p.positionId);
    var c := Sold(b, m, p.amount, proceeds, reason);
    var e := c.history[|b.history|];
    assert c.history[..|b.history|] == b.history;
    var before := Legs(b.history, p.positionId).value;
    assert Legs(c.history, p.positionId) == Some(before + [e]);
    assert (before + [e])[..|before|] == before;
    FloorBounds(p.remainingCost, p.amount, p.amount);
  }
}
