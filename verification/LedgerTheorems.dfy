/**
 The ledger's promises, for every legal run of mutators from the empty document: conservation, the
 break-even bounds, the dashboard's agreement with the live positions, and the one guard that event
 truncation silently switches off.
 */
module LedgerTheorems {
  import opened Wrappers
  import opened PaperLedger
  import opened TradeReplay
  import opened LedgerAccounting

  /** Money is conserved, cash never goes negative, and event numbers survive truncation. */
  lemma CashIsConserved(ops: seq<Op>)
    requires LegalRun(EmptyBook, ops)
    ensures var b := Run(EmptyBook, ops);
            && b.cash >= 0
            && b.cash + OpenCost(b.positions) == INITIAL_PAPER_LAMPORTS + BookedPnl(b.history)
            && (forall i, j :: 0 <= i < j < |b.events| ==> b.events[i].seqNo < b.events[j].seqNo < b.nextSeq)
  {
    hide LegalRun, Run, Tracks, ClampFree;
    EmptyBookIsValid();
    RunKeepsValid(EmptyBook, ops);
  }

  /**
   Replaying everything ever logged rebuilds the ledger: a position's group has its amount and costs,
   a group is drained exactly when its position is gone, and no clamp of the fold ever bites.
   */
  lemma {:induction false} ReplayReconstructsLedger(ops: seq<Op>)
    requires LegalRun(EmptyBook, ops)
    ensures var b := Run(EmptyBook, ops);
            var d := Replay(b.history);
            && ClampFree(b.history)
            && (forall m :: m in b.positions ==>
                  var p := b.positions[m];
                  && p.positionId in d.live
                  && d.groups[d.live[p.positionId]].remaining == p.amount
                  && d.groups[d.live[p.positionId]].realizedCost + p.remainingCost == p.entryCost
                  && d.groups[d.live[p.positionId]].proceeds == p.cumulativeProceeds)
            && (forall i :: 0 <= i < |d.groups| ==>
                  var g := d.groups[i];
                  && (g.remaining == 0 <==> !Holds(b, g.mint, g.positionId))
                  && (g.remaining == 0 ==> g.realizedCost == g.cost && g.pnl == g.proceeds - g.cost))
  {
    hide Valid, LegalRun, Run, Sandwich, PositionOk, Replay, ClampFree;
    EmptyBookIsValid();
    RunKeepsValid(EmptyBook, ops);
    ValidReplays(Run(EmptyBook, ops));
    DrainedExactlyWhenGone(Run(EmptyBook, ops), ops);
  }

  lemma ValidReplays(b: Book)
    requires Valid(b)
    ensures Tracks(b.positions, Replay(b.history)) && ClampFree(b.history)
  {
  }

  /** Position ids are bought once: two groups never share one. */
  ghost predicate DistinctGroups(d: Dash) {
    forall i, j :: 0 <= i < j < |d.groups| ==> d.groups[i].positionId != d.groups[j].positionId
  }

  lemma StepKeepsGroupIds(d: Dash, e: Event)
    requires WellIndexed(d) && e.SellEvent?
    ensures |ReplayStep(d, e).groups| == |d.groups|
    ensures forall i :: 0 <= i < |d.groups| ==> ReplayStep(d, e).groups[i].positionId == d.groups[i].positionId
  {
  }

  lemma {:induction false} GroupsStayDistinct(ops: seq<Op>)
    requires LegalRun(EmptyBook, ops)
    ensures DistinctGroups(Replay(Run(EmptyBook, ops).history))
  {
    if ops != [] {
      var n := |ops| - 1;
      GroupsStayDistinct(ops[..n]);
      OpKeepsDistinct(Run(EmptyBook, ops[..n]), ops[n]);
    }
  }

  lemma OpKeepsDistinct(b: Book, op: Op)
    requires DistinctGroups(Replay(b.history)) && Legal(b, op)
    ensures DistinctGroups(Replay(Apply(b, op).history))
  {
    hide Replay, Apply;
    if op.OpLifecycle? {
      LifecycleAppliesLog(b, op);
      LifecycleKeepsReplay(b, op.mint, op.pid, op.statuses);
    } else {
      AtMostOneEvent(b, op);
      var c := Apply(b, op);
      if |c.history| > |b.history| {
        var e := c.history[|b.history|];
        ReplayAppend(b.history, e);
        if e.SellEvent? {
          StepKeepsGroupIds(Replay(b.history), e);
        }
      }
    }
  }

  lemma DrainedExactlyWhenGone(b: Book, ops: seq<Op>)
    requires LegalRun(EmptyBook, ops) && b == Run(EmptyBook, ops) && Valid(b)
    ensures forall i :: 0 <= i < |Replay(b.history).groups| ==>
              (Replay(b.history).groups[i].remaining == 0
               <==> !Holds(b, Replay(b.history).groups[i].mint, Replay(b.history).groups[i].positionId))
  {
    hide Valid, LegalRun, Run, Replay, Sandwich;
    ValidReplays(b);
    GroupsStayDistinct(ops);
    var d := Replay(b.history);
    forall i | 0 <= i < |d.groups|
      ensures d.groups[i].remaining == 0 <==> !Holds(b, d.groups[i].mint, d.groups[i].positionId)
    {
      GroupLiveWhenHeld(b, d, i);
    }
  }

  lemma GroupLiveWhenHeld(b: Book, d: Dash, i: nat)
    requires WellIndexed(d) && DistinctGroups(d) && Tracks(b.positions, d) && i < |d.groups|
    ensures d.groups[i].remaining == 0 <==> !Holds(b, d.groups[i].mint, d.groups[i].positionId)
  {
    hide Sandwich;
    var g := d.groups[i];
    if Holds(b, g.mint, g.positionId) {
      var j := d.live[g.positionId];
      assert d.groups[j].positionId == g.positionId;
      assert j == i;
    } else {
      assert !IsLive(d, i);
    }
  }

  /** The dashboard, given only the stored events, shows the newest groups of the full replay unchanged. */
  lemma DashboardShowsLedger(b: Book, i: nat)
    requires Valid(b) && i < |Replay(b.events).groups|
    ensures var cut := |Replay(b.history[..|b.history| - |b.events|]).groups|;
            && |Replay(b.history).groups| == cut + |Replay(b.events).groups|
            && Displayed(Replay(b.events), i, b.positions) == Replay(b.history).groups[cut + i]
  {
    hide Tracks, CashOk, ClampFree, Replay;
    var k := |b.history| - |b.events|;
    TailOfReplay(b.history, k);
    OverrideIsIdle(b.positions, Replay(b.events), Replay(b.history), |Replay(b.history[..k]).groups|, i);
  }

  lemma OverrideIsIdle(positions: map<Mint, Position>, part: Dash, full: Dash, cut: nat, i: nat)
    requires WellIndexed(part) && WellIndexed(full) && Tail(part, full, cut)
    requires Tracks(positions, full) && i < |part.groups|
    ensures Displayed(part, i, positions) == full.groups[cut + i]
  {
    hide Sandwich, PositionOk;
    assert part.groups[i] == full.groups[cut + i];
    if IsLive(part, i) {
      assert IsLive(full, cut + i);
    }
  }

  // ----- Break-even -----

  /** `_legacy_break_even_required_value` with the default amount, for a position with all its fields. */
  function LegacyBreakEven(p: Position): int {
    if p.amount <= 0 || p.entryAmount <= 0 || p.entryCost <= 0 then 0
    else (p.entryCost * p.amount + p.entryAmount - 1) / p.entryAmount
  }

  /** The remaining cost is never below the legacy break-even value and at most one unit per sale above. */
  lemma RemainingCostNearBreakEven(b: Book, m: Mint)
    requires Valid(b) && m in b.positions
    ensures var p := b.positions[m];
            var d := Replay(b.history);
            p.positionId in d.live &&
            LegacyBreakEven(p) <= p.remainingCost <= LegacyBreakEven(p) + d.groups[d.live[p.positionId]].exits
  {
    hide LogOk, CashOk, ClampFree, Replay;
    var p := b.positions[m];
    var d := Replay(b.history);
    assert p.positionId in d.live;
    var g := d.groups[d.live[p.positionId]];
    assert Matches(g, m, p) && PositionOk(p);
    CeilingBounds(p.entryCost * p.amount, p.entryAmount, p.remainingCost, g.exits);
  }

  lemma CeilingBounds(n: int, A: int, r: int, k: nat)
    requires A > 0 && n <= r * A <= n + k * A
    ensures (n + A - 1) / A <= r <= (n + A - 1) / A + k
  {
    var c := (n + A - 1) / A;
    assert n + A - 1 == c * A + (n + A - 1) % A;
    assert A * c < A * (r + 1);
    if r + 1 <= c {
      MulMono(r + 1, c, A);
    }
    assert A * r <= A * (c + k);
    CancelLe(A, r, c + k);
  }

  /**
   Selling all that is left for at least the stored break-even floor closes the trade without a loss;
   the group's total profit is exactly what came in minus what was paid.
   */
  lemma BreakEvenFloorProtects(b: Book, m: Mint, proceeds: int, reason: Reason)
    requires Valid(b) && m in b.positions && proceeds >= b.positions[m].requiredProceeds
    ensures var p := b.positions[m];
            var c := Sold(b, m, p.amount, proceeds, reason);
            var d := Replay(b.history);
            var e := Replay(c.history);
            p.positionId in d.live && |e.groups| == |d.groups| && m !in c.positions &&
            var g := e.groups[d.live[p.positionId]];
            g.remaining == 0 && g.pnl == p.cumulativeProceeds + proceeds - p.entryCost && g.pnl >= 0
  {
    var p := b.positions[m];
    var d := Replay(b.history);
    var c := Sold(b, m, p.amount, proceeds, reason);
    SaleMatches(p, d.groups[d.live[p.positionId]], p.amount, proceeds, reason);
    assert c.history == b.history + [c.history[|b.history|]];
    ReplayAppend(b.history, c.history[|b.history|]);
  }

  /** Right after a first take-profit the floor is exact: a full exit below it loses money. */
  lemma TakeProfitFloorIsExact(p: Position, sold: int, gained: int, reason: Reason, proceeds: int)
    requires PositionOk(p) && 0 < sold < p.amount && FirstTakeProfit(reason) && gained >= 0 && proceeds >= 0
    ensures var q := AfterSale(p, sold, gained, reason);
            proceeds >= q.requiredProceeds <==> q.cumulativeProceeds + proceeds - q.entryCost >= 0
  {
  }

  // ----- What truncation forgets -----

  /** A BUY of this mint by this signature is among the stored events. */
  ghost predicate StillStored(b: Book, mint: Mint, s: Signature)
    requires |b.events| <= |b.history|
  {
    exists i :: |b.history| - |b.events| <= i < |b.history| && IsBuyOf(b.history[i], mint, s)
  }

  predicate IsBuyOf(e: Event, mint: Mint, s: Signature) {
    e.BuyEvent? && e.mint == mint && e.signature == Some(s)
  }

  /** The duplicate-signature guard refuses a second buy exactly while the first is among the stored events. */
  lemma DuplicateRefusedExactlyWhileStored(b: Book, r: BuyRequest, s: Signature)
    requires LogOk(b.events, b.history, b.nextSeq) && r.signature == Some(s)
    requires BuyGuard(b, r.(signature := None)).None?
    ensures BuyGuard(b, r) == Some(DuplicateSignature) <==> StillStored(b, r.mint, s)
  {
    StoredMeansBoughtBefore(b, r.mint, s);
  }

  lemma StoredMeansBoughtBefore(b: Book, mint: Mint, s: Signature)
    requires |b.events| <= |b.history| && b.events == b.history[|b.history| - |b.events|..]
    ensures BoughtBefore(b.events, mint, s) <==> StillStored(b, mint, s)
  {
    var k := |b.history| - |b.events|;
    if StillStored(b, mint, s) {
      var i :| k <= i < |b.history| && IsBuyOf(b.history[i], mint, s);
      assert b.events[i - k] in b.events;
    } else {
      forall e | e in b.events
        ensures !IsBuyOf(e, mint, s)
      {
        var j :| 0 <= j < |b.events| && b.events[j] == e;
        assert b.history[k + j] == e;
      }
    }
  }

  function RejectMany(b: Book, mint: Mint, n: nat): Book {
    if n == 0 then b else Reject(RejectMany(b, mint, n - 1), mint, n - 1)
  }

  lemma {:induction false} RejectionsFillTheLog(b: Book, mint: Mint, n: nat)
    requires forall e :: e in b.events ==> !e.RejectionEvent?
    requires |b.events| <= STORED_EVENT_LIMIT
    ensures var c := RejectMany(b, mint, n);
            && c.positions == b.positions && c.cash == b.cash
            && |c.events| <= STORED_EVENT_LIMIT
            && (forall e :: e in c.events && e.RejectionEvent? ==> e.rejected < n)
            && (forall i :: 0 <= i < |c.events| && |c.events| - n <= i ==> c.events[i].RejectionEvent?)
  {
    if n > 0 {
      RejectionsFillTheLog(b, mint, n - 1);
      var c := RejectMany(b, mint, n - 1);
      var d := Reject(c, mint, n - 1);
      assert d.events == Last(c.events + [RejectionEvent(c.nextSeq, mint, n - 1)], STORED_EVENT_LIMIT);
    }
  }

  /**
   A concrete run: buy, sell out, 2,000 rejected signals, and the very same signature is bought again,
   again as round 1.
   */
  lemma {:induction false} SameSignatureBoughtTwice()
    ensures var r := BuyRequest(7, 10, 5, 0.0, Some(1), 0, false, None, 0.0);
            var b := Sold(Buy(EmptyBook, r, 100).0, 7, 5, 10, ManualClose);
            && Buy(b, r, 101).1 == Err(DuplicateSignature)
            && Buy(RejectMany(b, 7, STORED_EVENT_LIMIT), r, 101).1 == Ok(101)
            && Buy(RejectMany(b, 7, STORED_EVENT_LIMIT), r, 101).0.positions[7].round
               == Buy(EmptyBook, r, 100).0.positions[7].round
  {
    var r := BuyRequest(7, 10, 5, 0.0, Some(1), 0, false, None, 0.0);
    var bought := Buy(EmptyBook, r, 100).0;
    assert bought.events == [BuyEvent(1, 7, 100, 10, 5, 1, Some(1))];
    var b := Sold(bought, 7, 5, 10, ManualClose);
    assert b.events[0] in b.events;
    assert BoughtBefore(b.events, 7, 1);
    RejectionsFillTheLog(b, 7, STORED_EVENT_LIMIT);
    var c := RejectMany(b, 7, STORED_EVENT_LIMIT);
    NoBuyNoRound(c.events, 7);
  }

  lemma {:induction false} NoBuyNoRound(events: seq<Event>, mint: Mint)
    requires forall i :: 0 <= i < |events| ==> !events[i].BuyEvent?
    ensures LastRound(events, mint) == 0
    ensures forall s :: !BoughtBefore(events, mint, s)
  {
    if events != [] {
      NoBuyNoRound(events[..|events| - 1], mint);
    }
  }
}
