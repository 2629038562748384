/**
 What an open position remembers, said in terms of the event log and of single mutators alone: which sales
 set its flags and its break-even floor, which mutator may change which field, and what a buy enters.
 */
module PositionHistory {
  import opened Wrappers
  import opened PaperLedger
  import opened TradeReplay
  import opened LedgerAccounting

  /** The reasons that finish the first and the second take-profit. */
  const FIRST: set<Reason> := {TakeProfit50, LiveTakeProfit50, RouteBTakeProfit30, TakeProfit30Sell80}
  const SECOND: set<Reason> := {TakeProfit100, LiveTakeProfit100}

  predicate SaleOf(e: Event, pid: Id) { e.SellEvent? && e.positionId == pid }

  predicate SoldFor(log: seq<Event>, pid: Id, reasons: set<Reason>) {
    exists i :: 0 <= i < |log| && SaleOf(log[i], pid) && log[i].reason in reasons
  }

  /** What the sales of a position brought in. */
  function Gained(log: seq<Event>, pid: Id): int {
    if log == [] then 0
    else Gained(log[..|log| - 1], pid) + if SaleOf(log[|log| - 1], pid) then log[|log| - 1].proceeds else 0
  }

  /** The proceeds still missing at the latest first take-profit; the whole cost before there was one. */
  function Floor(log: seq<Event>, pid: Id, cost: int): int {
    if log == [] then cost
    else
      var e := log[|log| - 1];
      if SaleOf(e, pid) && e.reason in FIRST then
        if cost > Gained(log, pid) then cost - Gained(log, pid) else 0
      else Floor(log[..|log| - 1], pid, cost)
  }

  ghost predicate Bought(log: seq<Event>, m: Mint, p: Position) {
    exists i :: 0 <= i < |log| && log[i].BuyEvent? && log[i].mint == m && log[i].positionId == p.positionId
                && log[i].cost == p.entryCost && log[i].amount == p.entryAmount && log[i].round == p.round
  }

  ghost predicate Remembers(log: seq<Event>, m: Mint, p: Position) {
    && (p.takeProfitDone <==> SoldFor(log, p.positionId, FIRST))
    && (p.secondTakeProfitDone <==> SoldFor(log, p.positionId, SECOND))
    && p.cumulativeProceeds == Gained(log, p.positionId)
    && p.requiredProceeds == Floor(log, p.positionId, p.entryCost)
    && Bought(log, m, p)
  }

  ghost predicate AllRemember(b: Book) {
    forall m :: m in b.positions ==> Remembers(b.history, m, b.positions[m])
  }

  // ----- One more event -----

  lemma SoldForOneMore(log: seq<Event>, e: Event, pid: Id, reasons: set<Reason>)
    ensures SoldFor(log + [e], pid, reasons) <==> SoldFor(log, pid, reasons) || (SaleOf(e, pid) && e.reason in reasons)
  {
    if SoldFor(log, pid, reasons) {
      var i :| 0 <= i < |log| && SaleOf(log[i], pid) && log[i].reason in reasons;
      assert (log + [e])[i] == log[i];
    }
    assert (log + [e])[|log|] == e;
    if i :| 0 <= i < |log| + 1 && SaleOf((log + [e])[i], pid) && (log + [e])[i].reason in reasons {
      if i < |log| {
        assert (log + [e])[i] == log[i];
      }
    }
  }

  lemma OneMore(log: seq<Event>, e: Event, pid: Id, cost: int)
    ensures Gained(log + [e], pid) == Gained(log, pid) + if SaleOf(e, pid) then e.proceeds else 0
    ensures Floor(log + [e], pid, cost) ==
            if SaleOf(e, pid) && e.reason in FIRST then Max(0, cost - Gained(log + [e], pid))
            else Floor(log, pid, cost)
  {
    assert (log + [e])[..|log|] == log;
  }

  lemma BoughtOneMore(log: seq<Event>, e: Event, m: Mint, p: Position)
    requires Bought(log, m, p)
    ensures Bought(log + [e], m, p)
  {
    var i :| 0 <= i < |log| && log[i].BuyEvent? && log[i].mint == m && log[i].positionId == p.positionId
             && log[i].cost == p.entryCost && log[i].amount == p.entryAmount && log[i].round == p.round;
    assert (log + [e])[i] == log[i];
  }

  /** Fields an event of somebody else, or a mutator that logs nothing, must leave alone. */
  predicate SameRecord(p: Position, q: Position) {
    && q.positionId == p.positionId && q.entryCost == p.entryCost && q.entryAmount == p.entryAmount
    && q.round == p.round && q.cumulativeProceeds == p.cumulativeProceeds
    && q.requiredProceeds == p.requiredProceeds
    && q.takeProfitDone == p.takeProfitDone && q.secondTakeProfitDone == p.secondTakeProfitDone
  }

  lemma SameRecordRemembers(log: seq<Event>, m: Mint, p: Position, q: Position)
    requires Remembers(log, m, p) && SameRecord(p, q)
    ensures Remembers(log, m, q)
  {
    hide SoldFor, Gained, Floor;
  }

  lemma OtherEventRemembers(log: seq<Event>, e: Event, m: Mint, p: Position)
    requires Remembers(log, m, p) && !SaleOf(e, p.positionId)
    ensures Remembers(log + [e], m, p)
  {
    hide SoldFor, Gained, Floor, Bought;
    SoldForOneMore(log, e, p.positionId, FIRST);
    SoldForOneMore(log, e, p.positionId, SECOND);
    OneMore(log, e, p.positionId, p.entryCost);
    BoughtOneMore(log, e, m, p);
  }

  /** A sale of this very position: the flags and the floor move exactly as its reason says. */
  lemma SaleRemembers(log: seq<Event>, e: Event, m: Mint, p: Position, sold: int)
    requires Remembers(log, m, p) && SaleOf(e, p.positionId) && p.amount > 0
    ensures Remembers(log + [e], m, AfterSale(p, sold, e.proceeds, e.reason))
  {
    hide SoldFor, Gained, Floor, Bought, Released;
    SoldForOneMore(log, e, p.positionId, FIRST);
    SoldForOneMore(log, e, p.positionId, SECOND);
    OneMore(log, e, p.positionId, p.entryCost);
    BoughtOneMore(log, e, m, p);
    BoughtBySameRecord(log + [e], m, p, AfterSale(p, sold, e.proceeds, e.reason));
  }

  lemma BoughtBySameRecord(log: seq<Event>, m: Mint, p: Position, q: Position)
    requires Bought(log, m, p) && q.positionId == p.positionId && q.round == p.round
    requires q.entryCost == p.entryCost && q.entryAmount == p.entryAmount
    ensures Bought(log, m, q)
  {
  }

  // ----- Every mutator -----

  /** A sale in the log belongs to a group, so a fresh id has none. */
  lemma {:induction false} SalesHaveGroups(log: seq<Event>, pid: Id)
    requires ClampFree(log)
    requires forall i :: 0 <= i < |Replay(log).groups| ==> Replay(log).groups[i].positionId != pid
    ensures forall i :: 0 <= i < |log| ==> !SaleOf(log[i], pid)
  {
    if log != [] {
      var n := |log| - 1;
      var d := Replay(log[..n]);
      assert |d.groups| <= |Replay(log).groups|
             && forall i :: 0 <= i < |d.groups| ==> Replay(log).groups[i].positionId == d.groups[i].positionId by {
        ReplayAppend(log[..n], log[n]);
        assert log == log[..n] + [log[n]];
        GroupsStay(d, log[n]);
      }
      hide ReplayStep, Replay;
      SalesHaveGroups(log[..n], pid);
    }
  }

  lemma GroupsStay(d: Dash, e: Event)
    requires WellIndexed(d)
    ensures var r := ReplayStep(d, e);
            && |d.groups| <= |r.groups|
            && forall i :: 0 <= i < |d.groups| ==> r.groups[i].positionId == d.groups[i].positionId
  {
  }

  lemma {:induction false} NoSaleNothingGained(log: seq<Event>, pid: Id, cost: int)
    requires forall i :: 0 <= i < |log| ==> !SaleOf(log[i], pid)
    ensures Gained(log, pid) == 0 && Floor(log, pid, cost) == cost
    ensures !SoldFor(log, pid, FIRST) && !SoldFor(log, pid, SECOND)
  {
    if log != [] {
      NoSaleNothingGained(log[..|log| - 1], pid, cost);
    }
  }

  lemma {:induction false} BuyRemembers(b: Book, r: BuyRequest, pid: Id)
    requires Valid(b) && FreshId(b, pid) && AllRemember(b)
    ensures AllRemember(Buy(b, r, pid).0)
  {
    hide Valid, FreshId, BuyGuard, Remembers;
    var c := Buy(b, r, pid).0;
    if BuyGuard(b, r).None? {
      var e := c.history[|b.history|];
      FreshHasNoSales(b, pid);
      NewPositionRemembers(b.history, r, pid, LastRound(b.events, r.mint) + 1, e);
      forall m | m in b.positions && m != r.mint
        ensures Remembers(c.history, m, c.positions[m])
      {
        OtherEventRemembers(b.history, e, m, b.positions[m]);
      }
    }
  }

  lemma FreshHasNoSales(b: Book, pid: Id)
    requires Valid(b) && FreshId(b, pid)
    ensures forall i :: 0 <= i < |b.history| ==> !SaleOf(b.history[i], pid)
  {
    hide LogOk, CashOk, Tracks, ClampFree, Replay;
    SalesHaveGroups(b.history, pid);
  }

  lemma {:induction false} NewPositionRemembers(log: seq<Event>, r: BuyRequest, pid: Id, round: nat, e: Event)
    requires forall i :: 0 <= i < |log| ==> !SaleOf(log[i], pid)
    requires e.BuyEvent? && e.mint == r.mint && e.positionId == pid && e.cost == r.cost && e.amount == r.amount
    requires e.round == round
    ensures Remembers(log + [e], r.mint, NewPosition(r, pid, round))
  {
    NoSaleNothingGained(log + [e], pid, r.cost);
    assert (log + [e])[|log|] == e;
    hide SoldFor, Gained, Floor;
  }

  /** Two positions never share an id. */
  lemma IdsDiffer(b: Book, m: Mint, n: Mint)
    requires Valid(b) && m in b.positions && n in b.positions && m != n
    ensures b.positions[m].positionId != b.positions[n].positionId
  {
    hide LogOk, CashOk, ClampFree, Replay, Sandwich, PositionOk;
  }

  lemma {:induction false} SellRemembers(b: Book, mint: Mint, sold: int, proceeds: int, reason: Reason)
    requires Valid(b) && AllRemember(b) && mint in b.positions && 0 < sold <= b.positions[mint].amount
    ensures AllRemember(Sold(b, mint, sold, proceeds, reason))
  {
    hide Valid, Remembers, AfterSale, Released;
    var c := Sold(b, mint, sold, proceeds, reason);
    var e := c.history[|b.history|];
    assert c.history == b.history + [e];
    SaleRemembers(b.history, e, mint, b.positions[mint], sold);
    forall m | m in c.positions
      ensures Remembers(c.history, m, c.positions[m])
    {
      if m != mint {
        IdsDiffer(b, m, mint);
        OtherEventRemembers(b.history, e, m, b.positions[m]);
      }
    }
  }

  lemma {:induction false} LogRemembers(b: Book, e: Event)
    requires AllRemember(b) && !e.SellEvent?
    ensures AllRemember(Log(b, e)) && AllRemember(Truncated(Log(b, e)))
  {
    hide Remembers;
    forall m | m in b.positions
      ensures Remembers(b.history + [e], m, b.positions[m])
    {
      OtherEventRemembers(b.history, e, m, b.positions[m]);
    }
  }

  lemma {:induction false} LifecycleRemembers(b: Book, mint: Mint, pid: Id, statuses: seq<nat>)
    requires AllRemember(b)
    ensures AllRemember(LogLifecycle(b, mint, pid, statuses))
    ensures LogLifecycle(b, mint, pid, statuses).positions == b.positions
  {
    if statuses != [] {
      hide AllRemember;
      var n := |statuses| - 1;
      LifecycleRemembers(b, mint, pid, statuses[..n]);
      var before := LogLifecycle(b, mint, pid, statuses[..n]);
      LogRemembers(before, LifecycleEvent(before.nextSeq, mint, pid, statuses[n]));
    }
  }

  lemma TouchRemembers(b: Book, m: Mint, q: Position)
    requires AllRemember(b) && m in b.positions && SameRecord(b.positions[m], q)
    ensures AllRemember(b.(positions := b.positions[m := q]))
  {
    hide Remembers, SameRecord;
    SameRecordRemembers(b.history, m, b.positions[m], q);
  }

  lemma {:induction false} QuietOpRemembers(b: Book, op: Op)
    requires AllRemember(b) && (op.OpClaim? || op.OpRelease? || op.OpMark? || op.OpQuoteFailure?)
    ensures AllRemember(Apply(b, op))
  {
    hide AllRemember;
    if op.mint in b.positions {
      var c := Apply(b, op);
      TouchRemembers(b, op.mint, c.positions[op.mint]);
      assert c.positions == b.positions[op.mint := c.positions[op.mint]];
      assert c == b.(positions := c.positions);
    }
  }

  lemma {:induction false} StepRemembers(b: Book, op: Op)
    requires Valid(b) && AllRemember(b) && Legal(b, op)
    ensures AllRemember(Apply(b, op))
  {
    hide Valid, AllRemember;
    match op
    case OpBuy(r, pid) => BuyRemembers(b, r, pid);
    case OpReject(mint, s) => LogRemembers(b, RejectionEvent(b.nextSeq, mint, s));
    case OpRpcSkip(mint, s) => LogRemembers(b, RpcSkipEvent(b.nextSeq, mint, s));
    case OpLifecycle(mint, pid, statuses) =>
      if statuses != [] && Holds(b, mint, pid) {
        LifecycleRemembers(b, mint, pid, statuses);
        var p := b.positions[mint];
        TouchRemembers(LogLifecycle(b, mint, pid, statuses), mint, p.(version := p.version + 1));
      }
    case OpSell(mint, amount, proceeds, reason, pid, exit) =>
      if SellAccepted(b, mint, amount, pid, exit) {
        SellRemembers(b, mint, Min(amount, b.positions[mint].amount), proceeds, reason);
      }
    case _ => QuietOpRemembers(b, op);
  }

  lemma {:induction false} RunRemembers(b: Book, ops: seq<Op>)
    requires Valid(b) && AllRemember(b) && LegalRun(b, ops)
    ensures AllRemember(Run(b, ops))
  {
    if ops != [] {
      hide Valid, AllRemember, Apply, Legal;
      var n := |ops| - 1;
      RunRemembers(b, ops[..n]);
      RunKeepsValid(b, ops[..n]);
      StepRemembers(Run(b, ops[..n]), ops[n]);
    }
  }

  /**
   In every legal run an open position has its first take-profit behind it exactly when the log holds a sale
   of it for one of the four first take-profit reasons, and the second one likewise; its proceeds are those
   of its sales, its floor what was missing at the latest first take-profit, and its entry that of its BUY.
   */
  lemma {:induction false} FlagsFollowTheLog(ops: seq<Op>, m: Mint)
    requires LegalRun(EmptyBook, ops) && m in Run(EmptyBook, ops).positions
    ensures var b := Run(EmptyBook, ops);
            var p := b.positions[m];
            && (p.takeProfitDone <==>
                  exists i :: && 0 <= i < |b.history|
                              && b.history[i].SellEvent? && b.history[i].positionId == p.positionId
                              && b.history[i].reason in
                                   {TakeProfit50, LiveTakeProfit50, RouteBTakeProfit30, TakeProfit30Sell80})
            && (p.secondTakeProfitDone <==>
                  exists i :: && 0 <= i < |b.history|
                              && b.history[i].SellEvent? && b.history[i].positionId == p.positionId
                              && b.history[i].reason in {TakeProfit100, LiveTakeProfit100})
            && p.cumulativeProceeds == Gained(b.history, p.positionId)
            && p.requiredProceeds == Floor(b.history, p.positionId, p.entryCost)
            && Bought(b.history, m, p)
  {
    hide LegalRun, Run, Gained, Floor, Bought;
    EmptyBookIsValid();
    RunRemembers(EmptyBook, ops);
    assert Remembers(Run(EmptyBook, ops).history, m, Run(EmptyBook, ops).positions[m]);
  }

  // ----- Which mutator changes what -----

  predicate Marks(op: Op, m: Mint, p: Position) {
    op.OpMark? && op.mint == m && op.pid == p.positionId && op.value >= 0
  }

  predicate Misses(op: Op, m: Mint, p: Position) {
    op.OpQuoteFailure? && op.mint == m && op.pid == p.positionId
  }

  predicate Claims(op: Op, m: Mint, p: Position) {
    op.OpClaim? && op.mint == m && op.pid == p.positionId && p.riskState != ExitPending
  }

  predicate Releases(op: Op, m: Mint, p: Position) {
    op.OpRelease? && op.mint == m && op.pid == p.positionId && p.pendingExit == Some(op.exit)
  }

  predicate Sells(op: Op, m: Mint, p: Position) {
    && op.OpSell? && op.mint == m && op.amount > 0 && p.amount > 0
    && (op.soldPid == None || op.soldPid == Some(p.positionId))
    && (op.soldExit == None || op.soldExit == p.pendingExit)
  }

  /** How much of the position a sale takes; a sale of everything closes it. */
  function Taken(op: Op, p: Position): int
    requires op.OpSell?
  {
    if op.amount < p.amount then op.amount else p.amount
  }

  /** A position leaves the ledger by a sale of all that is left, and by nothing else. */
  lemma {:induction false} LeavesExactlyWhenSoldOut(b: Book, op: Op, m: Mint)
    requires m in b.positions
    ensures m !in Apply(b, op).positions <==> Sells(op, m, b.positions[m]) && op.amount >= b.positions[m].amount
    ensures m in Apply(b, op).positions ==> Apply(b, op).positions[m].positionId == b.positions[m].positionId
  {
    if op.OpLifecycle? {
      LifecyclePositions(b, op);
    }
  }

  lemma {:induction false} LifecyclePositions(b: Book, op: Op)
    requires op.OpLifecycle?
    ensures Apply(b, op).positions.Keys == b.positions.Keys
    ensures forall m :: m in b.positions ==>
              Apply(b, op).positions[m].(version := 0) == b.positions[m].(version := 0)
  {
    SameLifecyclePositions(b, op.mint, op.pid, op.statuses);
  }

  lemma {:induction false} SameLifecyclePositions(b: Book, mint: Mint, pid: Id, statuses: seq<nat>)
    ensures LogLifecycle(b, mint, pid, statuses).positions == b.positions
  {
    if statuses != [] {
      SameLifecyclePositions(b, mint, pid, statuses[..|statuses| - 1]);
    }
  }

  /** Money: only an accepted sale moves amount and cost, and entry data never move. */
  lemma {:induction false} AmountsMoveBySalesOnly(b: Book, op: Op, m: Mint)
    requires m in b.positions && m in Apply(b, op).positions
    ensures var p, q := b.positions[m], Apply(b, op).positions[m];
            && q.round == p.round && q.strategy == p.strategy && q.routeB == p.routeB
            && q.entryCost == p.entryCost && q.entryAmount == p.entryAmount
            && q.amount == (if Sells(op, m, p) then p.amount - Taken(op, p) else p.amount)
            && q.remainingCost == (if Sells(op, m, p) then p.remainingCost - p.remainingCost * Taken(op, p) / p.amount
                                   else p.remainingCost)
  {
    if op.OpLifecycle? {
      LifecyclePositions(b, op);
    }
  }

  /** The claim: taken, released and consumed by exactly these three. */
  lemma {:induction false} ClaimMovesByThree(b: Book, op: Op, m: Mint)
    requires m in b.positions && m in Apply(b, op).positions
    ensures var p, q := b.positions[m], Apply(b, op).positions[m];
            q.pendingExit == if Claims(op, m, p) then Some(op.exit)
                             else if Releases(op, m, p) || Sells(op, m, p) then None else p.pendingExit
  {
    if op.OpLifecycle? {
      LifecyclePositions(b, op);
    }
  }

  /** The risk state after any mutator. */
  lemma {:induction false} RiskStateMoves(b: Book, op: Op, m: Mint)
    requires m in b.positions && m in Apply(b, op).positions
    ensures var p, q := b.positions[m], Apply(b, op).positions[m];
            q.riskState ==
            if Claims(op, m, p) then ExitPending
            else if Sells(op, m, p) then Normal
            else if Releases(op, m, p) then if op.degraded then Degraded else Normal
            else if Marks(op, m, p) then if p.riskState == ExitPending then ExitPending else Normal
            else if Misses(op, m, p) && (p.quoteFailures >= 2 || op.now >= p.lastQuoteSuccess + 10.0) then
              if op.noRoute then NoRoute else Degraded
            else p.riskState
  {
    if op.OpLifecycle? {
      LifecyclePositions(b, op);
    }
  }

  /** Quotes: a mark resets the failures and dates the success, a miss counts. */
  lemma {:induction false} QuotesMove(b: Book, op: Op, m: Mint)
    requires m in b.positions && m in Apply(b, op).positions
    ensures var p, q := b.positions[m], Apply(b, op).positions[m];
            && q.quoteFailures == (if Marks(op, m, p) then 0
                                   else if Misses(op, m, p) then p.quoteFailures + 1 else p.quoteFailures)
            && q.lastQuoteSuccess == (if Marks(op, m, p) then op.now else p.lastQuoteSuccess)
  {
    if op.OpLifecycle? {
      LifecyclePositions(b, op);
    }
  }

  /** Peaks: a mark raises the peak, and the trailing peak only once the first take-profit restarted it at 0. */
  lemma {:induction false} PeaksMove(b: Book, op: Op, m: Mint)
    requires m in b.positions && m in Apply(b, op).positions
    ensures var p, q := b.positions[m], Apply(b, op).positions[m];
            && q.peakValue == (if Marks(op, m, p) && op.value > p.peakValue then op.value else p.peakValue)
            && q.postTpPeak ==
               (if Sells(op, m, p)
                   && op.reason in {TakeProfit50, LiveTakeProfit50, RouteBTakeProfit30, TakeProfit30Sell80} then 0
                else if Marks(op, m, p) && p.takeProfitDone && op.value > p.postTpPeak then op.value
                else p.postTpPeak)
  {
    if op.OpLifecycle? {
      LifecyclePositions(b, op);
    }
  }

  // ----- What a buy does -----

  /** The first refusal that applies, in the order of the code; positions and cash change only without one. */
  lemma {:induction false} BuyExactlyWhen(b: Book, r: BuyRequest, pid: Id)
    ensures var open := |set m | m in b.positions && b.positions[m].strategy == r.strategy|;
            var seen := exists i :: 0 <= i < |b.events| && b.events[i].BuyEvent? && b.events[i].mint == r.mint
                                    && r.signature.Some? && b.events[i].signature == r.signature;
            Buy(b, r, pid).1 ==
            if r.cost <= 0 || r.amount <= 0 then Err(NonPositiveAmount)
            else if r.priceImpact < 0.0 || r.priceImpact > 1.5 then Err(ImpactTooHigh)
            else if r.maxOpen.Some? && r.maxOpen.value <= 0 then Err(BadCapacity)
            else if r.maxOpen.Some? && open >= r.maxOpen.value then Err(CapacityReached)
            else if r.mint in b.positions then Err(AlreadyOpen)
            else if seen then Err(DuplicateSignature)
            else if r.cost > b.cash then Err(InsufficientCash)
            else Ok(pid)
    ensures Buy(b, r, pid).1.Err? ==> Buy(b, r, pid).0 == b
  {
    hide LastRound;
    if r.signature.Some? && BoughtBefore(b.events, r.mint, r.signature.value) {
      var e :| e in b.events && e.BuyEvent? && e.mint == r.mint && e.signature == r.signature;
    }
  }

  /** The position a buy opens, its debit, and the BUY it logs with the round after the highest stored one. */
  lemma {:induction false} BuyOpens(b: Book, r: BuyRequest, pid: Id)
    requires Buy(b, r, pid).1.Ok?
    ensures var c := Buy(b, r, pid).0;
            var round := LastRound(b.events, r.mint) + 1;
            && c.cash == b.cash - r.cost
            && c.positions.Keys == b.positions.Keys + {r.mint}
            && (forall m :: m in b.positions ==> c.positions[m] == b.positions[m])
            && c.positions[r.mint] == Position(
                 positionId := pid, round := round, strategy := r.strategy, routeB := r.routeB,
                 amount := r.amount, remainingCost := r.cost, entryCost := r.cost, entryAmount := r.amount,
                 cumulativeProceeds := 0, requiredProceeds := r.cost, riskState := Normal, pendingExit := None,
                 quoteFailures := 0, lastQuoteSuccess := r.quoteAt,
                 takeProfitDone := false, secondTakeProfitDone := false,
                 peakValue := r.cost, postTpPeak := 0, version := 1)
            && c.events == b.events + [BuyEvent(b.nextSeq, r.mint, pid, r.cost, r.amount, round, r.signature)]
            && c.history == b.history + [BuyEvent(b.nextSeq, r.mint, pid, r.cost, r.amount, round, r.signature)]
  {
    hide LastRound;
  }

  /** The round is above every stored one of the mint, and by one above the highest. */
  lemma {:induction false} RoundFollowsTheHighest(events: seq<Event>, mint: Mint)
    ensures forall i :: 0 <= i < |events| && events[i].BuyEvent? && events[i].mint == mint ==>
              events[i].round <= LastRound(events, mint)
    ensures LastRound(events, mint) == 0 ||
            exists i :: 0 <= i < |events| && events[i].BuyEvent? && events[i].mint == mint
                        && events[i].round == LastRound(events, mint)
  {
    if events != [] {
      var n := |events| - 1;
      RoundFollowsTheHighest(events[..n], mint);
      var rest := LastRound(events[..n], mint);
      if rest != 0 {
        var i :| 0 <= i < n && events[..n][i].BuyEvent? && events[..n][i].mint == mint && events[..n][i].round == rest;
        assert events[i].round == rest;
      }
      assert forall i :: 0 <= i < n ==> events[..n][i] == events[i];
    }
  }

  /** The open positions of one strategy. */
  function OpenOf(positions: map<Mint, Position>, s: Strategy): set<Mint> {
    set m | m in positions && positions[m].strategy == s
  }

  predicate BuysWithin(op: Op, s: Strategy, cap: nat) {
    op.OpBuy? && op.request.strategy == s ==> op.request.maxOpen.Some? && op.request.maxOpen.value <= cap
  }

  lemma {:induction false} StepKeepsCapacity(b: Book, op: Op, s: Strategy, cap: nat)
    requires |OpenOf(b.positions, s)| <= cap && BuysWithin(op, s, cap)
    ensures |OpenOf(Apply(b, op).positions, s)| <= cap
  {
    var c := Apply(b, op);
    if op.OpBuy? && Buy(b, op.request, op.pid).1.Ok? && op.request.strategy == s {
      BuyExactlyWhen(b, op.request, op.pid);
      assert OpenOf(b.positions, s) == set m | m in b.positions && b.positions[m].strategy == s;
      assert OpenOf(c.positions, s) == OpenOf(b.positions, s) + {op.request.mint};
    } else {
      forall m | m in OpenOf(c.positions, s)
        ensures m in OpenOf(b.positions, s)
      {
        if m in b.positions {
          AmountsMoveBySalesOnly(b, op, m);
        } else {
          OnlyBuysOpen(b, op, m);
        }
      }
      Fewer(OpenOf(c.positions, s), OpenOf(b.positions, s));
    }
  }

  lemma {:induction false} OnlyBuysOpen(b: Book, op: Op, m: Mint)
    requires m !in b.positions && m in Apply(b, op).positions
    ensures op.OpBuy? && op.request.mint == m && Buy(b, op.request, op.pid).1.Ok?
    ensures Apply(b, op).positions[m].strategy == op.request.strategy
  {
    if op.OpLifecycle? {
      LifecyclePositions(b, op);
    }
  }

  lemma {:induction false} Fewer(a: set<Mint>, b: set<Mint>)
    requires a <= b
    ensures |a| <= |b|
  {
    assert b == a + (b - a);
  }

  /** With a cap on every buy of a strategy, no run ever holds more positions of it. */
  lemma {:induction false} CapacityIsKept(ops: seq<Op>, s: Strategy, cap: nat)
    requires forall i :: 0 <= i < |ops| ==> BuysWithin(ops[i], s, cap)
    ensures |OpenOf(Run(EmptyBook, ops).positions, s)| <= cap
  {
    if ops == [] {
      assert OpenOf(EmptyBook.positions, s) == {};
    } else {
      hide Apply, OpenOf, BuysWithin;
      var n := |ops| - 1;
      forall i | 0 <= i < n
        ensures BuysWithin(ops[..n][i], s, cap)
      {
        assert ops[..n][i] == ops[i];
      }
      CapacityIsKept(ops[..n], s, cap);
      StepKeepsCapacity(Run(EmptyBook, ops[..n]), ops[n], s, cap);
    }
  }

  /** A rejected or skipped signal is logged once while stored, and then the list is cut to its last 2,000. */
  lemma {:induction false} SignalsAreLoggedOnce(b: Book, mint: Mint, s: Signature)
    ensures var known := exists i :: 0 <= i < |b.events| && b.events[i].RejectionEvent?
                                     && b.events[i].rejected == s && b.events[i].mint == mint;
            var all := b.events + [RejectionEvent(b.nextSeq, mint, s)];
            Reject(b, mint, s) ==
            if known then b
            else b.(events := if |all| <= 2_000 then all else all[|all| - 2_000..], nextSeq := b.nextSeq + 1,
                    history := b.history + [RejectionEvent(b.nextSeq, mint, s)])
    ensures var known := exists i :: 0 <= i < |b.events| && b.events[i].RpcSkipEvent?
                                     && b.events[i].skipped == s && b.events[i].mint == mint;
            var all := b.events + [RpcSkipEvent(b.nextSeq, mint, s)];
            RpcSkip(b, mint, s) ==
            if known then b
            else b.(events := if |all| <= 2_000 then all else all[|all| - 2_000..], nextSeq := b.nextSeq + 1,
                    history := b.history + [RpcSkipEvent(b.nextSeq, mint, s)])
  {
    if e :| e in b.events && e.RejectionEvent? && e.rejected == s && e.mint == mint {
      var i :| 0 <= i < |b.events| && b.events[i] == e;
    }
    if e :| e in b.events && e.RpcSkipEvent? && e.skipped == s && e.mint == mint {
      var i :| 0 <= i < |b.events| && b.events[i] == e;
    }
  }

  /** A transaction's statuses are logged one after the other under the next numbers, for the position held only. */
  lemma {:induction false} StatusesAreLogged(b: Book, mint: Mint, pid: Id, statuses: seq<nat>, i: nat)
    requires mint in b.positions && b.positions[mint].positionId == pid
    ensures var c := Lifecycle(b, mint, pid, statuses);
            && |c.events| == |b.events| + |statuses| && c.events[..|b.events|] == b.events
            && c.nextSeq == b.nextSeq + |statuses| && c.cash == b.cash
            && (i < |statuses| ==> c.events[|b.events| + i] == LifecycleEvent(b.nextSeq + i, mint, pid, statuses[i]))
  {
    StatusesLogged(b, mint, pid, statuses, i);
    hide LogLifecycle;
  }

  lemma {:induction false} StatusesLogged(b: Book, mint: Mint, pid: Id, statuses: seq<nat>, i: nat)
    ensures var c := LogLifecycle(b, mint, pid, statuses);
            && |c.events| == |b.events| + |statuses| && c.events[..|b.events|] == b.events
            && c.nextSeq == b.nextSeq + |statuses| && c.cash == b.cash
            && (i < |statuses| ==> c.events[|b.events| + i] == LifecycleEvent(b.nextSeq + i, mint, pid, statuses[i]))
  {
    if statuses != [] {
      StatusesLogged(b, mint, pid, statuses[..|statuses| - 1], i);
    }
  }
}
