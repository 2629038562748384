/**
 The versioned paper-trading ledger (src/risk_manager.py): its records, the atomic mutators that
 every process runs under the state-file lock, and the mutable document itself.

 Each mutator is written twice on purpose: as a function from a `Book` to a `Book`, which the
 theorems of the other ledger modules reason about, and as a method of class `LedgerFile` that
 updates the document's fields in place and is proved equal to that function.
 */
module PaperLedger {
  import opened Wrappers

  const INITIAL_PAPER_LAMPORTS: int := 10_000_000_000
  const STORED_EVENT_LIMIT: nat := 2_000
  const QUOTE_FAILURE_WARNING_COUNT: nat := 3
  const DEGRADED_QUOTE_GAP_SECONDS: real := 10.0
  const MAX_ENTRY_PRICE_IMPACT_PCT: real := 1.5

  // Mint addresses, signatures, strategy names and uuid4 texts are only ever compared for equality.
  type Mint = nat
  type Signature = nat
  type Strategy = nat
  type Id = nat

  datatype RiskState = Normal | Degraded | NoRoute | ExitPending

  datatype Reason =
    | StopLoss15 | RouteBStopLoss10 | TpBreakEven | PostTpTrailingStop50 | ManualClose
    | TakeProfit30Sell80 | TakeProfit50 | RouteBTakeProfit30 | TakeProfit100
    | LiveStopLoss15 | LiveTakeProfit50 | LiveTakeProfit100

  datatype Position = Position(
    positionId: Id, round: nat, strategy: Strategy, routeB: bool,
    amount: int, remainingCost: int, entryCost: int, entryAmount: int,
    cumulativeProceeds: int, requiredProceeds: int,
    riskState: RiskState, pendingExit: Option<Id>,
    quoteFailures: nat, lastQuoteSuccess: real,
    takeProfitDone: bool, secondTakeProfitDone: bool,
    peakValue: int, postTpPeak: int, version: nat)

  datatype Event =
    | BuyEvent(seqNo: nat, mint: Mint, positionId: Id, cost: int, amount: int, round: nat, signature: Option<Signature>)
    | SellEvent(seqNo: nat, mint: Mint, positionId: Id, amount: int, proceeds: int, pnl: int, reason: Reason)
    | RejectionEvent(seqNo: nat, mint: Mint, rejected: Signature)
    | RpcSkipEvent(seqNo: nat, mint: Mint, skipped: Signature)
    | LifecycleEvent(seqNo: nat, mint: Mint, positionId: Id, status: nat)

  /** The document, together with every event it ever appended (`events` is a truncated suffix). */
  datatype Book = Book(
    cash: int, positions: map<Mint, Position>, events: seq<Event>, nextSeq: nat, history: seq<Event>)

  const EmptyBook: Book := Book(INITIAL_PAPER_LAMPORTS, map[], [], 1, [])

  datatype BuyRequest = BuyRequest(
    mint: Mint, cost: int, amount: int, priceImpact: real, signature: Option<Signature>,
    strategy: Strategy, routeB: bool, maxOpen: Option<int>, quoteAt: real)

  datatype BuyError =
    | NonPositiveAmount | ImpactTooHigh | BadCapacity | CapacityReached
    | AlreadyOpen | DuplicateSignature | InsufficientCash

  // ----- Event log -----

  function Last(s: seq<Event>, n: nat): seq<Event> {
    if |s| <= n then s else s[|s| - n..]
  }

  function Log(b: Book, e: Event): Book {
    b.(events := b.events + [e], nextSeq := b.nextSeq + 1, history := b.history + [e])
  }

  function Truncated(b: Book): Book {
    b.(events := Last(b.events, STORED_EVENT_LIMIT))
  }

  predicate BoughtBefore(events: seq<Event>, mint: Mint, s: Signature) {
    exists e :: e in events && e.BuyEvent? && e.mint == mint && e.signature == Some(s)
  }

  /** Highest round index among the stored BUY events of a mint, 0 when there is none. */
  function LastRound(events: seq<Event>, mint: Mint): nat {
    if events == [] then 0
    else
      var rest := LastRound(events[..|events| - 1], mint);
      var e := events[|events| - 1];
      if e.BuyEvent? && e.mint == mint && e.round > rest then e.round else rest
  }

  // ----- Mutators as functions -----

  function BuyGuard(b: Book, r: BuyRequest): Option<BuyError> {
    if r.cost <= 0 || r.amount <= 0 then Some(NonPositiveAmount)
    else if r.priceImpact < 0.0 || r.priceImpact > MAX_ENTRY_PRICE_IMPACT_PCT then Some(ImpactTooHigh)
    else if r.maxOpen.Some? && r.maxOpen.value <= 0 then Some(BadCapacity)
    else if r.maxOpen.Some? && OpenCount(b.positions, r.strategy) >= r.maxOpen.value then Some(CapacityReached)
    else if r.mint in b.positions then Some(AlreadyOpen)
    else if r.signature.Some? && BoughtBefore(b.events, r.mint, r.signature.value) then Some(DuplicateSignature)
    else if b.cash < r.cost then Some(InsufficientCash)
    else None
  }

  function OpenCount(positions: map<Mint, Position>, strategy: Strategy): nat {
    |set m | m in positions && positions[m].strategy == strategy|
  }

  function NewPosition(r: BuyRequest, pid: Id, round: nat): Position {
    Position(pid, round, r.strategy, r.routeB, r.amount, r.cost, r.cost, r.amount, 0, r.cost,
             Normal, None, 0, r.quoteAt, false, false, r.cost, 0, 1)
  }

  function Buy(b: Book, r: BuyRequest, pid: Id): (Book, Result<Id, BuyError>) {
    match BuyGuard(b, r)
    case Some(error) => (b, Err(error))
    case None =>
      var round := LastRound(b.events, r.mint) + 1;
      var funded := b.(cash := b.cash - r.cost,
                       positions := b.positions[r.mint := NewPosition(r, pid, round)]);
      (Log(funded, BuyEvent(b.nextSeq, r.mint, pid, r.cost, r.amount, round, r.signature)), Ok(pid))
  }

  function Reject(b: Book, mint: Mint, s: Signature): Book {
    if exists e :: e in b.events && e.RejectionEvent? && e.rejected == s && e.mint == mint then b
    else Truncated(Log(b, RejectionEvent(b.nextSeq, mint, s)))
  }

  function RpcSkip(b: Book, mint: Mint, s: Signature): Book {
    if exists e :: e in b.events && e.RpcSkipEvent? && e.skipped == s && e.mint == mint then b
    else Truncated(Log(b, RpcSkipEvent(b.nextSeq, mint, s)))
  }

  predicate Holds(b: Book, mint: Mint, pid: Id) {
    mint in b.positions && b.positions[mint].positionId == pid
  }

  function WithPosition(b: Book, mint: Mint, p: Position): Book {
    b.(positions := b.positions[mint := p.(version := p.version + 1)])
  }

  function Claim(b: Book, mint: Mint, pid: Id, exit: Id): (Book, Option<int>) {
    if !Holds(b, mint, pid) || b.positions[mint].riskState == ExitPending then (b, None)
    else
      var p := b.positions[mint];
      (WithPosition(b, mint, p.(riskState := ExitPending, pendingExit := Some(exit))), Some(p.amount))
  }

  function Release(b: Book, mint: Mint, pid: Id, exit: Id, degraded: bool): Book {
    if Holds(b, mint, pid) && b.positions[mint].pendingExit == Some(exit) then
      WithPosition(b, mint, b.positions[mint].(pendingExit := None,
                                               riskState := if degraded then Degraded else Normal))
    else b
  }

  function Mark(b: Book, mint: Mint, pid: Id, value: int, now: real): Book {
    if !Holds(b, mint, pid) || value < 0 then b
    else
      var p := b.positions[mint];
      WithPosition(b, mint, p.(
        peakValue := Max(p.peakValue, value),
        postTpPeak := if p.takeProfitDone then Max(p.postTpPeak, value) else p.postTpPeak,
        lastQuoteSuccess := now, quoteFailures := 0,
        riskState := if p.riskState == ExitPending then ExitPending else Normal))
  }

  function QuoteFailure(b: Book, mint: Mint, pid: Id, now: real, noRoute: bool): Book {
    if !Holds(b, mint, pid) then b
    else
      var p := b.positions[mint];
      var failures := p.quoteFailures + 1;
      var stale := failures >= QUOTE_FAILURE_WARNING_COUNT
                   || now - p.lastQuoteSuccess >= DEGRADED_QUOTE_GAP_SECONDS;
      WithPosition(b, mint, p.(
        quoteFailures := failures,
        riskState := if !stale then p.riskState else if noRoute then NoRoute else Degraded))
  }

  function Lifecycle(b: Book, mint: Mint, pid: Id, statuses: seq<nat>): Book {
    if statuses == [] || !Holds(b, mint, pid) then b
    else WithPosition(LogLifecycle(b, mint, pid, statuses), mint, b.positions[mint])
  }

  function LogLifecycle(b: Book, mint: Mint, pid: Id, statuses: seq<nat>): Book {
    if statuses == [] then b
    else
      var n := |statuses| - 1;
      var before := LogLifecycle(b, mint, pid, statuses[..n]);
      Log(before, LifecycleEvent(before.nextSeq, mint, pid, statuses[n]))
  }

  predicate FirstTakeProfit(reason: Reason) {
    reason == TakeProfit50 || reason == LiveTakeProfit50
    || reason == RouteBTakeProfit30 || reason == TakeProfit30Sell80
  }

  predicate SecondTakeProfit(reason: Reason) {
    reason == TakeProfit100 || reason == LiveTakeProfit100
  }

  /** Why a sell is refused, in the order the code tests; a refused sell writes nothing. */
  predicate SellAccepted(b: Book, mint: Mint, amount: int, pid: Option<Id>, exit: Option<Id>) {
    && mint in b.positions
    && (pid.Some? ==> b.positions[mint].positionId == pid.value)
    && (exit.Some? ==> b.positions[mint].pendingExit == exit)
    && Min(amount, b.positions[mint].amount) > 0
  }

  function Released(p: Position, sold: int): int
    requires p.amount > 0
  {
    p.remainingCost * sold / p.amount
  }

  /** The position after `sold` units left it; the take-profit reasons also move the break-even floor. */
  function AfterSale(p: Position, sold: int, proceeds: int, reason: Reason): Position
    requires p.amount > 0
  {
    var total := p.cumulativeProceeds + proceeds;
    var q := p.(amount := p.amount - sold, remainingCost := p.remainingCost - Released(p, sold),
                cumulativeProceeds := total, pendingExit := None, riskState := Normal,
                version := p.version + 1);
    if FirstTakeProfit(reason) then
      q.(takeProfitDone := true, requiredProceeds := Max(0, p.entryCost - total), postTpPeak := 0)
    else if SecondTakeProfit(reason) then q.(secondTakeProfitDone := true)
    else q
  }

  function Sell(b: Book, mint: Mint, amount: int, proceeds: int, reason: Reason,
                pid: Option<Id>, exit: Option<Id>): (Book, bool)
  {
    if !SellAccepted(b, mint, amount, pid, exit) then (b, false)
    else (Sold(b, mint, Min(amount, b.positions[mint].amount), proceeds, reason), true)
  }

  /** An accepted sell of `sold` units: the position shrinks or leaves, cash grows, the event is logged. */
  function Sold(b: Book, mint: Mint, sold: int, proceeds: int, reason: Reason): Book
    requires mint in b.positions && 0 < sold <= b.positions[mint].amount
  {
    var p := b.positions[mint];
    var q := AfterSale(p, sold, proceeds, reason);
    var paid := b.(cash := b.cash + proceeds,
                   positions := if q.amount <= 0 then b.positions - {mint} else b.positions[mint := q]);
    Log(paid, SellEvent(b.nextSeq, mint, p.positionId, sold, proceeds, proceeds - Released(p, sold), reason))
  }

  function Min(a: int, b: int): int { if a <= b then a else b }

  function Max(a: int, b: int): int { if a >= b then a else b }

  // ----- Runs of mutators -----

  datatype Op =
    | OpBuy(request: BuyRequest, pid: Id)
    | OpReject(mint: Mint, signature: Signature)
    | OpRpcSkip(mint: Mint, signature: Signature)
    | OpClaim(mint: Mint, pid: Id, exit: Id)
    | OpRelease(mint: Mint, pid: Id, exit: Id, degraded: bool)
    | OpMark(mint: Mint, pid: Id, value: int, now: real)
    | OpQuoteFailure(mint: Mint, pid: Id, now: real, noRoute: bool)
    | OpLifecycle(mint: Mint, pid: Id, statuses: seq<nat>)
    | OpSell(mint: Mint, amount: int, proceeds: int, reason: Reason, soldPid: Option<Id>, soldExit: Option<Id>)

  function Apply(b: Book, op: Op): Book {
    match op
    case OpBuy(r, pid) => Buy(b, r, pid).0
    case OpReject(mint, s) => Reject(b, mint, s)
    case OpRpcSkip(mint, s) => RpcSkip(b, mint, s)
    case OpClaim(mint, pid, exit) => Claim(b, mint, pid, exit).0
    case OpRelease(mint, pid, exit, degraded) => Release(b, mint, pid, exit, degraded)
    case OpMark(mint, pid, value, now) => Mark(b, mint, pid, value, now)
    case OpQuoteFailure(mint, pid, now, noRoute) => QuoteFailure(b, mint, pid, now, noRoute)
    case OpLifecycle(mint, pid, statuses) => Lifecycle(b, mint, pid, statuses)
    case OpSell(mint, amount, proceeds, reason, pid, exit) => Sell(b, mint, amount, proceeds, reason, pid, exit).0
  }

  function Run(b: Book, ops: seq<Op>): Book {
    if ops == [] then b else Apply(Run(b, ops[..|ops| - 1]), ops[|ops| - 1])
  }

  // ----- The mutable document -----

  class LedgerFile {
    var cash: int
    var positions: map<Mint, Position>
    var events: seq<Event>
    var nextSeq: nat
    ghost var history: seq<Event>

    ghost function Model(): Book
      reads this
    {
      Book(cash, positions, events, nextSeq, history)
    }

    constructor ()
      ensures Model() == EmptyBook
    {
      cash := INITIAL_PAPER_LAMPORTS;
      positions := map[];
      events := [];
      nextSeq := 1;
      history := [];
    }

    /** `_next_event` followed by the append; the caller built `e` with the current sequence number. */
    method Append(e: Event)
      modifies this
      ensures Model() == Log(old(Model()), e)
    {
      nextSeq := nextSeq + 1;
      events := events + [e];
      history := history + [e];
    }

    method RecordPaperBuy(r: BuyRequest, freshId: Id) returns (result: Result<Id, BuyError>)
      modifies this
      ensures Model() == Buy(old(Model()), r, freshId).0
      ensures result == Buy(old(Model()), r, freshId).1
    {
      if r.cost <= 0 || r.amount <= 0 {
        return Err(NonPositiveAmount);
      }
      if r.priceImpact < 0.0 || r.priceImpact > MAX_ENTRY_PRICE_IMPACT_PCT {
        return Err(ImpactTooHigh);
      }
      if r.maxOpen.Some? {
        if r.maxOpen.value <= 0 {
          return Err(BadCapacity);
        }
        if OpenCount(positions, r.strategy) >= r.maxOpen.value {
          return Err(CapacityReached);
        }
      }
      if r.mint in positions {
        return Err(AlreadyOpen);
      }
      if r.signature.Some? && BoughtBefore(events, r.mint, r.signature.value) {
        return Err(DuplicateSignature);
      }
      if cash < r.cost {
        return Err(InsufficientCash);
      }
      var round := PreviousRound(r.mint);
      round := round + 1;
      cash := cash - r.cost;
      positions := positions[r.mint := NewPosition(r, freshId, round)];
      Append(BuyEvent(nextSeq, r.mint, freshId, r.cost, r.amount, round, r.signature));
      return Ok(freshId);
    }

    method PreviousRound(mint: Mint) returns (round: nat)
      ensures round == LastRound(events, mint)
    {
      round := 0;
      for i := 0 to |events|
        invariant round == LastRound(events[..i], mint)
      {
        assert events[..i + 1][..i] == events[..i];
        if events[i].BuyEvent? && events[i].mint == mint && events[i].round > round {
          round := events[i].round;
        }
      }
      assert events[..|events|] == events;
    }

    method RecordPaperRejection(mint: Mint, s: Signature)
      modifies this
      ensures Model() == Reject(old(Model()), mint, s)
    {
      if exists e :: e in events && e.RejectionEvent? && e.rejected == s && e.mint == mint {
        return;
      }
      Append(RejectionEvent(nextSeq, mint, s));
      events := Last(events, STORED_EVENT_LIMIT);
    }

    method RecordRpcSkip(mint: Mint, s: Signature)
      modifies this
      ensures Model() == RpcSkip(old(Model()), mint, s)
    {
      if exists e :: e in events && e.RpcSkipEvent? && e.skipped == s && e.mint == mint {
        return;
      }
      Append(RpcSkipEvent(nextSeq, mint, s));
      events := Last(events, STORED_EVENT_LIMIT);
    }

    method ClaimPositionExit(mint: Mint, pid: Id, exit: Id) returns (claimed: Option<int>)
      modifies this
      ensures Model() == Claim(old(Model()), mint, pid, exit).0
      ensures claimed == Claim(old(Model()), mint, pid, exit).1
    {
      if mint !in positions || positions[mint].positionId != pid || positions[mint].riskState == ExitPending {
        return None;
      }
      var p := positions[mint];
      claimed := Some(p.amount);
      p := p.(riskState := ExitPending);
      p := p.(pendingExit := Some(exit));
      p := p.(version := p.version + 1);
      positions := positions[mint := p];
    }

    method ReleaseExitClaim(mint: Mint, pid: Id, exit: Id, degraded: bool)
      modifies this
      ensures Model() == Release(old(Model()), mint, pid, exit, degraded)
    {
      if mint in positions && positions[mint].positionId == pid && positions[mint].pendingExit == Some(exit) {
        var p := positions[mint];
        p := p.(pendingExit := None);
        p := p.(riskState := if degraded then Degraded else Normal);
        p := p.(version := p.version + 1);
        positions := positions[mint := p];
      }
    }

    method RecordPositionMark(mint: Mint, pid: Id, value: int, now: real)
      modifies this
      ensures Model() == Mark(old(Model()), mint, pid, value, now)
    {
      if mint !in positions || positions[mint].positionId != pid || value < 0 {
        return;
      }
      var p := positions[mint];
      if value > p.peakValue {
        p := p.(peakValue := value);
      }
      if p.takeProfitDone && value > p.postTpPeak {
        p := p.(postTpPeak := value);
      }
      p := p.(lastQuoteSuccess := now, quoteFailures := 0);
      if p.riskState != ExitPending {
        p := p.(riskState := Normal);
      }
      p := p.(version := p.version + 1);
      positions := positions[mint := p];
    }

    method RecordQuoteFailure(mint: Mint, pid: Id, now: real, noRoute: bool)
      modifies this
      ensures Model() == QuoteFailure(old(Model()), mint, pid, now, noRoute)
    {
      if mint !in positions || positions[mint].positionId != pid {
        return;
      }
      var p := positions[mint];
      p := p.(quoteFailures := p.quoteFailures + 1);
      var gap := now - p.lastQuoteSuccess;
      if p.quoteFailures >= QUOTE_FAILURE_WARNING_COUNT || gap >= DEGRADED_QUOTE_GAP_SECONDS {
        p := p.(riskState := if noRoute then NoRoute else Degraded);
      }
      p := p.(version := p.version + 1);
      positions := positions[mint := p];
    }

    method RecordLiveTransactionLifecycle(mint: Mint, pid: Id, statuses: seq<nat>)
      modifies this
      ensures Model() == Lifecycle(old(Model()), mint, pid, statuses)
    {
      if statuses == [] || mint !in positions || positions[mint].positionId != pid {
        return;
      }
      var p := positions[mint];
      for i := 0 to |statuses|
        invariant Model() == LogLifecycle(old(Model()), mint, pid, statuses[..i])
        invariant positions == old(positions)
      {
        assert statuses[..i + 1][..i] == statuses[..i];
        Append(LifecycleEvent(nextSeq, mint, pid, statuses[i]));
      }
      assert statuses[..|statuses|] == statuses;
      p := p.(version := p.version + 1);
      positions := positions[mint := p];
    }

    method RecordPaperSell(mint: Mint, amount: int, proceeds: int, reason: Reason,
                           pid: Option<Id>, exit: Option<Id>) returns (recorded: bool)
      modifies this
      ensures Model() == Sell(old(Model()), mint, amount, proceeds, reason, pid, exit).0
      ensures recorded == Sell(old(Model()), mint, amount, proceeds, reason, pid, exit).1
    {
      if mint !in positions {
        return false;
      }
      var p := positions[mint];
      if pid.Some? && p.positionId != pid.value {
        return false;
      }
      if exit.Some? && p.pendingExit != exit {
        return false;
      }
      var sold := Min(amount, p.amount);
      if sold <= 0 {
        return false;
      }
      assert SellAccepted(Model(), mint, amount, pid, exit);
      CommitSale(mint, sold, proceeds, reason);
      return true;
    }

    /** The writing half of `record_paper_sell`, reached once every guard has passed. */
    method CommitSale(mint: Mint, sold: int, proceeds: int, reason: Reason)
      requires mint in positions && 0 < sold <= positions[mint].amount
      modifies this
      ensures Model() == Sold(old(Model()), mint, sold, proceeds, reason)
    {
      hide AfterSale, Released;
      var pnl := proceeds - Released(positions[mint], sold);
      AfterSaleKeepsId(positions[mint], sold, proceeds, reason);
      var p := UpdatedBySale(positions[mint], sold, proceeds, reason);
      positions := positions[mint := p];
      cash := cash + proceeds;
      Append(SellEvent(nextSeq, mint, p.positionId, sold, proceeds, pnl, reason));
      if p.amount <= 0 {
        positions := positions - {mint};
      }
    }
  }

  lemma AfterSaleKeepsId(p: Position, sold: int, proceeds: int, reason: Reason)
    requires 0 < sold <= p.amount
    ensures AfterSale(p, sold, proceeds, reason).positionId == p.positionId
  {
    hide Released;
  }

  /** The position's own fields, updated one after the other as the mutator does. */
  method UpdatedBySale(before: Position, sold: int, proceeds: int, reason: Reason) returns (p: Position)
    requires 0 < sold <= before.amount
    ensures p == AfterSale(before, sold, proceeds, reason)
  {
    var released := Released(before, sold);
    p := before;
    p := p.(amount := p.amount - sold);
    p := p.(remainingCost := p.remainingCost - released);
    p := p.(cumulativeProceeds := p.cumulativeProceeds + proceeds);
    p := p.(pendingExit := None, riskState := Normal, version := p.version + 1);
    if FirstTakeProfit(reason) {
      p := p.(takeProfitDone := true);
      p := p.(requiredProceeds := Max(0, p.entryCost - p.cumulativeProceeds));
      p := p.(postTpPeak := 0);
    } else if SecondTakeProfit(reason) {
      p := p.(secondTakeProfitDone := true);
    }
  }
}
