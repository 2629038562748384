/**
 The exit protocol around the ledger: any number of processes (risk loop, live loop, dashboard manual
 close) read a position, wait for a quote, claim the exit, wait for another quote and then sell, with
 every ledger access an atomic mutator and any interleaving, failure or crash in between.

 A process may act on a stale snapshot; `EXIT_PENDING` may be overwritten by a late quote failure and a
 second claim may then replace the first. Safety rests on the exit id compared at the sale.
 */
module ExitProtocol {
  import opened Wrappers
  import opened PaperLedger

  const TAKE_PROFIT_SELL_PERCENT: int := 80
  const TAKE_PROFIT_RATIO: real := 1.3
  const SECOND_TAKE_PROFIT_RATIO: real := 2.0
  const STOP_LOSS_RATIO: real := 0.85
  const ROUTE_B_STOP_LOSS_RATIO: real := 0.9

  type Proc = nat

  /** Where a process stands between two atomic ledger accesses. */
  datatype Pc =
    | Idle
    | Evaluating(mint: Mint, pid: Id, snapshot: Position, live: bool)
    | Deciding(mint: Mint, pid: Id, reason: Reason, detected: Option<int>)
    | Quoting(mint: Mint, pid: Id, exit: Id, claimed: int, reason: Reason, amount: int)
    | Dropping(mint: Mint, pid: Id, exit: Id)
    | Failing(mint: Mint, pid: Id, exit: Id, reason: Reason)
    | Reporting(mint: Mint, pid: Id)

  datatype Sale = Sale(exit: Id, pid: Id, reason: Reason, claimed: int, held: int, requested: int, sold: int)

  datatype World = World(book: Book, procs: map<Proc, Pc>, usedExits: set<Id>, usedPids: set<Id>, sales: seq<Sale>)

  datatype Step =
    | Read(p: Proc, mint: Mint, live: bool)
    | ReadManual(p: Proc, mint: Mint)
    | QuoteOk(p: Proc, value: int, now: real)
    | QuoteBad(p: Proc, now: real, noRoute: bool)
    | TakeClaim(p: Proc, exit: Id)
    | Drop(p: Proc)
    | Commit(p: Proc, proceeds: int)
    | ExitFails(p: Proc)
    | ReleaseFailed(p: Proc)
    | Report(p: Proc, now: real, noRoute: bool)
    | Crash(p: Proc)
    | Env(op: Op)

  // ----- Decisions -----

  /** The whole position for stops and manual closes, 80% for a paper take-profit, half for a live one. */
  function ExitAmount(reason: Reason, claimed: int): int {
    match reason
    case StopLoss15 | RouteBStopLoss10 | TpBreakEven | PostTpTrailingStop50 => claimed
    case ManualClose | LiveStopLoss15 => claimed
    case LiveTakeProfit50 | LiveTakeProfit100 => claimed / 2
    case _ => claimed * TAKE_PROFIT_SELL_PERCENT / 100
  }

  predicate Live(reason: Reason) {
    reason == LiveStopLoss15 || reason == LiveTakeProfit50 || reason == LiveTakeProfit100
  }

  /** The exit `evaluate_paper_position` asks for, and the quoted amount a stop insists on. */
  function PaperDecision(s: Position, value: int): Option<(Reason, Option<int>)>
    requires s.remainingCost > 0
  {
    var ratio := value as real / s.remainingCost as real;
    var stop :=
      if s.takeProfitDone then s.postTpPeak > 0 && value * 2 <= s.postTpPeak
      else ratio <= if s.routeB then ROUTE_B_STOP_LOSS_RATIO else STOP_LOSS_RATIO;
    if stop then
      Some((if s.takeProfitDone then PostTpTrailingStop50
            else if s.routeB then RouteBStopLoss10 else StopLoss15, Some(s.amount)))
    else if ratio >= TAKE_PROFIT_RATIO && !s.takeProfitDone then Some((TakeProfit30Sell80, None))
    else None
  }

  function LiveDecision(s: Position, value: int): Option<(Reason, Option<int>)> {
    if s.remainingCost == 0 then None
    else
      var ratio := value as real / s.remainingCost as real;
      if ratio <= STOP_LOSS_RATIO then Some((LiveStopLoss15, None))
      else if ratio >= SECOND_TAKE_PROFIT_RATIO && s.takeProfitDone && !s.secondTakeProfitDone
      then Some((LiveTakeProfit100, None))
      else if ratio >= TAKE_PROFIT_RATIO && !s.takeProfitDone then Some((LiveTakeProfit50, None))
      else None
  }

  /**
   What a paper quote decides, in whole lamports: before the first take-profit a stop exactly at 85% of the
   remaining cost (90% on route B) or below and a take-profit exactly from 130%; after it, only a stop at half
   of a peak already seen. A stop insists on the quoted amount.
   */
  lemma PaperDecisionExactlyWhen(s: Position, value: int)
    requires s.remainingCost > 0
    ensures var d := PaperDecision(s, value);
            var percent := if s.routeB then 90 else 85;
            && (s.takeProfitDone ==>
                  d == if s.postTpPeak > 0 && value * 2 <= s.postTpPeak
                       then Some((PostTpTrailingStop50, Some(s.amount))) else None)
            && (!s.takeProfitDone && s.routeB && value * 100 <= s.remainingCost * percent ==>
                  d == Some((RouteBStopLoss10, Some(s.amount))))
            && (!s.takeProfitDone && !s.routeB && value * 100 <= s.remainingCost * percent ==>
                  d == Some((StopLoss15, Some(s.amount))))
            && (!s.takeProfitDone && value * 100 > s.remainingCost * percent ==>
                  d == if value * 10 >= s.remainingCost * 13 then Some((TakeProfit30Sell80, None)) else None)
  {
    RatioIsAtMost(value, s.remainingCost, 85, STOP_LOSS_RATIO);
    RatioIsAtMost(value, s.remainingCost, 90, ROUTE_B_STOP_LOSS_RATIO);
    RatioIsAtLeast(value, s.remainingCost, 130, TAKE_PROFIT_RATIO);
  }

  /** What a live quote decides: stop at 85%, first take-profit from 130%, second from 200%. */
  lemma LiveDecisionExactlyWhen(s: Position, value: int)
    requires s.remainingCost >= 0
    ensures LiveDecision(s, value) ==
            if s.remainingCost == 0 then None
            else if value * 100 <= s.remainingCost * 85 then Some((LiveStopLoss15, None))
            else if value >= s.remainingCost * 2 && s.takeProfitDone && !s.secondTakeProfitDone
            then Some((LiveTakeProfit100, None))
            else if value * 10 >= s.remainingCost * 13 && !s.takeProfitDone then Some((LiveTakeProfit50, None))
            else None
  {
    if s.remainingCost > 0 {
      RatioIsAtMost(value, s.remainingCost, 85, STOP_LOSS_RATIO);
      RatioIsAtLeast(value, s.remainingCost, 130, TAKE_PROFIT_RATIO);
      RatioIsAtLeast(value, s.remainingCost, 200, SECOND_TAKE_PROFIT_RATIO);
    }
  }

  lemma RatioIsAtMost(value: int, cost: int, percent: int, ratio: real)
    requires cost > 0 && ratio == percent as real / 100.0
    ensures value as real / cost as real <= ratio <==> value * 100 <= cost * percent
  {
    var q := value as real / cost as real;
    assert q * cost as real == value as real;
    assert (cost * percent) as real == cost as real * percent as real;
    assert 100.0 * ratio * cost as real == (cost * percent) as real;
    if q <= ratio {
      MultipliedKeeps(q, ratio, cost as real);
    } else {
      MultipliedKeepsLess(ratio, q, cost as real);
    }
  }

  lemma RatioIsAtLeast(value: int, cost: int, percent: int, ratio: real)
    requires cost > 0 && ratio == percent as real / 100.0
    ensures value as real / cost as real >= ratio <==> value * 100 >= cost * percent
  {
    var q := value as real / cost as real;
    assert q * cost as real == value as real;
    assert (cost * percent) as real == cost as real * percent as real;
    assert 100.0 * ratio * cost as real == (cost * percent) as real;
    if q >= ratio {
      MultipliedKeeps(ratio, q, cost as real);
    } else {
      MultipliedKeepsLess(q, ratio, cost as real);
    }
  }

  lemma MultipliedKeeps(a: real, b: real, c: real)
    requires a <= b && c > 0.0
    ensures a * c <= b * c
  {
  }

  lemma MultipliedKeepsLess(a: real, b: real, c: real)
    requires a < b && c > 0.0
    ensures a * c < b * c
  {
  }

  // ----- Steps -----

  function At(w: World, p: Proc): Pc {
    if p in w.procs then w.procs[p] else Idle
  }

  function Go(w: World, b: Book, p: Proc, pc: Pc): World {
    w.(book := b, procs := w.procs[p := pc])
  }

  predicate Enabled(w: World, s: Step) {
    match s
    case Read(p, mint, live) =>
      && At(w, p).Idle? && mint in w.book.positions
      && (live || (w.book.positions[mint].amount > 0 && w.book.positions[mint].remainingCost > 0
                   && w.book.positions[mint].riskState != ExitPending))
    case ReadManual(p, mint) => At(w, p).Idle? && mint in w.book.positions
    case QuoteOk(p, value, _) => At(w, p).Evaluating? && value >= 0
    case QuoteBad(p, _, _) => At(w, p).Evaluating?
    case TakeClaim(p, exit) => At(w, p).Deciding? && exit !in w.usedExits
    case Drop(p) => At(w, p).Dropping?
    case Commit(p, proceeds) => At(w, p).Quoting? && proceeds >= 0
    case ExitFails(p) => At(w, p).Quoting?
    case ReleaseFailed(p) => At(w, p).Failing?
    case Report(p, _, _) => At(w, p).Reporting?
    case Crash(_) => true
    case Env(op) => (op.OpBuy? && op.pid !in w.usedPids) || op.OpReject? || op.OpRpcSkip? || op.OpLifecycle?
  }

  function Next(w: World, s: Step): World
    requires Enabled(w, s)
  {
    match s
    case Read(p, mint, live) =>
      Go(w, w.book, p, Evaluating(mint, w.book.positions[mint].positionId, w.book.positions[mint], live))
    case ReadManual(p, mint) =>
      Go(w, w.book, p, Deciding(mint, w.book.positions[mint].positionId, ManualClose, None))
    case QuoteOk(p, value, now) =>
      var pc := At(w, p);
      var decision :=
        if pc.live then LiveDecision(pc.snapshot, value)
        else if pc.snapshot.remainingCost > 0 then PaperDecision(pc.snapshot, value) else None;
      Go(w, Mark(w.book, pc.mint, pc.pid, value, now), p,
         if decision.None? then Idle else Deciding(pc.mint, pc.pid, decision.value.0, decision.value.1))
    case QuoteBad(p, now, noRoute) =>
      var pc := At(w, p);
      Go(w, if pc.live then w.book else QuoteFailure(w.book, pc.mint, pc.pid, now, noRoute), p, Idle)
    case TakeClaim(p, exit) => Claimed(w, p, exit)
    case Drop(p) =>
      var pc := At(w, p);
      Go(w, Release(w.book, pc.mint, pc.pid, pc.exit, false), p, Idle)
    case Commit(p, proceeds) => Committed(w, p, proceeds)
    case ExitFails(p) =>
      var pc := At(w, p);
      Go(w, w.book, p, Failing(pc.mint, pc.pid, pc.exit, pc.reason))
    case ReleaseFailed(p) =>
      var pc := At(w, p);
      Go(w, Release(w.book, pc.mint, pc.pid, pc.exit, true), p,
         if Live(pc.reason) then Idle else Reporting(pc.mint, pc.pid))
    case Report(p, now, noRoute) =>
      var pc := At(w, p);
      Go(w, QuoteFailure(w.book, pc.mint, pc.pid, now, noRoute), p, Idle)
    case Crash(p) => Go(w, w.book, p, Idle)
    case Env(op) =>
      w.(book := Apply(w.book, op), usedPids := if op.OpBuy? then w.usedPids + {op.pid} else w.usedPids)
  }

  /** `claim_position_exit` and the amount computed from its answer, up to the slow quote. */
  function Claimed(w: World, p: Proc, exit: Id): World
    requires At(w, p).Deciding?
  {
    var pc := At(w, p);
    var (b, claimed) := Claim(w.book, pc.mint, pc.pid, exit);
    var v := w.(usedExits := w.usedExits + {exit});
    if claimed.None? then Go(v, b, p, Idle)
    else
      var amount := ExitAmount(pc.reason, claimed.value);
      var paper := pc.reason != ManualClose && !Live(pc.reason);
      if paper && (amount <= 0 || (pc.detected.Some? && pc.detected.value != amount))
      then Go(v, b, p, Dropping(pc.mint, pc.pid, exit))
      else Go(v, b, p, Quoting(pc.mint, pc.pid, exit, claimed.value, pc.reason, amount))
  }

  /** The sale; only a refused manual close releases and reports, the other callers just move on. */
  function Committed(w: World, p: Proc, proceeds: int): World
    requires At(w, p).Quoting?
  {
    var pc := At(w, p);
    var (b, recorded) := Sell(w.book, pc.mint, pc.amount, proceeds, pc.reason, Some(pc.pid), Some(pc.exit));
    if recorded then
      var held := w.book.positions[pc.mint].amount;
      Go(w.(sales := w.sales + [Sale(pc.exit, pc.pid, pc.reason, pc.claimed, held, pc.amount, Min(pc.amount, held))]),
         b, p, Idle)
    else
      Go(w, b, p, if pc.reason == ManualClose then Failing(pc.mint, pc.pid, pc.exit, pc.reason) else Idle)
  }

  ghost predicate Enables(w: World, steps: seq<Step>)
    decreases |steps|
  {
    steps == [] || (Enabled(w, steps[0]) && Enables(Next(w, steps[0]), steps[1..]))
  }

  function After(w: World, steps: seq<Step>): World
    requires Enables(w, steps)
    decreases |steps|
  {
    if steps == [] then w else After(Next(w, steps[0]), steps[1..])
  }

  // ----- Invariant -----

  function Exit(pc: Pc): Option<Id> {
    if pc.Quoting? || pc.Dropping? || pc.Failing? then Some(pc.exit) else None
  }

  predicate Pending(b: Book, m: Mint, e: Id) {
    m in b.positions && b.positions[m].pendingExit == Some(e)
  }

  ghost predicate IdsOk(w: World) {
    && (forall p :: p in w.procs && Exit(w.procs[p]).Some? ==> Exit(w.procs[p]).value in w.usedExits)
    && (forall p, q :: p in w.procs && q in w.procs && p != q && Exit(w.procs[p]).Some? ==>
          Exit(w.procs[p]) != Exit(w.procs[q]))
    && (forall m, e :: Pending(w.book, m, e) ==> e in w.usedExits)
    && (forall m, n, e :: Pending(w.book, m, e) && Pending(w.book, n, e) ==> m == n)
  }

  /** While a claim is the pending one, the position still holds what the claim returned. */
  ghost predicate ClaimsOk(w: World) {
    forall p, m :: p in w.procs && w.procs[p].Quoting? && Pending(w.book, m, w.procs[p].exit) ==>
      && m == w.procs[p].mint
      && w.book.positions[m].positionId == w.procs[p].pid
      && w.book.positions[m].amount == w.procs[p].claimed
  }

  ghost predicate AmountsOk(w: World) {
    forall p :: p in w.procs && w.procs[p].Quoting? ==>
      w.procs[p].amount == ExitAmount(w.procs[p].reason, w.procs[p].claimed)
  }

  ghost predicate SalesOk(w: World) {
    && (forall i :: 0 <= i < |w.sales| ==> w.sales[i].exit in w.usedExits && SaleOk(w.sales[i]))
    && (forall i, m :: 0 <= i < |w.sales| ==> !Pending(w.book, m, w.sales[i].exit))
    && (forall i, j :: 0 <= i < j < |w.sales| ==> w.sales[i].exit != w.sales[j].exit)
  }

  predicate SaleOk(s: Sale) {
    s.held == s.claimed && s.requested == ExitAmount(s.reason, s.claimed) && s.sold == s.requested > 0
  }

  ghost predicate Inv(w: World) {
    IdsOk(w) && ClaimsOk(w) && AmountsOk(w) && SalesOk(w)
  }

  const Start: World := World(EmptyBook, map[], {}, {}, [])

  /** No mutator but a claim makes an exit id pending, and none changes the amount under a pending id. */
  ghost predicate Shrinks(b: Book, c: Book) {
    forall m, e :: Pending(c, m, e) ==>
      && Pending(b, m, e)
      && c.positions[m].positionId == b.positions[m].positionId
      && c.positions[m].amount == b.positions[m].amount
  }

  lemma EnvShrinks(b: Book, op: Op)
    requires op.OpBuy? || op.OpReject? || op.OpRpcSkip? || op.OpLifecycle?
    ensures Shrinks(b, Apply(b, op))
  {
    if op.OpLifecycle? {
      LifecycleLogKeepsPositions(b, op.mint, op.pid, op.statuses);
    }
  }

  lemma {:induction false} LifecycleLogKeepsPositions(b: Book, mint: Mint, pid: Id, statuses: seq<nat>)
    ensures LogLifecycle(b, mint, pid, statuses).positions == b.positions
  {
    if statuses != [] {
      LifecycleLogKeepsPositions(b, mint, pid, statuses[..|statuses| - 1]);
    }
  }

  lemma SellShrinks(b: Book, mint: Mint, amount: int, proceeds: int, reason: Reason, pid: Option<Id>, exit: Option<Id>)
    ensures Shrinks(b, Sell(b, mint, amount, proceeds, reason, pid, exit).0)
  {
  }

  /** A step that shrinks the pending ids and lets go of at most one process's exit id keeps `Inv`. */
  lemma ShrinkKeepsInv(w: World, b: Book, p: Proc, pc: Pc)
    requires Inv(w) && Shrinks(w.book, b)
    requires Exit(pc).Some? ==> Exit(pc) == Exit(At(w, p))
    requires !pc.Quoting?
    ensures Inv(Go(w, b, p, pc))
  {
  }

  lemma ClaimKeepsInv(w: World, p: Proc, exit: Id)
    requires Inv(w) && At(w, p).Deciding? && exit !in w.usedExits
    ensures Inv(Claimed(w, p, exit))
  {
    hide Inv, IdsOk, ClaimsOk, AmountsOk, SalesOk, Claimed;
    assert IdsOk(w) && ClaimsOk(w) && AmountsOk(w) && SalesOk(w) by {
      InvParts(w);
    }
    ClaimMakesOnePending(w, p, exit);
    ClaimKeepsIds(w, p, exit);
    ClaimKeepsAmounts(w, p, exit);
    InvWhole(Claimed(w, p, exit));
  }

  lemma InvParts(w: World)
    requires Inv(w)
    ensures IdsOk(w) && ClaimsOk(w) && AmountsOk(w) && SalesOk(w)
  {
  }

  lemma InvWhole(w: World)
    requires IdsOk(w) && ClaimsOk(w) && AmountsOk(w) && SalesOk(w)
    ensures Inv(w)
  {
  }

  lemma ClaimMakesOnePending(w: World, p: Proc, exit: Id)
    requires At(w, p).Deciding?
    ensures var v := Claimed(w, p, exit);
            && v.usedExits == w.usedExits + {exit} && v.sales == w.sales
            && (forall m, e :: Pending(v.book, m, e) ==>
                  (e == exit && m == At(w, p).mint) || Pending(w.book, m, e))
            && (forall m, e :: Pending(v.book, m, e) && e != exit ==>
                  && v.book.positions[m].positionId == w.book.positions[m].positionId
                  && v.book.positions[m].amount == w.book.positions[m].amount)
            && v.procs == w.procs[p := v.procs[p]]
            && (Exit(v.procs[p]).Some? ==> Exit(v.procs[p]) == Some(exit))
            && (v.procs[p].Quoting? ==>
                  && Pending(v.book, v.procs[p].mint, exit)
                  && v.book.positions[v.procs[p].mint].positionId == v.procs[p].pid
                  && v.book.positions[v.procs[p].mint].amount == v.procs[p].claimed
                  && v.procs[p].amount == ExitAmount(v.procs[p].reason, v.procs[p].claimed))
  {
  }

  /**
   A granted claim is quoted for what the reason calls for. A paper exit whose amount is nothing, or a stop
   whose amount is not the one it was decided on, gives the claim back instead.
   */
  lemma ClaimLeadsTo(w: World, p: Proc, exit: Id)
    requires At(w, p).Deciding?
    ensures var pc := At(w, p);
            var after := At(Claimed(w, p, exit), p);
            var held := && pc.mint in w.book.positions && w.book.positions[pc.mint].positionId == pc.pid
                        && w.book.positions[pc.mint].riskState != ExitPending;
            var paper := pc.reason !in {ManualClose, LiveStopLoss15, LiveTakeProfit50, LiveTakeProfit100};
            && (!held ==> after == Idle && Claimed(w, p, exit).book == w.book)
            && (held ==>
                  var claimed := w.book.positions[pc.mint].amount;
                  && (after.Dropping? || after.Quoting?) && after.mint == pc.mint && after.pid == pc.pid
                  && after.exit == exit && Pending(Claimed(w, p, exit).book, pc.mint, exit)
                  && (after.Quoting? ==>
                        && after.claimed == claimed && after.reason == pc.reason
                        && (paper ==> after.amount > 0)
                        && (paper && pc.detected.Some? ==> after.amount == pc.detected.value))
                  && (after.Dropping? ==> paper)
                  && (after.Dropping? && pc.detected.None? ==> 80 * claimed < 100 || claimed <= 0))
  {
  }

  lemma ClaimKeepsIds(w: World, p: Proc, exit: Id)
    requires IdsOk(w) && SalesOk(w) && At(w, p).Deciding? && exit !in w.usedExits
    ensures IdsOk(Claimed(w, p, exit)) && SalesOk(Claimed(w, p, exit))
  {
    hide Claimed;
    ClaimMakesOnePending(w, p, exit);
  }

  lemma ClaimKeepsAmounts(w: World, p: Proc, exit: Id)
    requires IdsOk(w) && ClaimsOk(w) && AmountsOk(w) && At(w, p).Deciding? && exit !in w.usedExits
    ensures ClaimsOk(Claimed(w, p, exit)) && AmountsOk(Claimed(w, p, exit))
  {
    hide Claimed, ExitAmount;
    ClaimMakesOnePending(w, p, exit);
  }

  lemma {:induction false} CommitKeepsInv(w: World, p: Proc, proceeds: int)
    requires Inv(w) && At(w, p).Quoting?
    ensures Inv(Committed(w, p, proceeds))
  {
    hide ExitAmount;
    var pc := At(w, p);
    SellShrinks(w.book, pc.mint, pc.amount, proceeds, pc.reason, Some(pc.pid), Some(pc.exit));
    var (b, recorded) := Sell(w.book, pc.mint, pc.amount, proceeds, pc.reason, Some(pc.pid), Some(pc.exit));
    if recorded {
      ShrinkKeepsInv(w, b, p, Idle);
      assert Pending(w.book, pc.mint, pc.exit);
      assert !Pending(b, pc.mint, pc.exit);
      SaleIsExact(pc, w.book.positions[pc.mint].amount);
    } else {
      ShrinkKeepsInv(w, b, p, Committed(w, p, proceeds).procs[p]);
    }
  }

  /** What is asked for never exceeds what the claim returned, so the sale's `min` does not clip. */
  lemma SaleIsExact(pc: Pc, held: int)
    requires pc.Quoting? && held == pc.claimed && pc.amount == ExitAmount(pc.reason, pc.claimed)
    requires held > 0 && pc.amount > 0
    ensures SaleOk(Sale(pc.exit, pc.pid, pc.reason, pc.claimed, held, pc.amount, Min(pc.amount, held)))
  {
  }

  lemma {:induction false} StepKeepsInv(w: World, s: Step)
    requires Inv(w) && Enabled(w, s)
    ensures Inv(Next(w, s))
  {
    hide Inv, Shrinks;
    match s
    case TakeClaim(p, exit) => ClaimKeepsInv(w, p, exit);
    case Commit(p, proceeds) => CommitKeepsInv(w, p, proceeds);
    case Env(op) => EnvKeepsInv(w, op);
    case _ =>
      OtherStepShrinks(w, s);
      ShrinkKeepsInv(w, Next(w, s).book, s.p, Next(w, s).procs[s.p]);
  }

  lemma EnvKeepsInv(w: World, op: Op)
    requires Inv(w) && Enabled(w, Env(op))
    ensures Inv(Next(w, Env(op)))
  {
    hide Apply;
    EnvShrinks(w.book, op);
  }

  lemma {:induction false} OtherStepShrinks(w: World, s: Step)
    requires Enabled(w, s) && !s.TakeClaim? && !s.Commit? && !s.Env?
    ensures Shrinks(w.book, Next(w, s).book)
    ensures s.p in Next(w, s).procs && Next(w, s) == Go(w, Next(w, s).book, s.p, Next(w, s).procs[s.p])
    ensures var pc := Next(w, s).procs[s.p];
            !pc.Quoting? && (Exit(pc).Some? ==> Exit(pc) == Exit(At(w, s.p)))
  {
    hide PaperDecision, LiveDecision;
  }

  // ----- Safety over whole runs -----

  lemma {:induction false} RunKeepsInv(w: World, steps: seq<Step>)
    requires Inv(w) && Enables(w, steps)
    ensures Inv(After(w, steps))
    decreases |steps|
  {
    if steps != [] {
      StepKeepsInv(w, steps[0]);
      RunKeepsInv(Next(w, steps[0]), steps[1..]);
    }
  }

  /**
   In every interleaving, an exit id commits at most one sale of what its own claim returned, with no clipping
   by `min`: everything for a stop or a manual close, half for a live take-profit and 80% for a paper one,
   each rounded down to whole units.
   */
  lemma EachClaimSellsAtMostOnce(steps: seq<Step>)
    requires Enables(Start, steps)
    ensures var sales := After(Start, steps).sales;
            && (forall i, j :: 0 <= i < j < |sales| ==> sales[i].exit != sales[j].exit)
            && (forall i :: 0 <= i < |sales| ==>
                  && 0 < sales[i].sold == sales[i].requested && sales[i].held == sales[i].claimed
                  && var claimed, sold := sales[i].claimed, sales[i].sold;
                     match sales[i].reason
                     case StopLoss15 | RouteBStopLoss10 | TpBreakEven | PostTpTrailingStop50 => sold == claimed
                     case ManualClose | LiveStopLoss15 => sold == claimed
                     case LiveTakeProfit50 | LiveTakeProfit100 => 2 * sold <= claimed < 2 * sold + 2
                     case TakeProfit50 | TakeProfit100 | RouteBTakeProfit30 | TakeProfit30Sell80 =>
                       100 * sold <= 80 * claimed < 100 * sold + 100)
  {
    RunKeepsInv(Start, steps);
  }

  /** An issued exit id that is not pending: overwritten, released, sold, or of a position that is gone. */
  ghost predicate Dead(w: World, e: Id) {
    e in w.usedExits && forall m :: !Pending(w.book, m, e)
  }

  lemma StepKeepsDead(w: World, s: Step, e: Id)
    requires Dead(w, e) && Enabled(w, s)
    ensures Dead(Next(w, s), e)
  {
    hide Shrinks, Claimed, Apply;
    match s
    case TakeClaim(p, exit) => ClaimMakesOnePending(w, p, exit);
    case Commit(p, proceeds) => CommitShrinks(w, p, proceeds);
      ShrinkKeepsDead(w, Next(w, s), e);
    case Env(op) => EnvShrinks(w.book, op);
      ShrinkKeepsDead(w, Next(w, s), e);
    case _ => OtherStepShrinks(w, s);
      ShrinkKeepsDead(w, Next(w, s), e);
  }

  lemma CommitShrinks(w: World, p: Proc, proceeds: int)
    requires At(w, p).Quoting?
    ensures Shrinks(w.book, Committed(w, p, proceeds).book)
    ensures Committed(w, p, proceeds).usedExits == w.usedExits
  {
    var pc := At(w, p);
    SellShrinks(w.book, pc.mint, pc.amount, proceeds, pc.reason, Some(pc.pid), Some(pc.exit));
  }

  lemma ShrinkKeepsDead(w: World, v: World, e: Id)
    requires Dead(w, e) && Shrinks(w.book, v.book) && v.usedExits == w.usedExits
    ensures Dead(v, e)
  {
  }

  /** Once overwritten, or once its mint was sold and bought again, a claim can never sell anything. */
  lemma {:induction false} DeadClaimNeverSells(w: World, steps: seq<Step>, e: Id)
    requires Dead(w, e) && Enables(w, steps)
    ensures var v := After(w, steps);
            && Dead(v, e)
            && (forall mint, amount, proceeds, reason, pid ::
                  Sell(v.book, mint, amount, proceeds, reason, pid, Some(e)) == (v.book, false))
    decreases |steps|
  {
    if steps != [] {
      StepKeepsDead(w, steps[0], e);
      DeadClaimNeverSells(Next(w, steps[0]), steps[1..], e);
    } else {
      forall mint, amount, proceeds, reason, pid
        ensures Sell(w.book, mint, amount, proceeds, reason, pid, Some(e)) == (w.book, false)
      {
        assert !Pending(w.book, mint, e);
      }
    }
  }

  /** A claim either stays pending on the position it was taken on, or is dead from then on. */
  lemma {:induction false} ClaimEndsForGood(w: World, steps: seq<Step>, m: Mint, e: Id)
    requires Inv(w) && Pending(w.book, m, e) && Enables(w, steps)
    ensures var v := After(w, steps);
            (Pending(v.book, m, e) && v.book.positions[m].positionId == w.book.positions[m].positionId) || Dead(v, e)
    decreases |steps|
  {
    if steps != [] {
      var v := Next(w, steps[0]);
      StepKeepsInv(w, steps[0]);
      PendingOrDead(w, steps[0], m, e);
      if Dead(v, e) {
        DeadClaimNeverSells(v, steps[1..], e);
      } else {
        ClaimEndsForGood(v, steps[1..], m, e);
      }
    }
  }

  lemma PendingOrDead(w: World, s: Step, m: Mint, e: Id)
    requires Inv(w) && Pending(w.book, m, e) && Enabled(w, s)
    ensures var v := Next(w, s);
            (Pending(v.book, m, e) && v.book.positions[m].positionId == w.book.positions[m].positionId) || Dead(v, e)
  {
    hide Claimed, Apply, Committed;
    match s
    case TakeClaim(p, exit) => ClaimMakesOnePending(w, p, exit);
    case Commit(p, proceeds) => CommitShrinks(w, p, proceeds);
    case Env(op) => EnvShrinks(w.book, op);
    case _ => OtherStepShrinks(w, s);
  }

  /**
   A claim whose position shows another pending exit, was bought again under another id, or is gone, can
   never sell anything, whatever led there and whatever comes after.
   */
  lemma LostClaimNeverSells(before: seq<Step>, between: seq<Step>, after: seq<Step>, m: Mint, e: Id)
    requires Enables(Start, before) && Pending(After(Start, before).book, m, e)
    requires Enables(After(Start, before), between)
    requires var w := After(Start, before);
      var v := After(w, between);
      m !in v.book.positions || v.book.positions[m].pendingExit != Some(e)
      || v.book.positions[m].positionId != w.book.positions[m].positionId
    requires Enables(After(After(Start, before), between), after)
    ensures var v := After(After(After(Start, before), between), after);
            forall mint, amount, proceeds, reason, pid ::
              Sell(v.book, mint, amount, proceeds, reason, pid, Some(e)) == (v.book, false)
  {
    RunKeepsInv(Start, before);
    ClaimEndsForGood(After(Start, before), between, m, e);
    DeadClaimNeverSells(After(After(Start, before), between), after, e);
  }

  /**
   A holder's sale goes through exactly while its own exit id is the pending one of its own position and
   there is something to sell. A refused one changes nothing in the ledger, a claim still pending included.
   */
  lemma CommitSucceedsExactlyWhenPending(w: World, p: Proc, proceeds: int)
    requires Inv(w) && At(w, p).Quoting? && proceeds >= 0
    ensures var pc := At(w, p);
            var v := Next(w, Commit(p, proceeds));
            && (|v.sales| > |w.sales| <==> Pending(w.book, pc.mint, pc.exit) && pc.amount > 0)
            && (|v.sales| == |w.sales| ==>
                  && v.book == w.book && v.sales == w.sales
                  && At(v, p) == if pc.reason == ManualClose then Failing(pc.mint, pc.pid, pc.exit, pc.reason)
                                 else Idle)
  {
  }
}
