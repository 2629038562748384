/**
 Why a sale happened (src/risk_manager.py): in every interleaving a sale is a manual close, or the decision
 that a quote called for on the position as its process had read it, and a stop sells what it was quoted.
 */
module ExitDecisions {
  import opened Wrappers
  import opened PaperLedger
  import opened LedgerAccounting
  import opened ExitProtocol
  import opened ProtocolAccounting

  /** A position as it was read, with the value quoted for all of it, calls for this exit. */
  predicate CallsFor(snapshot: Position, live: bool, value: int, reason: Reason, detected: Option<int>) {
    if live then LiveDecision(snapshot, value) == Some((reason, detected))
    else snapshot.remainingCost > 0 && PaperDecision(snapshot, value) == Some((reason, detected))
  }

  ghost predicate Justified(pid: Id, reason: Reason, detected: Option<int>) {
    || (reason == ManualClose && detected == None)
    || exists snapshot: Position, live: bool, value: int ::
         && snapshot.positionId == pid && snapshot.remainingCost >= 0
         && CallsFor(snapshot, live, value, reason, detected)
  }

  /** An amount asked for on a justified exit; a detected amount is what was asked for. */
  ghost predicate Backed(pid: Id, reason: Reason, amount: int) {
    exists detected: Option<int> ::
      Justified(pid, reason, detected) && (detected.Some? && !Live(reason) ==> amount == detected.value)
  }

  ghost predicate PcBacked(pc: Pc) {
    match pc
    case Evaluating(_, pid, snapshot, _) => snapshot.positionId == pid && snapshot.remainingCost >= 0
    case Deciding(_, pid, reason, detected) => Justified(pid, reason, detected)
    case Quoting(_, pid, _, _, reason, amount) => Backed(pid, reason, amount)
    case _ => true
  }

  ghost predicate AllBacked(w: World) {
    && (forall p :: p in w.procs ==> PcBacked(w.procs[p]))
    && forall i :: 0 <= i < |w.sales| ==> Backed(w.sales[i].pid, w.sales[i].reason, w.sales[i].requested)
  }

  /** The step of one process: it goes on backed, and what it sells, if anything, is backed. */
  lemma OneGoesOn(w: World, v: World, p: Proc)
    requires AllBacked(w) && p in v.procs && PcBacked(v.procs[p])
    requires forall q :: q in v.procs && q != p ==> q in w.procs && v.procs[q] == w.procs[q]
    requires v.sales == w.sales
             || (|v.sales| == |w.sales| + 1 && v.sales[..|w.sales|] == w.sales
                 && var s := v.sales[|w.sales|]; Backed(s.pid, s.reason, s.requested))
    ensures AllBacked(v)
  {
    hide PcBacked, Backed;
    forall i | 0 <= i < |v.sales|
      ensures Backed(v.sales[i].pid, v.sales[i].reason, v.sales[i].requested)
    {
      if i < |w.sales| {
        assert v.sales[i] == w.sales[i];
      }
    }
  }

  lemma QuoteDecides(w: World, p: Proc, value: int, now: real)
    requires Enabled(w, QuoteOk(p, value, now)) && PcBacked(At(w, p))
    ensures PcBacked(Next(w, QuoteOk(p, value, now)).procs[p])
  {
    var pc := At(w, p);
    var after := Next(w, QuoteOk(p, value, now)).procs[p];
    hide PaperDecision, LiveDecision, Mark;
    if after.Deciding? {
      assert CallsFor(pc.snapshot, pc.live, value, after.reason, after.detected);
    }
  }

  lemma ClaimIsBacked(w: World, p: Proc, exit: Id)
    requires At(w, p).Deciding? && PcBacked(At(w, p))
    ensures PcBacked(Claimed(w, p, exit).procs[p])
  {
    hide Justified, Claim, ExitAmount;
    var pc := At(w, p);
    var after := Claimed(w, p, exit).procs[p];
    if after.Quoting? {
      assert Justified(pc.pid, pc.reason, pc.detected);
      if pc.reason == ManualClose && pc.detected.Some? {
        ManualIsPlain(pc.pid, pc.detected);
      }
      assert Backed(after.pid, after.reason, after.amount);
    }
  }

  /** No quote ever calls for a manual close. */
  lemma ManualIsPlain(pid: Id, detected: Option<int>)
    requires Justified(pid, ManualClose, detected)
    ensures detected == None
  {
  }

  lemma CommitIsBacked(w: World, p: Proc, proceeds: int)
    requires AllBacked(w) && At(w, p).Quoting?
    ensures AllBacked(Committed(w, p, proceeds))
  {
    hide Backed, Sell;
    var pc := At(w, p);
    assert PcBacked(pc);
    OneGoesOn(w, Committed(w, p, proceeds), p);
  }

  ghost predicate NoDebt(b: Book) {
    forall m :: m in b.positions ==> b.positions[m].remainingCost >= 0
  }

  lemma ValidHasNoDebt(b: Book)
    requires Valid(b)
    ensures NoDebt(b)
  {
    hide LogOk, CashOk, ClampFree, Sandwich, Matches;
  }

  lemma {:induction false} StepIsBacked(w: World, s: Step)
    requires AllBacked(w) && NoDebt(w.book) && Enabled(w, s)
    ensures AllBacked(Next(w, s))
  {
    match s
    case QuoteOk(p, value, now) =>
      QuoteDecides(w, p, value, now);
      hide PcBacked, Backed, PaperDecision, LiveDecision, Mark;
      OneGoesOn(w, Next(w, s), p);
    case TakeClaim(p, exit) =>
      ClaimIsBacked(w, p, exit);
      hide PcBacked, Backed, Claim, ExitAmount;
      OneGoesOn(w, Next(w, s), p);
    case Commit(p, proceeds) => CommitIsBacked(w, p, proceeds);
    case Env(op) =>
    case _ =>
      hide Backed, Release, QuoteFailure;
      OneGoesOn(w, Next(w, s), s.p);
  }

  lemma {:induction false} RunIsBacked(w: World, steps: seq<Step>)
    requires Valid(w.book) && IdsCovered(w) && AllBacked(w) && Enables(w, steps)
    ensures AllBacked(After(w, steps))
    decreases |steps|
  {
    if steps != [] {
      hide Valid, IdsCovered, NoDebt, AllBacked, Next;
      ValidHasNoDebt(w.book);
      StepIsBacked(w, steps[0]);
      StepKeepsAccounting(w, steps[0]);
      RunIsBacked(Next(w, steps[0]), steps[1..]);
    }
  }

  /**
   In every interleaving each sale was asked for by hand, or called for by a quote of the position as it was
   read, at the bound and with the flags its reason stands for; a paper stop sells exactly what was quoted.
   */
  lemma {:induction false} EverySaleWasCalledFor(steps: seq<Step>, i: nat)
    requires Enables(Start, steps) && i < |After(Start, steps).sales|
    ensures var s := After(Start, steps).sales[i];
            s.reason == ManualClose
            || exists p: Position, value: int :: Grounds(p, value, s)
  {
    EmptyBookIsValid();
    ReplayOfNothing();
    RunIsBacked(Start, steps);
    EachClaimSellsAtMostOnce(steps);
    hide Enables, After, Valid, IdsCovered;
    var s := After(Start, steps).sales[i];
    if s.reason != ManualClose {
      var detected :| Justified(s.pid, s.reason, detected)
                      && (detected.Some? && !Live(s.reason) ==> s.requested == detected.value);
      var p: Position, live: bool, value: int :|
        p.positionId == s.pid && p.remainingCost >= 0 && CallsFor(p, live, value, s.reason, detected);
      CallsForMeans(p, live, value, s, detected);
    }
  }

  /** The position as read, and the value quoted for all of it, that the reason of a sale stands for. */
  predicate Grounds(p: Position, value: int, s: Sale) {
    && p.positionId == s.pid
    && match s.reason
       case StopLoss15 =>
         !p.takeProfitDone && !p.routeB && value * 100 <= p.remainingCost * 85 && s.sold == p.amount
       case RouteBStopLoss10 =>
         !p.takeProfitDone && p.routeB && value * 100 <= p.remainingCost * 90 && s.sold == p.amount
       case PostTpTrailingStop50 =>
         p.takeProfitDone && 0 < p.postTpPeak && 2 * value <= p.postTpPeak && s.sold == p.amount
       case TakeProfit30Sell80 => !p.takeProfitDone && value * 10 >= p.remainingCost * 13
       case LiveStopLoss15 => value * 100 <= p.remainingCost * 85
       case LiveTakeProfit50 => !p.takeProfitDone && value * 10 >= p.remainingCost * 13
       case LiveTakeProfit100 =>
         p.takeProfitDone && !p.secondTakeProfitDone && value >= p.remainingCost * 2
       case _ => false
  }

  lemma CallsForMeans(p: Position, live: bool, value: int, s: Sale, detected: Option<int>)
    requires p.positionId == s.pid && p.remainingCost >= 0
    requires CallsFor(p, live, value, s.reason, detected) && s.sold == s.requested
    requires detected.Some? && !Live(s.reason) ==> s.requested == detected.value
    ensures s.reason != ManualClose && Grounds(p, value, s)
  {
    if live {
      LiveDecisionExactlyWhen(p, value);
    } else {
      PaperDecisionExactlyWhen(p, value);
    }
    hide LiveDecision, PaperDecision;
  }
}
