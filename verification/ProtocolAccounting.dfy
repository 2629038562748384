/**
 Every interleaving of the exit protocol is a legal run of ledger mutators, so all accounting
 invariants hold in every reachable world, whatever fails or crashes in between.
 */
module ProtocolAccounting {
  import opened Wrappers
  import opened PaperLedger
  import opened TradeReplay
  import opened LedgerAccounting
  import opened ExitProtocol

  /** The one mutator a protocol step runs, if any. */
  function OpOf(w: World, s: Step): Option<Op>
    requires Enabled(w, s)
  {
    match s
    case QuoteOk(p, value, now) => Some(OpMark(At(w, p).mint, At(w, p).pid, value, now))
    case QuoteBad(p, now, noRoute) =>
      if At(w, p).live then None else Some(OpQuoteFailure(At(w, p).mint, At(w, p).pid, now, noRoute))
    case TakeClaim(p, exit) => Some(OpClaim(At(w, p).mint, At(w, p).pid, exit))
    case Drop(p) => Some(OpRelease(At(w, p).mint, At(w, p).pid, At(w, p).exit, false))
    case ReleaseFailed(p) => Some(OpRelease(At(w, p).mint, At(w, p).pid, At(w, p).exit, true))
    case Report(p, now, noRoute) => Some(OpQuoteFailure(At(w, p).mint, At(w, p).pid, now, noRoute))
    case Commit(p, proceeds) =>
      var pc := At(w, p);
      Some(OpSell(pc.mint, pc.amount, proceeds, pc.reason, Some(pc.pid), Some(pc.exit)))
    case Env(op) => Some(op)
    case _ => None
  }

  lemma StepRunsOneOp(w: World, s: Step)
    requires Enabled(w, s)
    ensures Next(w, s).book == if OpOf(w, s).None? then w.book else Apply(w.book, OpOf(w, s).value)
    ensures Next(w, s).usedPids == if s.Env? && s.op.OpBuy? then w.usedPids + {s.op.pid} else w.usedPids
  {
    hide PaperDecision, LiveDecision, ExitAmount, Mark, QuoteFailure, Release, Claim, Sell;
  }

  ghost predicate IdsCovered(w: World) {
    forall i :: 0 <= i < |Replay(w.book.history).groups| ==>
      Replay(w.book.history).groups[i].positionId in w.usedPids
  }

  lemma StepKeepsAccounting(w: World, s: Step)
    requires Valid(w.book) && IdsCovered(w) && Enabled(w, s)
    ensures Valid(Next(w, s).book) && IdsCovered(Next(w, s))
  {
    hide Valid, Next, Apply, Replay;
    StepRunsOneOp(w, s);
    if OpOf(w, s).Some? {
      var op := OpOf(w, s).value;
      StepKeepsValid(w.book, op);
      OnlyBuysAddIds(w.book, op);
    }
  }

  lemma OnlyBuysAddIds(b: Book, op: Op)
    ensures var c := Apply(b, op);
            forall i :: 0 <= i < |Replay(c.history).groups| ==>
              (op.OpBuy? && Replay(c.history).groups[i].positionId == op.pid)
              || (i < |Replay(b.history).groups|
                  && Replay(c.history).groups[i].positionId == Replay(b.history).groups[i].positionId)
  {
    hide Replay, Apply;
    if op.OpLifecycle? {
      LifecycleAppliesLog(b, op);
      LifecycleKeepsReplay(b, op.mint, op.pid, op.statuses);
    } else {
      AtMostOneEvent(b, op);
      var c := Apply(b, op);
      if |c.history| > |b.history| {
        ReplayAppend(b.history, c.history[|b.history|]);
      }
    }
  }

  /** Cash, break-even bounds, numbering and replay agreement survive every interleaving. */
  lemma {:induction false} InterleavingsKeepAccounting(w: World, steps: seq<Step>)
    requires Valid(w.book) && IdsCovered(w) && Enables(w, steps)
    ensures Valid(After(w, steps).book)
    decreases |steps|
  {
    if steps != [] {
      StepKeepsAccounting(w, steps[0]);
      InterleavingsKeepAccounting(Next(w, steps[0]), steps[1..]);
    }
  }

  /** From the empty ledger, with no assumption left but the protocol itself. */
  lemma ReachableWorldsBalance(steps: seq<Step>)
    requires Enables(Start, steps)
    ensures var b := After(Start, steps).book;
            && b.cash >= 0
            && b.cash + OpenCost(b.positions) == INITIAL_PAPER_LAMPORTS + BookedPnl(b.history)
            && Tracks(b.positions, Replay(b.history)) && ClampFree(b.history)
  {
    hide Tracks, ClampFree, Replay, LogOk, Enables, After;
    EmptyBookIsValid();
    assert IdsCovered(Start) by {
      ReplayOfNothing();
    }
    InterleavingsKeepAccounting(Start, steps);
  }

  lemma ReplayOfNothing()
    ensures Replay([]) == Dash([], map[])
  {
  }
}
