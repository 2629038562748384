/**
 What becomes of an exit claim nobody finishes: which processes can still release it, sell it or
 overwrite the state that protects it, and when a second claim can replace the first. Everything here
 holds in every world, reachable or not.
 */
module ExitClaims {
  import opened Wrappers
  import opened PaperLedger
  import opened ExitProtocol

  /** The claim as `claim_position_exit` leaves it: the exit id is pending and the state keeps others out. */
  predicate Locked(b: Book, m: Mint, e: Id) {
    Pending(b, m, e) && b.positions[m].riskState == ExitPending
  }

  /** A position whose id, amount, cost, risk state and pending claim are as they were. */
  predicate Frozen(b: Book, c: Book, m: Mint) {
    && m in b.positions && m in c.positions
    && c.positions[m].positionId == b.positions[m].positionId
    && c.positions[m].amount == b.positions[m].amount
    && c.positions[m].remainingCost == b.positions[m].remainingCost
    && c.positions[m].riskState == b.positions[m].riskState
    && c.positions[m].pendingExit == b.positions[m].pendingExit
  }

  predicate HoldsClaim(pc: Pc, m: Mint, pid: Id, e: Id) {
    Exit(pc) == Some(e) && pc.mint == m && pc.pid == pid
  }

  /** On its way to `record_quote_failure` for this position, and not as the holder of claim `e`. */
  predicate MayReport(pc: Pc, m: Mint, pid: Id, e: Id) {
    match pc
    case Evaluating(n, q, _, live) => n == m && q == pid && !live
    case Quoting(n, q, x, _, reason, _) => n == m && q == pid && x != e && !Live(reason)
    case Failing(n, q, x, reason) => n == m && q == pid && x != e && !Live(reason)
    case Reporting(n, q) => n == m && q == pid
    case _ => false
  }

  predicate CanAct(pc: Pc, m: Mint, pid: Id, e: Id) {
    HoldsClaim(pc, m, pid, e) || MayReport(pc, m, pid, e)
  }

  predicate Unattended(w: World, m: Mint, e: Id)
    requires Pending(w.book, m, e)
  {
    forall p :: p in w.procs ==> !CanAct(w.procs[p], m, w.book.positions[m].positionId, e)
  }

  predicate NobodyReports(w: World, m: Mint, e: Id)
    requires Pending(w.book, m, e)
  {
    forall p :: p in w.procs ==> !MayReport(w.procs[p], m, w.book.positions[m].positionId, e)
  }

  // ----- Runs, one step at a time -----

  ghost predicate PendingThroughout(w: World, steps: seq<Step>, m: Mint, e: Id)
    requires Enables(w, steps)
    decreases |steps|
  {
    Pending(w.book, m, e) && (steps == [] || PendingThroughout(Next(w, steps[0]), steps[1..], m, e))
  }

  lemma RunPrepend(w: World, s: Step, steps: seq<Step>, m: Mint, e: Id)
    requires Enabled(w, s) && Enables(Next(w, s), steps)
    ensures Enables(w, [s] + steps) && After(w, [s] + steps) == After(Next(w, s), steps)
    ensures Pending(w.book, m, e) && PendingThroughout(Next(w, s), steps, m, e)
            ==> PendingThroughout(w, [s] + steps, m, e)
  {
    assert ([s] + steps)[1..] == steps;
  }

  // ----- A claim nobody can act on -----

  /** A step moves one process, and an environment step none. */
  lemma {:induction false} StepMovesOne(w: World, s: Step)
    requires Enabled(w, s)
    ensures s.Env? ==> Next(w, s).procs == w.procs
    ensures !s.Env? ==> s.p in Next(w, s).procs && Next(w, s).procs == w.procs[s.p := Next(w, s).procs[s.p]]
  {
    hide PaperDecision, LiveDecision, ExitAmount, Claim, Sell, Mark, Release, QuoteFailure, Apply;
  }

  lemma {:induction false} EnvFreezes(w: World, s: Step, m: Mint)
    requires Enabled(w, s) && s.Env? && m in w.book.positions
    ensures Frozen(w.book, Next(w, s).book, m)
  {
    if s.op.OpLifecycle? {
      LifecycleLogKeepsPositions(w.book, s.op.mint, s.op.pid, s.op.statuses);
    }
  }

  lemma {:induction false} OutsiderFreezes(w: World, s: Step, m: Mint, e: Id)
    requires Locked(w.book, m, e) && Enabled(w, s) && !s.Env?
    requires !CanAct(At(w, s.p), m, w.book.positions[m].positionId, e)
    ensures Frozen(w.book, Next(w, s).book, m)
  {
    hide PaperDecision, LiveDecision, ExitAmount;
  }

  lemma {:induction false} OutsiderStaysOut(w: World, s: Step, m: Mint, e: Id)
    requires Locked(w.book, m, e) && Enabled(w, s) && !s.Env?
    requires !CanAct(At(w, s.p), m, w.book.positions[m].positionId, e)
    ensures s.p in Next(w, s).procs && !CanAct(Next(w, s).procs[s.p], m, w.book.positions[m].positionId, e)
  {
    hide PaperDecision, LiveDecision, ExitAmount, Sell, Mark, Release, QuoteFailure, Apply;
  }

  lemma {:induction false} StepKeepsUnattended(w: World, s: Step, m: Mint, e: Id)
    requires Locked(w.book, m, e) && Unattended(w, m, e) && Enabled(w, s)
    ensures Frozen(w.book, Next(w, s).book, m) && Unattended(Next(w, s), m, e)
  {
    StepMovesOne(w, s);
    if s.Env? {
      EnvFreezes(w, s, m);
    } else {
      OutsiderFreezes(w, s, m, e);
      OutsiderStaysOut(w, s, m, e);
    }
    hide Next, Enabled, CanAct;
  }

  lemma {:induction false} UnattendedStaysFrozen(w: World, steps: seq<Step>, m: Mint, e: Id)
    requires Locked(w.book, m, e) && Unattended(w, m, e) && Enables(w, steps)
    ensures Frozen(w.book, After(w, steps).book, m)
    decreases |steps|
  {
    if steps != [] {
      StepKeepsUnattended(w, steps[0], m, e);
      UnattendedStaysFrozen(Next(w, steps[0]), steps[1..], m, e);
    }
  }

  /** The holder can always give up; every other process that can act can report a quote 10 seconds late. */
  lemma ActorUnfreezes(w: World, p: Proc, m: Mint, e: Id) returns (steps: seq<Step>)
    requires Locked(w.book, m, e) && p in w.procs && CanAct(w.procs[p], m, w.book.positions[m].positionId, e)
    ensures Enables(w, steps) && !Frozen(w.book, After(w, steps).book, m)
  {
    hide Frozen;
    var pc := w.procs[p];
    if HoldsClaim(pc, m, w.book.positions[m].positionId, e) {
      steps := HolderReleases(w, p, m, e);
    } else {
      steps := ReporterOverwrites(w, p, m, e);
    }
    assert !Frozen(w.book, After(w, steps).book, m) by {
      FrozenKeepsLock(w.book, After(w, steps).book, m, e);
    }
  }

  lemma FrozenKeepsLock(b: Book, c: Book, m: Mint, e: Id)
    requires Locked(b, m, e)
    ensures Frozen(b, c, m) ==> Locked(c, m, e)
  {
  }

  lemma HolderReleases(w: World, p: Proc, m: Mint, e: Id) returns (steps: seq<Step>)
    requires Locked(w.book, m, e) && p in w.procs && HoldsClaim(w.procs[p], m, w.book.positions[m].positionId, e)
    ensures Enables(w, steps) && !Pending(After(w, steps).book, m, e)
  {
    var last := if w.procs[p].Dropping? then Drop(p) else ReleaseFailed(p);
    if w.procs[p].Quoting? {
      var v := Next(w, ExitFails(p));
      steps := [last];
      RunPrepend(v, last, [], m, e);
      RunPrepend(w, ExitFails(p), [last], m, e);
      steps := [ExitFails(p)] + [last];
    } else {
      RunPrepend(w, last, [], m, e);
      steps := [last] + [];
    }
  }

  lemma ReporterOverwrites(w: World, p: Proc, m: Mint, e: Id) returns (steps: seq<Step>)
    requires Locked(w.book, m, e) && p in w.procs && MayReport(w.procs[p], m, w.book.positions[m].positionId, e)
    ensures Enables(w, steps) && PendingThroughout(w, steps, m, e)
    ensures var v := After(w, steps);
            && Pending(v.book, m, e) && v.book.positions[m].riskState == Degraded
            && v.book.positions[m].positionId == w.book.positions[m].positionId
    decreases w.procs[p].Quoting?
  {
    var pc := w.procs[p];
    var late := w.book.positions[m].lastQuoteSuccess + DEGRADED_QUOTE_GAP_SECONDS;
    match pc
    case Evaluating(_, _, _, _) =>
      RunPrepend(w, QuoteBad(p, late, false), [], m, e);
      steps := [QuoteBad(p, late, false)] + [];
    case Reporting(_, _) =>
      RunPrepend(w, Report(p, late, false), [], m, e);
      steps := [Report(p, late, false)] + [];
    case Failing(_, _, _, _) =>
      var v := Next(w, ReleaseFailed(p));
      RunPrepend(v, Report(p, late, false), [], m, e);
      RunPrepend(w, ReleaseFailed(p), [Report(p, late, false)] + [], m, e);
      steps := [ReleaseFailed(p)] + ([Report(p, late, false)] + []);
    case Quoting(_, _, _, _, _, _) =>
      var u := Next(w, ExitFails(p));
      var rest := ReporterOverwrites(u, p, m, e);
      RunPrepend(w, ExitFails(p), rest, m, e);
      steps := [ExitFails(p)] + rest;
  }

  /**
   A claimed position is stuck for ever, in every continuation, exactly when no process is left that
   holds the claim or is about to report a failed quote of this position.
   */
  lemma StuckForeverExactlyWhen(w: World, m: Mint, e: Id)
    requires Locked(w.book, m, e)
    ensures (forall steps :: Enables(w, steps) ==> Frozen(w.book, After(w, steps).book, m))
            <==> Unattended(w, m, e)
  {
    if Unattended(w, m, e) {
      forall steps | Enables(w, steps)
        ensures Frozen(w.book, After(w, steps).book, m)
      {
        UnattendedStaysFrozen(w, steps, m, e);
      }
    } else {
      var p :| p in w.procs && CanAct(w.procs[p], m, w.book.positions[m].positionId, e);
      var steps := ActorUnfreezes(w, p, m, e);
    }
  }

  /** A process that dies leaves the position stuck for ever exactly when no other one can act on the claim. */
  lemma CrashLeavesClaimStuckExactlyWhen(w: World, p: Proc, m: Mint, e: Id)
    requires Locked(w.book, m, e)
    ensures var v := Next(w, Crash(p));
            (forall steps :: Enables(v, steps) ==> Frozen(v.book, After(v, steps).book, m))
            <==> forall q :: q in w.procs && q != p ==> !CanAct(w.procs[q], m, w.book.positions[m].positionId, e)
  {
    var v := Next(w, Crash(p));
    StuckForeverExactlyWhen(v, m, e);
    assert forall q :: q in w.procs && q != p ==> q in v.procs && v.procs[q] == w.procs[q];
  }

  /**
   Half of a live position of one unit is nothing: the sale is refused, its answer is ignored, and what is
   left is the same as after a crash of the holder.
   */
  lemma EmptyHalfExitIsACrash(w: World, p: Proc, proceeds: int)
    requires Inv(w) && At(w, p).Quoting? && proceeds >= 0 && At(w, p).claimed == 1
    requires At(w, p).reason == LiveTakeProfit50 || At(w, p).reason == LiveTakeProfit100
    ensures Next(w, Commit(p, proceeds)) == Next(w, Crash(p))
  {
  }

  // ----- A claim whose state is overwritten -----

  predicate Stale(p: Position, now: real) {
    p.quoteFailures + 1 >= QUOTE_FAILURE_WARNING_COUNT || now - p.lastQuoteSuccess >= DEGRADED_QUOTE_GAP_SECONDS
  }

  /** `record_quote_failure` on this position, by a paper evaluation or after a failed exit, often or late enough. */
  predicate LateReport(w: World, s: Step, m: Mint) {
    && ((s.QuoteBad? && At(w, s.p).Evaluating? && !At(w, s.p).live) || (s.Report? && At(w, s.p).Reporting?))
    && At(w, s.p).mint == m && Holds(w.book, m, At(w, s.p).pid)
    && Stale(w.book.positions[m], s.now)
  }

  /** A pending claim loses its `EXIT_PENDING` by late quote failures, and by nothing else. */
  lemma {:induction false} StateLeavesClaimExactlyWhen(w: World, s: Step, m: Mint, e: Id)
    requires Locked(w.book, m, e) && Enabled(w, s)
    ensures Pending(Next(w, s).book, m, e) && !Locked(Next(w, s).book, m, e) <==> LateReport(w, s, m)
  {
    hide PaperDecision, LiveDecision, ExitAmount;
    if s.Env? && s.op.OpLifecycle? {
      LifecycleLogKeepsPositions(w.book, s.op.mint, s.op.pid, s.op.statuses);
    }
  }

  /**
   While one claim is pending, another one is granted exactly when the state was overwritten; it replaces
   the first.
   */
  lemma SecondClaimExactlyWhen(w: World, p: Proc, exit: Id, m: Mint, e: Id)
    requires Pending(w.book, m, e) && Enabled(w, TakeClaim(p, exit)) && e != exit
    ensures var v := Next(w, TakeClaim(p, exit));
            && (Pending(v.book, m, exit) <==>
                  At(w, p).mint == m && Holds(w.book, m, At(w, p).pid) && !Locked(w.book, m, e))
            && (Pending(v.book, m, exit) <==> !Pending(v.book, m, e))
  {
  }

  /** The claim is pending through the whole run, up to a last step that makes another one pending instead. */
  ghost predicate Replaces(w: World, steps: seq<Step>, m: Mint, e: Id)
    decreases |steps|
  {
    && steps != [] && Enabled(w, steps[0]) && Pending(w.book, m, e)
    && if |steps| == 1 then exists x :: x != e && Pending(Next(w, steps[0]).book, m, x)
       else Replaces(Next(w, steps[0]), steps[1..], m, e)
  }

  /** A process that is not about to report leaves the claim alone, gives it up or sells under it. */
  lemma {:induction false} NoReportNoLoss(w: World, s: Step, m: Mint, e: Id)
    requires Locked(w.book, m, e) && Enabled(w, s) && !s.Env?
    requires !MayReport(At(w, s.p), m, w.book.positions[m].positionId, e)
    ensures Pending(Next(w, s).book, m, e) ==> Frozen(w.book, Next(w, s).book, m)
    ensures forall x :: x != e ==> !Pending(Next(w, s).book, m, x)
  {
    hide PaperDecision, LiveDecision, ExitAmount;
  }

  lemma {:induction false} NoReportStaysQuiet(w: World, s: Step, m: Mint, e: Id)
    requires Locked(w.book, m, e) && Enabled(w, s) && !s.Env?
    requires !MayReport(At(w, s.p), m, w.book.positions[m].positionId, e)
    requires Pending(Next(w, s).book, m, e)
    ensures s.p in Next(w, s).procs && !MayReport(Next(w, s).procs[s.p], m, w.book.positions[m].positionId, e)
  {
    hide PaperDecision, LiveDecision, ExitAmount, Mark, QuoteFailure, Apply;
  }

  lemma {:induction false} StepKeepsNobodyReports(w: World, s: Step, m: Mint, e: Id)
    requires Locked(w.book, m, e) && NobodyReports(w, m, e) && Enabled(w, s)
    ensures var v := Next(w, s);
            && (Pending(v.book, m, e) ==> Locked(v.book, m, e) && NobodyReports(v, m, e))
            && forall x :: x != e ==> !Pending(v.book, m, x)
  {
    StepMovesOne(w, s);
    if s.Env? {
      EnvFreezes(w, s, m);
    } else {
      NoReportNoLoss(w, s, m, e);
      if Pending(Next(w, s).book, m, e) {
        NoReportStaysQuiet(w, s, m, e);
      }
    }
    hide Next, Enabled, MayReport;
  }

  lemma {:induction false} NobodyReplaces(w: World, steps: seq<Step>, m: Mint, e: Id)
    requires Locked(w.book, m, e) && NobodyReports(w, m, e)
    ensures !Replaces(w, steps, m, e)
    decreases |steps|
  {
    if steps != [] && Enabled(w, steps[0]) {
      var v := Next(w, steps[0]);
      StepKeepsNobodyReports(w, steps[0], m, e);
      if Pending(v.book, m, e) {
        NobodyReplaces(v, steps[1..], m, e);
      }
    }
  }

  /** From a degraded position on, a manual close by any idle process takes a fresh claim. */
  lemma ManualCloseReplaces(w: World, m: Mint, e: Id) returns (steps: seq<Step>)
    requires Pending(w.book, m, e) && !Locked(w.book, m, e)
    ensures Replaces(w, steps, m, e)
  {
    var p := Unused(w.procs.Keys);
    var exit := Unused(w.usedExits + {e});
    var v := Next(w, ReadManual(p, m));
    assert v.usedExits == w.usedExits && At(v, p).Deciding?;
    SecondClaimExactlyWhen(v, p, exit, m, e);
    steps := [ReadManual(p, m), TakeClaim(p, exit)];
    assert steps[1..] == [TakeClaim(p, exit)];
    assert Replaces(v, steps[1..], m, e);
  }

  lemma {:induction false} Unused(s: set<nat>) returns (n: nat)
    ensures n !in s
  {
    n := 0;
    if s != {} {
      var top := Greatest(s);
      n := top + 1;
    }
  }

  lemma {:induction false} Greatest(s: set<nat>) returns (n: nat)
    requires s != {}
    ensures forall k :: k in s ==> k <= n
    decreases |s|
  {
    var k :| k in s;
    n := k;
    if s != {k} {
      assert s - {k} != {} && s == (s - {k}) + {k};
      var rest := Greatest(s - {k});
      n := if rest > k then rest else k;
    }
  }

  lemma {:induction false} ReplacesLater(w: World, first: seq<Step>, rest: seq<Step>, m: Mint, e: Id)
    requires Enables(w, first) && PendingThroughout(w, first, m, e) && Replaces(After(w, first), rest, m, e)
    ensures Replaces(w, first + rest, m, e)
    decreases |first|
  {
    if first == [] {
      assert first + rest == rest;
    } else {
      ReplacesLater(Next(w, first[0]), first[1..], rest, m, e);
      assert (first + rest)[1..] == first[1..] + rest;
    }
  }

  /**
   A claim can be replaced by another one while it is pending exactly when some process other than its
   holder is about to report a failed quote of this position.
   */
  lemma ClaimIsReplaceableExactlyWhen(w: World, m: Mint, e: Id)
    requires Locked(w.book, m, e)
    ensures (exists steps :: Replaces(w, steps, m, e)) <==> !NobodyReports(w, m, e)
  {
    if NobodyReports(w, m, e) {
      forall steps
        ensures !Replaces(w, steps, m, e)
      {
        NobodyReplaces(w, steps, m, e);
      }
    } else {
      var p :| p in w.procs && MayReport(w.procs[p], m, w.book.positions[m].positionId, e);
      var first := ReporterOverwrites(w, p, m, e);
      var rest := ManualCloseReplaces(After(w, first), m, e);
      ReplacesLater(w, first, rest, m, e);
      assert Replaces(w, first + rest, m, e);
    }
  }

  // ----- Both situations are reachable -----

  const Bought: Step := Env(OpBuy(BuyRequest(7, 100, 50, 0.0, None, 0, false, None, 0.0), 1))

  /** A buy, an evaluation that waits for its quote, and a manual close: the claim is replaceable. */
  lemma {:induction false} ReplaceableClaimIsReachable()
    ensures var steps := [Bought, Read(0, 7, false), ReadManual(1, 7), TakeClaim(1, 5)];
            && Enables(Start, steps)
            && Locked(After(Start, steps).book, 7, 5) && !NobodyReports(After(Start, steps), 7, 5)
  {
    var w1 := Next(Start, Bought);
    assert 7 in w1.book.positions && w1.book.positions[7].riskState == Normal;
    var w2 := Next(w1, Read(0, 7, false));
    var w3 := Next(w2, ReadManual(1, 7));
    var w4 := Next(w3, TakeClaim(1, 5));
    RunPrepend(w3, TakeClaim(1, 5), [], 7, 5);
    RunPrepend(w2, ReadManual(1, 7), [TakeClaim(1, 5)] + [], 7, 5);
    RunPrepend(w1, Read(0, 7, false), [ReadManual(1, 7)] + ([TakeClaim(1, 5)] + []), 7, 5);
    RunPrepend(Start, Bought, [Read(0, 7, false)] + ([ReadManual(1, 7)] + ([TakeClaim(1, 5)] + [])), 7, 5);
    assert [Bought] + ([Read(0, 7, false)] + ([ReadManual(1, 7)] + ([TakeClaim(1, 5)] + [])))
        == [Bought, Read(0, 7, false), ReadManual(1, 7), TakeClaim(1, 5)];
    assert 0 in w4.procs && MayReport(w4.procs[0], 7, w4.book.positions[7].positionId, 5);
  }

  /** A buy and a manual close that dies before its quote: the position is stuck for ever. */
  lemma {:induction false} StuckClaimIsReachable()
    ensures var steps := [Bought, ReadManual(1, 7), TakeClaim(1, 5), Crash(1)];
            && Enables(Start, steps)
            && Locked(After(Start, steps).book, 7, 5) && Unattended(After(Start, steps), 7, 5)
  {
    var w1 := Next(Start, Bought);
    assert 7 in w1.book.positions;
    var w2 := Next(w1, ReadManual(1, 7));
    var w3 := Next(w2, TakeClaim(1, 5));
    var w4 := Next(w3, Crash(1));
    RunPrepend(w3, Crash(1), [], 7, 5);
    RunPrepend(w2, TakeClaim(1, 5), [Crash(1)] + [], 7, 5);
    RunPrepend(w1, ReadManual(1, 7), [TakeClaim(1, 5)] + ([Crash(1)] + []), 7, 5);
    RunPrepend(Start, Bought, [ReadManual(1, 7)] + ([TakeClaim(1, 5)] + ([Crash(1)] + [])), 7, 5);
    assert [Bought] + ([ReadManual(1, 7)] + ([TakeClaim(1, 5)] + ([Crash(1)] + [])))
        == [Bought, ReadManual(1, 7), TakeClaim(1, 5), Crash(1)];
  }
}
