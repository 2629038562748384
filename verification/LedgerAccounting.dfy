/**
 What every run of ledger mutators keeps: conservation of cash, the floor-division bounds on the
 remaining cost of a partly sold position, the event numbering, and the agreement between the live
 positions and the dashboard's replay of the full event log.
 */
module LedgerAccounting {
  import opened Wrappers
  import opened PaperLedger
  import opened TradeReplay

  // ----- Sums -----

  ghost function OpenCost(positions: map<Mint, Position>): int {
    if positions == map[] then 0
    else
      var m :| m in positions;
      positions[m].remainingCost + OpenCost(positions - {m})
  }

  lemma {:induction false} OpenCostOf(positions: map<Mint, Position>, m: Mint)
    requires m in positions
    ensures OpenCost(positions) == positions[m].remainingCost + OpenCost(positions - {m})
    decreases |positions|
  {
    var k :| k in positions && OpenCost(positions) == positions[k].remainingCost + OpenCost(positions - {k});
    if k != m {
      OpenCostOf(positions - {k}, m);
      OpenCostOf(positions - {m}, k);
      assert positions - {k} - {m} == positions - {m} - {k};
    }
  }

  lemma OpenCostUpdate(positions: map<Mint, Position>, m: Mint, p: Position)
    ensures OpenCost(positions[m := p]) == OpenCost(positions - {m}) + p.remainingCost
    ensures m in positions ==>
      OpenCost(positions[m := p]) == OpenCost(positions) - positions[m].remainingCost + p.remainingCost
    ensures m !in positions ==> OpenCost(positions[m := p]) == OpenCost(positions) + p.remainingCost
  {
    assert positions[m := p] - {m} == positions - {m};
    OpenCostOf(positions[m := p], m);
    if m in positions {
      OpenCostOf(positions, m);
    } else {
      assert positions - {m} == positions;
    }
  }

  function BookedPnl(log: seq<Event>): int {
    if log == [] then 0
    else
      var e := log[|log| - 1];
      BookedPnl(log[..|log| - 1]) + if e.SellEvent? then e.pnl else 0
  }

  // ----- Invariants -----

  /** The stored events are the newest ones; numbers rise strictly and stay below the next one. */
  ghost predicate LogOk(events: seq<Event>, history: seq<Event>, nextSeq: nat) {
    && |events| <= |history|
    && events == history[|history| - |events|..]
    && (forall i, j :: 0 <= i < j < |history| ==> history[i].seqNo < history[j].seqNo)
    && (forall i :: 0 <= i < |history| ==> history[i].seqNo < nextSeq)
  }

  ghost predicate CashOk(b: Book) {
    && b.cash >= 0
    && b.cash + OpenCost(b.positions) == INITIAL_PAPER_LAMPORTS + BookedPnl(b.history)
  }

  ghost predicate PositionOk(p: Position) {
    && 0 < p.amount <= p.entryAmount
    && 0 < p.entryCost
    && 0 <= p.remainingCost <= p.entryCost
    && 0 <= p.cumulativeProceeds
    && 0 <= p.requiredProceeds
    && p.entryCost - p.cumulativeProceeds <= p.requiredProceeds
  }

  /** After `k` sales: floor division never releases too much cost, and each sale withholds under one unit. */
  ghost predicate Sandwich(p: Position, k: nat) {
    p.entryCost * p.amount <= p.remainingCost * p.entryAmount
      <= p.entryCost * p.amount + k * p.entryAmount
  }

  ghost predicate Matches(g: Group, m: Mint, p: Position) {
    && g.mint == m && g.positionId == p.positionId
    && g.cost == p.entryCost && g.initial == p.entryAmount
    && g.remaining == p.amount
    && g.realizedCost + p.remainingCost == p.entryCost
    && g.proceeds == p.cumulativeProceeds
    && g.pnl == g.proceeds - g.realizedCost
    && Sandwich(p, g.exits)
  }

  ghost predicate Drained(g: Group) {
    g.remaining == 0 && g.realizedCost == g.cost && g.pnl == g.proceeds - g.cost
  }

  ghost predicate Tracks(positions: map<Mint, Position>, d: Dash) {
    && (forall m :: m in positions ==>
          && PositionOk(positions[m])
          && positions[m].positionId in d.live
          && d.live[positions[m].positionId] < |d.groups|
          && Matches(d.groups[d.live[positions[m].positionId]], m, positions[m]))
    && (forall i :: 0 <= i < |d.groups| && IsLive(d, i) ==>
          d.groups[i].mint in positions && positions[d.groups[i].mint].positionId == d.groups[i].positionId)
    && (forall i :: 0 <= i < |d.groups| && !IsLive(d, i) ==> Drained(d.groups[i]))
  }

  /** No SELL of the log is ignored, sells more than is left, or books a negative released cost. */
  ghost predicate ClampFree(log: seq<Event>) {
    log == [] ||
    (ClampFree(log[..|log| - 1]) && Fits(Replay(log[..|log| - 1]), log[|log| - 1]))
  }

  ghost predicate Fits(d: Dash, e: Event) {
    e.SellEvent? ==>
      && e.positionId in d.live && d.live[e.positionId] < |d.groups|
      && 0 < e.amount <= d.groups[d.live[e.positionId]].remaining
      && e.pnl <= e.proceeds
  }

  ghost predicate Valid(b: Book) {
    LogOk(b.events, b.history, b.nextSeq) && CashOk(b) && Tracks(b.positions, Replay(b.history)) && ClampFree(b.history)
  }

  /** The environment's side: uuid4 ids are fresh, and a quote never pays a negative amount. */
  ghost predicate Legal(b: Book, op: Op) {
    match op
    case OpBuy(_, pid) => FreshId(b, pid)
    case OpSell(_, _, proceeds, _, _, _) => proceeds >= 0
    case _ => true
  }

  ghost predicate FreshId(b: Book, pid: Id) {
    forall i :: 0 <= i < |Replay(b.history).groups| ==> Replay(b.history).groups[i].positionId != pid
  }

  ghost predicate LegalRun(b: Book, ops: seq<Op>) {
    ops == [] ||
    (LegalRun(b, ops[..|ops| - 1]) && Legal(Run(b, ops[..|ops| - 1]), ops[|ops| - 1]))
  }

  // ----- Floor division -----

  lemma StrictMono(a: int, x: int, y: int)
    requires a > 0 && x < y
    ensures a * x < a * y
  {
    assert a * (y - x) > 0;
  }

  lemma CancelLe(a: int, x: int, y: int)
    requires a > 0 && a * x <= a * y
    ensures x <= y
  {
    if y < x {
      StrictMono(a, y, x);
    }
  }

  /** Releasing floor(r*s/a) keeps `E*a <= r*A <= E*a + k*A`, with one more unit of slack per sale. */
  lemma SaleKeepsSandwich(E: int, A: int, r: int, a: int, s: int, k: nat)
    requires 0 < E && 0 < s <= a <= A && 0 <= r
    requires E * a <= r * A <= E * a + k * A
    ensures 0 <= r - r * s / a <= r
    ensures E * (a - s) <= (r - r * s / a) * A <= E * (a - s) + (k + 1) * A
    ensures s == a ==> r - r * s / a == 0
  {
    FloorBounds(r, s, a);
    LeftBounds(r, s, a, r * s / a);
    SandwichLower(E, A, r, a, s, r - r * s / a);
    SandwichUpper(E, A, r, a, s, r - r * s / a, k);
  }

  lemma LeftBounds(r: int, s: int, a: int, c: int)
    requires c * a <= r * s < c * a + a
    ensures r * (a - s) <= (r - c) * a < r * (a - s) + a
  {
    assert r * (a - s) == r * a - r * s;
    assert (r - c) * a == r * a - c * a;
  }

  lemma FloorBounds(r: int, s: int, a: int)
    requires 0 < s <= a && 0 <= r
    ensures 0 <= r * s / a <= r
    ensures (r * s / a) * a <= r * s < (r * s / a) * a + a
    ensures s == a ==> r * s / a == r
  {
    var n := r * s;
    MulMono(s, a, r);
    MulMono(0, s, r);
    FloorOf(n, a, r);
    if s == a {
      FloorOfMultiple(a, r);
    }
  }

  lemma FloorOf(n: int, a: int, r: int)
    requires a > 0 && 0 <= n <= r * a
    ensures 0 <= n / a <= r
    ensures (n / a) * a <= n < (n / a) * a + a
  {
    var c := n / a;
    assert n == c * a + n % a;
    CancelLe(a, c, r);
    CancelLe(a, 0, c);
  }

  lemma FloorOfMultiple(a: int, r: int)
    requires a > 0
    ensures r * a / a == r
  {
    var n := r * a;
    var c := n / a;
    assert n == c * a + n % a;
    assert a * c <= a * r < a * (c + 1);
    CancelLe(a, c, r);
    if c + 1 <= r {
      MulMono(c + 1, r, a);
    }
  }

  lemma SandwichLower(E: int, A: int, r: int, a: int, s: int, left: int)
    requires 0 < s <= a && 0 < A
    requires E * a <= r * A && r * (a - s) <= left * a
    ensures E * (a - s) <= left * A
  {
    var h := a - s;
    calc <= {
      a * (E * h);
      == (E * a) * h;
      { MulMono(E * a, r * A, h); }
      (r * A) * h;
      == (r * h) * A;
      { MulMono(r * h, left * a, A); }
      (left * a) * A;
      == a * (left * A);
    }
    CancelLe(a, E * h, left * A);
  }

  lemma {:induction false} SandwichUpper(E: int, A: int, r: int, a: int, s: int, left: int, k: nat)
    requires 0 < s <= a && 0 < A
    requires r * A <= E * a + k * A && left * a < r * (a - s) + a
    ensures left * A <= E * (a - s) + (k + 1) * A
  {
    var h := a - s;
    assert k * A >= 0;
    calc <= {
      a * (left * A);
      == (left * a) * A;
      { MulMono(left * a, r * h + a, A); }
      (r * h + a) * A;
      == (r * A) * h + a * A;
      { MulMono(r * A, E * a + k * A, h); }
      (E * a + k * A) * h + a * A;
      == a * (E * h) + (k * A) * h + a * A;
      { MulMono(h, a, k * A); }
      a * (E * h) + (k * A) * a + a * A;
      == a * (E * h + (k + 1) * A);
    }
    CancelLe(a, left * A, E * h + (k + 1) * A);
  }

  lemma MulMono(x: int, y: int, m: int)
    requires x <= y && 0 <= m
    ensures x * m <= y * m
  {
    assert (y - x) * m >= 0;
  }

  // ----- Every mutator keeps the invariants -----

  lemma EmptyBookIsValid()
    ensures Valid(EmptyBook)
  {
  }

  lemma LogKeepsLogOk(events: seq<Event>, history: seq<Event>, nextSeq: nat, e: Event)
    requires LogOk(events, history, nextSeq) && e.seqNo == nextSeq
    ensures LogOk(events + [e], history + [e], nextSeq + 1)
    ensures LogOk(Last(events + [e], STORED_EVENT_LIMIT), history + [e], nextSeq + 1)
  {
    var k := |history| - |events|;
    assert (history + [e])[k..] == events + [e];
    var kept := Last(events + [e], STORED_EVENT_LIMIT);
    assert kept == (history + [e])[|history| + 1 - |kept|..];
  }

  lemma ClampFreeAppend(log: seq<Event>, e: Event)
    requires ClampFree(log) && Fits(Replay(log), e)
    ensures ClampFree(log + [e])
  {
    assert (log + [e])[..|log|] == log;
  }

  /** Events that are neither BUY nor SELL change neither money nor the replay. */
  lemma {:induction false} OtherEventKeepsValid(b: Book, e: Event)
    requires Valid(b) && !e.BuyEvent? && !e.SellEvent? && e.seqNo == b.nextSeq
    ensures Valid(Log(b, e)) && Valid(Truncated(Log(b, e)))
  {
    hide Tracks, LogOk, ClampFree;
    var c := Log(b, e);
    LogKeepsLogOk(b.events, b.history, b.nextSeq, e);
    ClampFreeAppend(b.history, e);
    ReplayAppend(b.history, e);
  }

  lemma {:induction false} LifecycleLogKeepsValid(b: Book, mint: Mint, pid: Id, statuses: seq<nat>)
    requires Valid(b)
    ensures Valid(LogLifecycle(b, mint, pid, statuses))
    ensures LogLifecycle(b, mint, pid, statuses).positions == b.positions
  {
    if statuses != [] {
      var n := |statuses| - 1;
      LifecycleLogKeepsValid(b, mint, pid, statuses[..n]);
      var before := LogLifecycle(b, mint, pid, statuses[..n]);
      OtherEventKeepsValid(before, LifecycleEvent(before.nextSeq, mint, pid, statuses[n]));
    }
  }

  ghost predicate SameMoney(p: Position, q: Position) {
    p.positionId == q.positionId && p.amount == q.amount && p.remainingCost == q.remainingCost
    && p.entryCost == q.entryCost && p.entryAmount == q.entryAmount
    && p.cumulativeProceeds == q.cumulativeProceeds && p.requiredProceeds == q.requiredProceeds
  }

  /** A mutator that leaves amount, costs and proceeds of a position alone keeps every invariant. */
  lemma TouchKeepsValid(b: Book, m: Mint, p: Position)
    requires Valid(b) && m in b.positions && SameMoney(p, b.positions[m])
    ensures Valid(WithPosition(b, m, p))
  {
    hide LogOk, Tracks, ClampFree, Replay;
    var c := WithPosition(b, m, p);
    var q := p.(version := p.version + 1);
    OpenCostUpdate(b.positions, m, q);
    TouchKeepsTracks(b.positions, Replay(b.history), m, q);
  }

  lemma TouchKeepsTracks(positions: map<Mint, Position>, d: Dash, m: Mint, p: Position)
    requires Tracks(positions, d) && m in positions && SameMoney(p, positions[m])
    ensures Tracks(positions[m := p], d)
  {
  }

  lemma BuyKeepsValid(b: Book, r: BuyRequest, pid: Id)
    requires Valid(b) && FreshId(b, pid)
    ensures Valid(Buy(b, r, pid).0)
  {
    hide Valid, FreshId, LastRound, BoughtBefore, OpenCount;
    if BuyGuard(b, r).None? {
      PurchaseKeepsValid(b, r, pid, LastRound(b.events, r.mint) + 1);
    }
  }

  function Purchased(b: Book, r: BuyRequest, pid: Id, round: nat): Book {
    Log(b.(cash := b.cash - r.cost, positions := b.positions[r.mint := NewPosition(r, pid, round)]),
        BuyEvent(b.nextSeq, r.mint, pid, r.cost, r.amount, round, r.signature))
  }

  lemma {:induction false} PurchaseKeepsValid(b: Book, r: BuyRequest, pid: Id, round: nat)
    requires Valid(b) && FreshId(b, pid)
    requires r.mint !in b.positions && 0 < r.cost <= b.cash && r.amount > 0
    ensures Valid(Purchased(b, r, pid, round))
  {
    hide LogOk, Tracks, ClampFree, Replay;
    var c := Purchased(b, r, pid, round);
    var e := BuyEvent(b.nextSeq, r.mint, pid, r.cost, r.amount, round, r.signature);
    LogKeepsLogOk(b.events, b.history, b.nextSeq, e);
    ClampFreeAppend(b.history, e);
    ReplayAppend(b.history, e);
    BuyKeepsTracks(b.positions, Replay(b.history), r, pid, round);
    assert CashOk(c) by {
      OpenCostUpdate(b.positions, r.mint, NewPosition(r, pid, round));
    }
  }

  lemma {:induction false} BuyKeepsTracks(positions: map<Mint, Position>, d: Dash, r: BuyRequest, pid: Id, round: nat)
    requires WellIndexed(d) && Tracks(positions, d) && r.mint !in positions && r.cost > 0 && r.amount > 0
    requires forall i :: 0 <= i < |d.groups| ==> d.groups[i].positionId != pid
    ensures Tracks(positions[r.mint := NewPosition(r, pid, round)],
                   Dash(d.groups + [Group(r.mint, pid, r.cost, r.amount, r.amount, 0, 0, 0, 0)],
                        d.live[pid := |d.groups|]))
  {
    var g := Group(r.mint, pid, r.cost, r.amount, r.amount, 0, 0, 0, 0);
    NewPositionMatches(r, pid, round);
    hide Sandwich, PositionOk, Drained, Matches;
    var d' := Dash(d.groups + [g], d.live[pid := |d.groups|]);
    forall i | 0 <= i < |d.groups|
      ensures IsLive(d', i) == IsLive(d, i)
    {
    }
  }

  lemma NewPositionMatches(r: BuyRequest, pid: Id, round: nat)
    requires r.cost > 0 && r.amount > 0
    ensures var p := NewPosition(r, pid, round);
            PositionOk(p) && Matches(Group(r.mint, pid, r.cost, r.amount, r.amount, 0, 0, 0, 0), r.mint, p)
  {
  }

  lemma {:induction false} SellKeepsValid(b: Book, mint: Mint, sold: int, proceeds: int, reason: Reason)
    requires Valid(b) && mint in b.positions && 0 < sold <= b.positions[mint].amount && proceeds >= 0
    ensures Valid(Sold(b, mint, sold, proceeds, reason))
  {
    hide LogOk, CashOk, Tracks, ClampFree, Replay, ReplayStep, Fits, AfterSale, Released;
    var c := Sold(b, mint, sold, proceeds, reason);
    var e := c.history[|b.history|];
    assert c.history == b.history + [e];
    SaleKeepsReplay(b, mint, sold, proceeds, reason);
    ReplayAppend(b.history, e);
    ClampFreeAppend(b.history, e);
    LogKeepsLogOk(b.events, b.history, b.nextSeq, e);
    TrackedIsOk(b.positions, Replay(b.history), mint);
    SaleKeepsCash(b, mint, sold, proceeds, reason);
  }

  lemma TrackedIsOk(positions: map<Mint, Position>, d: Dash, m: Mint)
    requires Tracks(positions, d) && m in positions
    ensures PositionOk(positions[m])
  {
    hide Matches, Drained;
  }

  /** The event a sale appends fits the replay, and the replayed step tracks the new positions. */
  lemma SaleKeepsReplay(b: Book, mint: Mint, sold: int, proceeds: int, reason: Reason)
    requires Tracks(b.positions, Replay(b.history))
    requires mint in b.positions && 0 < sold <= b.positions[mint].amount && proceeds >= 0
    ensures var c := Sold(b, mint, sold, proceeds, reason);
            var e := c.history[|b.history|];
            Fits(Replay(b.history), e) && Tracks(c.positions, ReplayStep(Replay(b.history), e))
  {
    hide Released, AfterSale, Replay, ReplayStep, Fits, Tracks;
    var p := b.positions[mint];
    var pnl := proceeds - Released(p, sold);
    var e := SellEvent(b.nextSeq, mint, p.positionId, sold, proceeds, pnl, reason);
    SaleStep(b.positions, Replay(b.history), mint, sold, proceeds, reason, e);
  }

  lemma SaleStep(
    positions: map<Mint, Position>, d: Dash, mint: Mint, sold: int, proceeds: int, reason: Reason, e: Event)
    requires WellIndexed(d) && Tracks(positions, d)
    requires mint in positions && 0 < sold <= positions[mint].amount && proceeds >= 0
    requires e.SellEvent? && e.positionId == positions[mint].positionId && e.amount == sold
    requires e.proceeds == proceeds && e.pnl == proceeds - Released(positions[mint], sold)
    ensures var q := AfterSale(positions[mint], sold, proceeds, reason);
            && Fits(d, e)
            && Tracks(if q.amount <= 0 then positions - {mint} else positions[mint := q], ReplayStep(d, e))
  {
    hide Sandwich, PositionOk, Released, AfterSale, WithExit, Drained;
    var p := positions[mint];
    var g := d.groups[d.live[p.positionId]];
    assert Matches(g, mint, p);
    SaleMatches(p, g, sold, proceeds, reason);
  }

  lemma {:induction false} SaleKeepsCash(b: Book, mint: Mint, sold: int, proceeds: int, reason: Reason)
    requires CashOk(b) && mint in b.positions && 0 < sold <= b.positions[mint].amount && proceeds >= 0
    requires b.positions[mint].remainingCost >= 0
    ensures CashOk(Sold(b, mint, sold, proceeds, reason))
  {
    var p := b.positions[mint];
    var c := Sold(b, mint, sold, proceeds, reason);
    OpenCostUpdate(b.positions, mint, AfterSale(p, sold, proceeds, reason));
    OpenCostOf(b.positions, mint);
    FloorBounds(p.remainingCost, sold, p.amount);
  }

  /** One sale moves the position and its replayed group in step; at zero the group is drained. */
  lemma {:induction false} SaleMatches(p: Position, g: Group, sold: int, proceeds: int, reason: Reason)
    requires PositionOk(p) && Matches(g, g.mint, p) && 0 < sold <= p.amount && proceeds >= 0
    ensures var q := AfterSale(p, sold, proceeds, reason);
            var h := WithExit(g, sold, proceeds, proceeds - Released(p, sold));
            && q.positionId == p.positionId && h.mint == g.mint && h.positionId == g.positionId && q.amount >= 0
            && (q.amount > 0 ==> PositionOk(q) && Matches(h, g.mint, q))
            && (q.amount == 0 ==> Drained(h) && q.remainingCost == 0)
            && (h.remaining <= 0 <==> q.amount == 0)
            && 0 <= Released(p, sold) <= p.remainingCost
  {
    SaleKeepsSandwich(p.entryCost, p.entryAmount, p.remainingCost, p.amount, sold, g.exits);
    assert Released(p, sold) == p.remainingCost * sold / p.amount;
  }

  lemma ClaimKeepsValid(b: Book, mint: Mint, pid: Id, exit: Id)
    requires Valid(b)
    ensures Valid(Claim(b, mint, pid, exit).0)
  {
    if Claim(b, mint, pid, exit).1.Some? {
      TouchKeepsValid(b, mint, b.positions[mint].(riskState := ExitPending, pendingExit := Some(exit)));
    }
  }

  lemma {:induction false} ReleaseKeepsValid(b: Book, mint: Mint, pid: Id, exit: Id, degraded: bool)
    requires Valid(b)
    ensures Valid(Release(b, mint, pid, exit, degraded))
  {
    if Holds(b, mint, pid) {
      var state := if degraded then Degraded else Normal;
      TouchKeepsValid(b, mint, b.positions[mint].(pendingExit := None, riskState := state));
    }
  }

  lemma LifecycleKeepsValid(b: Book, mint: Mint, pid: Id, statuses: seq<nat>)
    requires Valid(b)
    ensures Valid(Lifecycle(b, mint, pid, statuses))
  {
    if Holds(b, mint, pid) {
      LifecycleLogKeepsValid(b, mint, pid, statuses);
      TouchKeepsValid(LogLifecycle(b, mint, pid, statuses), mint, b.positions[mint]);
    }
  }

  lemma MarkKeepsValid(b: Book, mint: Mint, pid: Id, value: int, now: real)
    requires Valid(b)
    ensures Valid(Mark(b, mint, pid, value, now))
  {
    if Holds(b, mint, pid) && value >= 0 {
      var p := Mark(b, mint, pid, value, now).positions[mint];
      TouchKeepsValid(b, mint, p.(version := b.positions[mint].version));
    }
  }

  lemma QuoteFailureKeepsValid(b: Book, mint: Mint, pid: Id, now: real, noRoute: bool)
    requires Valid(b)
    ensures Valid(QuoteFailure(b, mint, pid, now, noRoute))
  {
    if Holds(b, mint, pid) {
      var p := QuoteFailure(b, mint, pid, now, noRoute).positions[mint];
      TouchKeepsValid(b, mint, p.(version := b.positions[mint].version));
    }
  }

  lemma StepKeepsValid(b: Book, op: Op)
    requires Valid(b) && Legal(b, op)
    ensures Valid(Apply(b, op))
  {
    hide Valid;
    match op
    case OpBuy(r, pid) => BuyKeepsValid(b, r, pid);
    case OpReject(mint, s) => OtherEventKeepsValid(b, RejectionEvent(b.nextSeq, mint, s));
    case OpRpcSkip(mint, s) => OtherEventKeepsValid(b, RpcSkipEvent(b.nextSeq, mint, s));
    case OpClaim(mint, pid, exit) => ClaimKeepsValid(b, mint, pid, exit);
    case OpRelease(mint, pid, exit, degraded) => ReleaseKeepsValid(b, mint, pid, exit, degraded);
    case OpMark(mint, pid, value, now) => MarkKeepsValid(b, mint, pid, value, now);
    case OpQuoteFailure(mint, pid, now, noRoute) => QuoteFailureKeepsValid(b, mint, pid, now, noRoute);
    case OpLifecycle(mint, pid, statuses) => LifecycleKeepsValid(b, mint, pid, statuses);
    case OpSell(mint, amount, proceeds, reason, pid, exit) =>
      if SellAccepted(b, mint, amount, pid, exit) {
        SellKeepsValid(b, mint, Min(amount, b.positions[mint].amount), proceeds, reason);
      }
  }

  lemma {:induction false} RunKeepsValid(b: Book, ops: seq<Op>)
    requires Valid(b) && LegalRun(b, ops)
    ensures Valid(Run(b, ops))
  {
    if ops != [] {
      var n := |ops| - 1;
      RunKeepsValid(b, ops[..n]);
      StepKeepsValid(Run(b, ops[..n]), ops[n]);
    }
  }

  // ----- What a mutator adds to the history -----

  lemma LifecycleAppliesLog(b: Book, op: Op)
    requires op.OpLifecycle?
    ensures Apply(b, op).history == b.history
            || Apply(b, op).history == LogLifecycle(b, op.mint, op.pid, op.statuses).history
  {
  }

  lemma AtMostOneEvent(b: Book, op: Op)
    requires !op.OpLifecycle?
    ensures var h := Apply(b, op).history;
            h == b.history
            || (|h| == |b.history| + 1 && h == b.history + [h[|b.history|]]
                && (h[|b.history|].BuyEvent? ==> op.OpBuy? && h[|b.history|].positionId == op.pid))
  {
  }

  lemma {:induction false} LifecycleKeepsReplay(b: Book, mint: Mint, pid: Id, statuses: seq<nat>)
    ensures Replay(LogLifecycle(b, mint, pid, statuses).history) == Replay(b.history)
  {
    if statuses != [] {
      var n := |statuses| - 1;
      LifecycleKeepsReplay(b, mint, pid, statuses[..n]);
      var before := LogLifecycle(b, mint, pid, statuses[..n]);
      ReplayAppend(before.history, LifecycleEvent(before.nextSeq, mint, pid, statuses[n]));
    }
  }
}
