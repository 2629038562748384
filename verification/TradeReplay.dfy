/**
 The dashboard's reading of the event log (`position_trade_groups` in src/dashboard.py): one BUY and
 the SELLs that follow it form a trade group.

 `Replay` is the fold; `PositionTradeGroups` is the loop that computes it from the stored log and
 then lets live positions override the remaining amount. The central fact about the fold alone is
 that cutting old events off the front of a log only loses whole groups: every group whose BUY
 survives the cut is shown exactly as the full log shows it.
 */
module TradeReplay {
  import opened Wrappers
  import opened PaperLedger

  datatype Group = Group(
    mint: Mint, positionId: Id, cost: int, initial: int, remaining: int,
    exits: nat, pnl: int, realizedCost: int, proceeds: int)

  /** Groups in BUY order, and for each open position id the index of its group. */
  datatype Dash = Dash(groups: seq<Group>, live: map<Id, nat>)

  function WithExit(g: Group, sold: int, proceeds: int, pnl: int): Group {
    g.(remaining := Max(0, g.remaining - sold),
       exits := g.exits + 1,
       pnl := g.pnl + pnl,
       realizedCost := g.realizedCost + Max(0, proceeds - pnl),
       proceeds := g.proceeds + proceeds)
  }

  ghost predicate WellIndexed(d: Dash) {
    forall pid :: pid in d.live ==> d.live[pid] < |d.groups| && d.groups[d.live[pid]].positionId == pid
  }

  function ReplayStep(d: Dash, e: Event): (r: Dash)
    requires WellIndexed(d)
    ensures WellIndexed(r)
  {
    match e
    case BuyEvent(_, mint, pid, cost, amount, _, _) =>
      Dash(d.groups + [Group(mint, pid, cost, amount, amount, 0, 0, 0, 0)], d.live[pid := |d.groups|])
    case SellEvent(_, _, pid, amount, proceeds, pnl, _) =>
      if pid !in d.live then d
      else
        var i := d.live[pid];
        var g := WithExit(d.groups[i], amount, proceeds, pnl);
        Dash(d.groups[i := g], if g.remaining <= 0 then d.live - {pid} else d.live)
    case _ => d
  }

  function Replay(log: seq<Event>): (d: Dash)
    ensures WellIndexed(d)
  {
    if log == [] then Dash([], map[])
    else ReplayStep(Replay(log[..|log| - 1]), log[|log| - 1])
  }

  lemma ReplayAppend(log: seq<Event>, e: Event)
    ensures Replay(log + [e]) == ReplayStep(Replay(log), e)
  {
    assert (log + [e])[..|log|] == log;
  }

  /** Group `i` is the one its own position id still points at. */
  predicate IsLive(d: Dash, i: nat) {
    i < |d.groups| && d.groups[i].positionId in d.live && d.live[d.groups[i].positionId] == i
  }

  // ----- Truncation -----

  /** `part` is `full` without its first `cut` groups. */
  ghost predicate Tail(part: Dash, full: Dash, cut: nat) {
    && cut <= |full.groups|
    && part.groups == full.groups[cut..]
    && (forall pid :: pid in part.live <==> pid in full.live && full.live[pid] >= cut)
    && (forall pid :: pid in part.live ==> part.live[pid] == full.live[pid] - cut)
  }

  lemma {:induction false} TailStep(part: Dash, full: Dash, cut: nat, e: Event)
    requires WellIndexed(part) && WellIndexed(full) && Tail(part, full, cut)
    ensures Tail(ReplayStep(part, e), ReplayStep(full, e), cut)
  {
    if e.SellEvent? && e.positionId in full.live {
      var i := full.live[e.positionId];
      var g := WithExit(full.groups[i], e.amount, e.proceeds, e.pnl);
      if i >= cut {
        assert full.groups[i := g][cut..] == full.groups[cut..][i - cut := g];
      } else {
        assert full.groups[i := g][cut..] == full.groups[cut..];
      }
    }
  }

  lemma {:induction false} TailOfReplay(log: seq<Event>, k: nat)
    requires k <= |log|
    ensures Tail(Replay(log[k..]), Replay(log), |Replay(log[..k]).groups|)
  {
    if k == |log| {
      assert log[..k] == log && log[k..] == [];
      AllCut(Replay(log));
    } else {
      hide Tail, ReplayStep, WellIndexed;
      var n := |log| - 1;
      TailOfReplay(log[..n], k);
      assert log[..n][k..] == log[k..n] && log[..n][..k] == log[..k];
      assert log[k..] == log[k..n] + [log[n]] && log == log[..n] + [log[n]];
      ReplayAppend(log[k..n], log[n]);
      ReplayAppend(log[..n], log[n]);
      hide Replay;
      TailStep(Replay(log[k..n]), Replay(log[..n]), |Replay(log[..k]).groups|, log[n]);
    }
  }

  lemma AllCut(d: Dash)
    requires WellIndexed(d)
    ensures Tail(Dash([], map[]), d, |d.groups|)
  {
  }

  /** Dropping the `k` oldest events drops exactly the groups bought among them, and changes no other. */
  lemma TruncationKeepsYoungerGroups(log: seq<Event>, k: nat)
    requires k <= |log|
    ensures |Replay(log[..k]).groups| <= |Replay(log).groups|
    ensures Replay(log[k..]).groups == Replay(log).groups[|Replay(log[..k]).groups|..]
  {
    TailOfReplay(log, k);
  }

  // ----- The dashboard loop -----

  /** What the table shows for group `i`: a live position overrides the remaining amount. */
  function Displayed(d: Dash, i: nat, positions: map<Mint, Position>): Group
    requires i < |d.groups|
  {
    var g := d.groups[i];
    if IsLive(d, i) && g.mint in positions && positions[g.mint].positionId == g.positionId
    then g.(remaining := positions[g.mint].amount) else g
  }

  method PositionTradeGroups(log: seq<Event>, positions: map<Mint, Position>) returns (groups: seq<Group>)
    ensures |groups| == |Replay(log).groups|
    ensures forall i :: 0 <= i < |groups| ==> groups[i] == Displayed(Replay(log), i, positions)
  {
    var live;
    groups, live := FoldEvents(log);
    ghost var d := Dash(groups, live);
    for i := 0 to |groups|
      invariant |groups| == |d.groups|
      invariant forall j :: 0 <= j < i ==> groups[j] == Displayed(d, j, positions)
      invariant forall j :: i <= j < |groups| ==> groups[j] == d.groups[j]
    {
      var g := groups[i];
      if g.positionId in live && live[g.positionId] == i
         && g.mint in positions && positions[g.mint].positionId == g.positionId {
        groups := groups[i := g.(remaining := positions[g.mint].amount)];
      }
    }
  }

  method FoldEvents(log: seq<Event>) returns (groups: seq<Group>, live: map<Id, nat>)
    ensures Dash(groups, live) == Replay(log)
  {
    groups, live := [], map[];
    for n := 0 to |log|
      invariant Dash(groups, live) == Replay(log[..n])
    {
      ReplayAppend(log[..n], log[n]);
      assert log[..n] + [log[n]] == log[..n + 1];
      groups, live := FoldEvent(groups, live, log[n]);
    }
    assert log[..|log|] == log;
  }

  method FoldEvent(
    before: seq<Group>, liveBefore: map<Id, nat>, e: Event)
    returns (groups: seq<Group>, live: map<Id, nat>)
    requires WellIndexed(Dash(before, liveBefore))
    ensures Dash(groups, live) == ReplayStep(Dash(before, liveBefore), e)
  {
    groups, live := before, liveBefore;
    if e.BuyEvent? {
      groups := groups + [Group(e.mint, e.positionId, e.cost, e.amount, e.amount, 0, 0, 0, 0)];
      live := live[e.positionId := |groups| - 1];
    } else if e.SellEvent? && e.positionId in live {
      var i := live[e.positionId];
      var g := AddExit(groups[i], e.amount, e.proceeds, e.pnl);
      groups := groups[i := g];
      if g.remaining <= 0 {
        live := live - {e.positionId};
      }
    }
  }

  method AddExit(group: Group, sold: int, proceeds: int, pnl: int) returns (g: Group)
    ensures g == WithExit(group, sold, proceeds, pnl)
  {
    var releasedCost := proceeds - pnl;
    g := group.(exits := group.exits + 1);
    g := g.(remaining := Max(0, g.remaining - sold));
    g := g.(pnl := g.pnl + pnl);
    g := g.(realizedCost := g.realizedCost + Max(0, releasedCost));
    g := g.(proceeds := g.proceeds + proceeds);
  }
}
