/**
 One logical RPC call (src/solana_rpc.py, src/helius_rpc.py): the fixed provider order, the backoff a
 failure asks for, and the failover loop that spends a shared attempt budget on several providers.

 What a provider does at its `j`-th local attempt is the environment's choice: refuse the reservation,
 answer, or fail.
 */
module RpcRouter {
  import opened Wrappers
  import opened RpcCircuit

  const MAX_INLINE_BACKOFF: real := 5.0
  const MAX_OVERALL_ATTEMPTS: int := 20
  const MAX_LOCAL_ATTEMPTS: int := 3

  // ----- Backoff -----

  datatype Header = Absent | Number(value: real) | Date(epoch: real) | Garbage

  datatype Source = RetryAfter | RateLimitReset | Exponential

  /** A usable header value; epochs beyond now count as absolute only where the header allows it. */
  function HeaderDelay(h: Header, now: real, relativeOnly: bool): Option<real> {
    match h
    case Number(v) => if v < 0.0 then None else if !relativeOnly && v > now then Some(v - now) else Some(v)
    case Date(t) => if relativeOnly then Some(Max(0.0, t - now)) else None
    case _ => None
  }

  function Power2(n: nat): real {
    if n == 0 then 1.0 else 2.0 * Power2(n - 1)
  }

  function Min(a: real, b: real): real { if a <= b then a else b }

  function Backoff(retryAfter: Header, reset: Header, resetPlain: Header, attempt: nat, now: real): (real, Source) {
    var after := HeaderDelay(retryAfter, now, true);
    var first := HeaderDelay(reset, now, false);
    var second := HeaderDelay(resetPlain, now, false);
    if after.Some? then (Min(after.value, MAX_BACKOFF), RetryAfter)
    else if first.Some? then (Min(first.value, MAX_BACKOFF), RateLimitReset)
    else if second.Some? then (Min(second.value, MAX_BACKOFF), RateLimitReset)
    else (Min(Power2(attempt), MAX_BACKOFF), Exponential)
  }

  function JitterFactor(source: Source, random: real): real {
    var sample := Min(1.0, Max(0.0, random));
    if source != Exponential then 1.0 + 0.25 * sample else 0.75 + 0.5 * sample
  }

  function Jittered(delay: real, source: Source, random: real): real {
    Min(MAX_BACKOFF, Max(0.0, delay) * JitterFactor(source, random))
  }

  lemma BackoffIsBounded(retryAfter: Header, reset: Header, resetPlain: Header, attempt: nat, now: real)
    requires now >= 0.0
    ensures 0.0 <= Backoff(retryAfter, reset, resetPlain, attempt, now).0 <= MAX_BACKOFF
  {
    PowerIsPositive(attempt);
    hide Power2;
  }

  lemma ScalingIsMonotone(delay: real, low: real, factor: real)
    requires delay >= 0.0 && low <= factor
    ensures low * delay <= delay * factor
  {
  }

  lemma FactorIsBounded(source: Source, random: real)
    ensures JitterFactor(source, random) >= if source != Exponential then 1.0 else 0.75
  {
  }

  lemma JitterIsBounded(delay: real, source: Source, random: real)
    requires 0.0 <= delay <= MAX_BACKOFF
    ensures 0.0 <= Jittered(delay, source, random) <= MAX_BACKOFF
    ensures source != Exponential ==> Jittered(delay, source, random) >= delay
    ensures source == Exponential ==> Jittered(delay, source, random) >= 0.75 * delay
  {
    hide JitterFactor;
    FactorIsBounded(source, random);
    ScalingIsMonotone(delay, if source != Exponential then 1.0 else 0.75, JitterFactor(source, random));
    assert Max(0.0, delay) == delay;
  }

  /** Every delay is within 30 s, and jitter never undercuts a wait the provider asked for. */
  lemma DelayIsBounded(retryAfter: Header, reset: Header, resetPlain: Header, attempt: nat, now: real, random: real)
    requires now >= 0.0
    ensures var (delay, source) := Backoff(retryAfter, reset, resetPlain, attempt, now);
            && 0.0 <= delay <= MAX_BACKOFF
            && 0.0 <= Jittered(delay, source, random) <= MAX_BACKOFF
            && (source != Exponential ==> Jittered(delay, source, random) >= delay)
            && (source == Exponential ==> Jittered(delay, source, random) >= 0.75 * delay)
  {
    hide Backoff, Jittered;
    BackoffIsBounded(retryAfter, reset, resetPlain, attempt, now);
    var (delay, source) := Backoff(retryAfter, reset, resetPlain, attempt, now);
    JitterIsBounded(delay, source, random);
  }

  lemma {:induction false} PowerIsPositive(n: nat)
    ensures Power2(n) >= 1.0
  {
    if n > 0 {
      PowerIsPositive(n - 1);
    }
  }

  /**
   The wait asked for, cut off at 30 s: a usable Retry-After first, relative or a date; then a rate-limit reset,
   which is absolute when it lies beyond now; then 1, 2, 4, 8, 16, 30, 30, ... seconds by attempt.
   */
  lemma BackoffExactlyWhen(retryAfter: Header, reset: Header, resetPlain: Header, attempt: nat, now: real)
    requires now >= 0.0
    ensures var (delay, source) := Backoff(retryAfter, reset, resetPlain, attempt, now);
            var usable := (h: Header) => h.Number? && h.value >= 0.0;
            var wait := (h: Header) => if h.Number? then if h.value > now then h.value - now else h.value else 0.0;
            var cut := (d: real) => if d <= 30.0 then d else 30.0;
            && (usable(retryAfter) ==> delay == cut(retryAfter.value) && source == RetryAfter)
            && (retryAfter.Date? ==>
                  delay == cut(if retryAfter.epoch >= now then retryAfter.epoch - now else 0.0) && source == RetryAfter)
            && (!usable(retryAfter) && !retryAfter.Date? ==>
                  if usable(reset) then delay == cut(wait(reset)) && source == RateLimitReset
                  else if usable(resetPlain) then delay == cut(wait(resetPlain)) && source == RateLimitReset
                  else source == Exponential
                       && delay == if attempt < 5 then [1.0, 2.0, 4.0, 8.0, 16.0][attempt] else 30.0)
  {
    PowersOfTwo(attempt);
  }

  lemma {:induction false} PowersOfTwo(n: nat)
    ensures if n < 5 then Power2(n) == [1.0, 2.0, 4.0, 8.0, 16.0][n] else Power2(n) >= 32.0
  {
    if n > 0 {
      PowersOfTwo(n - 1);
    }
  }

  /** Jitter spreads a wait by a quarter: upward only when the provider asked for it, both ways otherwise. */
  lemma JitterSpreads(delay: real, source: Source, random: real, factor: real)
    requires 0.0 <= delay <= MAX_BACKOFF && 0.0 <= random <= 1.0
    requires factor == if source == Exponential then 0.75 + random / 2.0 else 1.0 + random / 4.0
    ensures Jittered(delay, source, random) == if delay * factor <= 30.0 then delay * factor else 30.0
  {
    FactorIs(source, random);
    hide Jittered, JitterFactor;
    JitteredIs(delay, source, random, factor);
  }

  lemma FactorIs(source: Source, random: real)
    requires 0.0 <= random <= 1.0
    ensures JitterFactor(source, random) == if source == Exponential then 0.75 + random / 2.0 else 1.0 + random / 4.0
  {
  }

  lemma JitteredIs(delay: real, source: Source, random: real, factor: real)
    requires delay >= 0.0 && JitterFactor(source, random) == factor
    ensures Jittered(delay, source, random) == Min(30.0, delay * factor)
  {
    hide JitterFactor;
  }

  // ----- Provider order -----

  datatype Name = Alchemy | Chainstack | Ankr | Helius | SolanaPublic

  const LIGHT_ORDER: seq<Name> := [Alchemy, Chainstack, Ankr, Helius, SolanaPublic]
  const HEAVY_ORDER: seq<Name> := [Ankr, Chainstack, Alchemy, Helius, SolanaPublic]

  /** Configured providers in the fixed order; Chainstack does not serve `getTokenAccountsByOwner`. */
  function Ordered(order: seq<Name>, configured: set<Name>, tokenAccounts: bool): seq<Name> {
    if order == [] then []
    else
      var rest := Ordered(order[1..], configured, tokenAccounts);
      if order[0] in configured && !(tokenAccounts && order[0] == Chainstack) then [order[0]] + rest else rest
  }

  function OrderedProviders(configured: set<Name>, heavy: bool, tokenAccounts: bool): seq<Name> {
    Ordered(if heavy then HEAVY_ORDER else LIGHT_ORDER, configured, tokenAccounts)
  }

  lemma {:induction false} OrderedKeeps(order: seq<Name>, configured: set<Name>, tokenAccounts: bool)
    ensures var s := Ordered(order, configured, tokenAccounts);
            && (forall x :: x in s <==> x in order && x in configured && !(tokenAccounts && x == Chainstack))
            && ((forall i, j :: 0 <= i < j < |order| ==> order[i] != order[j]) ==>
                  forall i, j :: 0 <= i < j < |s| ==> s[i] != s[j])
            && ((order != [] && order[|order| - 1] == SolanaPublic && SolanaPublic in configured) ==>
                  s != [] && s[|s| - 1] == SolanaPublic)
  {
    if order != [] {
      OrderedKeeps(order[1..], configured, tokenAccounts);
    }
  }

  /** Each usable provider is tried in one place, and the public endpoint always last. */
  lemma PublicEndpointIsLast(configured: set<Name>, heavy: bool, tokenAccounts: bool)
    ensures var s := OrderedProviders(configured, heavy, tokenAccounts);
            && (forall x :: x in s <==> x in configured && !(tokenAccounts && x == Chainstack))
            && (forall i, j :: 0 <= i < j < |s| ==> s[i] != s[j])
            && (SolanaPublic in configured ==> s != [] && s[|s| - 1] == SolanaPublic)
  {
    var order := if heavy then HEAVY_ORDER else LIGHT_ORDER;
    forall x: Name
      ensures x in LIGHT_ORDER && x in HEAVY_ORDER
    {
      match x
      case Alchemy => assert LIGHT_ORDER[0] == x == HEAVY_ORDER[2];
      case Chainstack => assert LIGHT_ORDER[1] == x == HEAVY_ORDER[1];
      case Ankr => assert LIGHT_ORDER[2] == x == HEAVY_ORDER[0];
      case Helius => assert LIGHT_ORDER[3] == x == HEAVY_ORDER[3];
      case SolanaPublic => assert LIGHT_ORDER[4] == x == HEAVY_ORDER[4];
    }
    OrderedKeeps(order, configured, tokenAccounts);
  }

  /** Light calls go to Alchemy first and heavy ones to Ankr; Chainstack, Helius and the public one keep place. */
  function Rank(x: Name, heavy: bool): nat {
    match x
    case Alchemy => if heavy then 2 else 0
    case Chainstack => 1
    case Ankr => if heavy then 0 else 2
    case Helius => 3
    case SolanaPublic => 4
  }

  predicate Ranked(s: seq<Name>, heavy: bool) {
    forall i, j :: 0 <= i < j < |s| ==> Rank(s[i], heavy) < Rank(s[j], heavy)
  }

  lemma {:induction false} OrderedKeepsRank(order: seq<Name>, heavy: bool, configured: set<Name>, tokenAccounts: bool)
    requires Ranked(order, heavy)
    ensures Ranked(Ordered(order, configured, tokenAccounts), heavy)
    ensures forall x :: x in Ordered(order, configured, tokenAccounts) ==> x in order
  {
    if order != [] {
      hide Rank;
      var rest := Ordered(order[1..], configured, tokenAccounts);
      OrderedKeepsRank(order[1..], heavy, configured, tokenAccounts);
      forall x | x in rest
        ensures Rank(order[0], heavy) < Rank(x, heavy) && x in order
      {
        var k :| 0 <= k < |order[1..]| && order[1..][k] == x;
        assert order[k + 1] == x;
      }
      hide Ranked;
      RankedInFront(order[0], rest, heavy);
    }
  }

  lemma RankedInFront(x: Name, rest: seq<Name>, heavy: bool)
    requires Ranked(rest, heavy) && forall y :: y in rest ==> Rank(x, heavy) < Rank(y, heavy)
    ensures Ranked([x] + rest, heavy)
  {
    hide Rank;
    assert forall i :: 0 <= i < |rest| ==> rest[i] in rest;
  }

  /** The usable providers come in the fixed order of the call's kind. */
  lemma ProvidersKeepTheOrder(configured: set<Name>, heavy: bool, tokenAccounts: bool)
    ensures var s := OrderedProviders(configured, heavy, tokenAccounts);
            forall i, j :: 0 <= i < j < |s| ==> Rank(s[i], heavy) < Rank(s[j], heavy)
  {
    var order := if heavy then HEAVY_ORDER else LIGHT_ORDER;
    assert forall i :: 0 <= i < |order| ==> Rank(order[i], heavy) == i;
    OrderedKeepsRank(order, heavy, configured, tokenAccounts);
    hide Ordered;
    assert Ranked(OrderedProviders(configured, heavy, tokenAccounts), heavy);
  }

  // ----- Failover -----

  datatype Attempt = Refused | Answered(value: nat) | Faulted(failure: Failure)

  datatype Visit = Visit(provider: nat, local: nat, attempt: Attempt)

  datatype CallError = NoProvider | BadBudget | RateLimitExhausted(attempts: nat) | Exhausted(attempts: nat)

  /** A failed attempt is followed by another at the same provider only if this says so. */
  predicate RetriesHere(f: Failure, n: nat, total: nat, locals: nat, i: nat, j: nat, used: nat) {
    && f.transient && !f.rateLimited
    && j + 1 < locals
    && total - used > n - i - 1
    && f.retryDelay <= MAX_INLINE_BACKOFF
  }

  /** Everything the loop does from provider `i`, local attempt `j`, with `used` attempts spent. */
  function Visits(env: (nat, nat) -> Attempt, n: nat, total: nat, locals: nat, i: nat, j: nat, used: nat): seq<Visit>
    requires j <= locals
    decreases n - i, locals - j
  {
    if i >= n || used >= total then []
    else if j == locals then Visits(env, n, total, locals, i + 1, 0, used)
    else
      var here := [Visit(i, j, env(i, j))];
      match env(i, j)
      case Refused => here + Visits(env, n, total, locals, i + 1, 0, used)
      case Answered(_) => here
      case Faulted(f) =>
        here + if RetriesHere(f, n, total, locals, i, j, used + 1)
               then Visits(env, n, total, locals, i, j + 1, used + 1)
               else Visits(env, n, total, locals, i + 1, 0, used + 1)
  }

  /** What follows the attempt at `(i, j)`. */
  function Onward(env: (nat, nat) -> Attempt, n: nat, total: nat, locals: nat, i: nat, j: nat, used: nat): seq<Visit>
    requires j < locals
  {
    match env(i, j)
    case Refused => Visits(env, n, total, locals, i + 1, 0, used)
    case Answered(_) => []
    case Faulted(f) =>
      if RetriesHere(f, n, total, locals, i, j, used + 1)
      then Visits(env, n, total, locals, i, j + 1, used + 1)
      else Visits(env, n, total, locals, i + 1, 0, used + 1)
  }

  lemma VisitsUnfold(env: (nat, nat) -> Attempt, n: nat, total: nat, locals: nat, i: nat, j: nat, used: nat)
    requires j < locals && i < n && used < total
    ensures Visits(env, n, total, locals, i, j, used)
            == [Visit(i, j, env(i, j))] + Onward(env, n, total, locals, i, j, used)
  {
  }

  function Attempts(visits: seq<Visit>): nat {
    if visits == [] then 0
    else (if visits[0].attempt.Refused? then 0 else 1) + Attempts(visits[1..])
  }

  predicate AllRateLimited(visits: seq<Visit>) {
    forall v :: v in visits && v.attempt.Faulted? ==> v.attempt.failure.rateLimited
  }

  function Verdict(visits: seq<Visit>): Result<nat, CallError> {
    if visits != [] && visits[|visits| - 1].attempt.Answered? then Ok(visits[|visits| - 1].attempt.value)
    else if Attempts(visits) > 0 && AllRateLimited(visits) then Err(RateLimitExhausted(Attempts(visits)))
    else Err(Exhausted(Attempts(visits)))
  }

  method SolanaRpcCall(env: (nat, nat) -> Attempt, n: nat, total: int, locals: int)
    returns (result: Result<nat, CallError>, visits: seq<Visit>)
    ensures n == 0 ==> result == Err(NoProvider) && visits == []
    ensures n > 0 && !(1 <= total <= MAX_OVERALL_ATTEMPTS && 1 <= locals <= MAX_LOCAL_ATTEMPTS) ==>
              result == Err(BadBudget) && visits == []
    ensures n > 0 && 1 <= total <= MAX_OVERALL_ATTEMPTS && 1 <= locals <= MAX_LOCAL_ATTEMPTS ==>
              visits == Visits(env, n, total, locals, 0, 0, 0) && result == Verdict(visits)
  {
    if n == 0 {
      return Err(NoProvider), [];
    }
    if total <= 0 || total > MAX_OVERALL_ATTEMPTS || locals <= 0 || locals > MAX_LOCAL_ATTEMPTS {
      return Err(BadBudget), [];
    }
    result, visits := Failover(env, n, total, locals);
  }

  /** The loop over providers, once the two budgets are validated. */
  method Failover(env: (nat, nat) -> Attempt, n: nat, total: nat, locals: nat)
    returns (result: Result<nat, CallError>, visits: seq<Visit>)
    requires 0 < total && 0 < locals
    ensures visits == Visits(env, n, total, locals, 0, 0, 0) && result == Verdict(visits)
  {
    hide Visits, Attempts, AllRateLimited, NoAnswer;
    visits := [];
    var used, i := 0, 0;
    EmptyTrace();
    ghost var whole := Visits(env, n, total, locals, 0, 0, 0);
    while i < n && used < total
      invariant i <= n && used <= total && used == Attempts(visits) && NoAnswer(visits)
      invariant whole == visits + Visits(env, n, total, locals, i, 0, used)
    {
      var answer;
      answer, visits, used := TryProvider(env, n, total, locals, i, used, visits);
      if answer.Some? {
        assert visits + [] == visits;
        return Ok(answer.value), visits;
      }
      i := i + 1;
    }
    NothingLeft(env, n, total, locals, i, used);
    assert visits + [] == visits;
    NoAnswerAtEnd(visits);
    result := if used > 0 && AllRateLimited(visits) then Err(RateLimitExhausted(used)) else Err(Exhausted(used));
  }

  lemma EmptyTrace()
    ensures Attempts([]) == 0 && NoAnswer([])
  {
  }

  lemma NoAnswerAtEnd(visits: seq<Visit>)
    requires NoAnswer(visits)
    ensures visits != [] ==> !visits[|visits| - 1].attempt.Answered?
  {
  }

  lemma NothingLeft(env: (nat, nat) -> Attempt, n: nat, total: nat, locals: nat, i: nat, used: nat)
    requires i >= n || used >= total
    ensures Visits(env, n, total, locals, i, 0, used) == []
  {
  }

  predicate NoAnswer(visits: seq<Visit>) {
    forall v :: v in visits ==> !v.attempt.Answered?
  }

  /** The inner loop: local attempts at provider `i` until it answers, is left, or the budget is spent. */
  method TryProvider(
    env: (nat, nat) -> Attempt, n: nat, total: nat, locals: nat, i: nat, spent: nat, before: seq<Visit>)
    returns (answer: Option<nat>, visits: seq<Visit>, used: nat)
    requires i < n && spent < total && 0 < locals && spent == Attempts(before) && NoAnswer(before)
    ensures used == Attempts(visits) <= total
    ensures before + Visits(env, n, total, locals, i, 0, spent)
            == visits + if answer.Some? then [] else Visits(env, n, total, locals, i + 1, 0, used)
    ensures answer.None? ==> NoAnswer(visits)
    ensures answer.Some? ==> visits != [] && visits[|visits| - 1].attempt == Answered(answer.value)
  {
    hide Visits;
    visits, used := before, spent;
    var j := 0;
    while true
      invariant j < locals && used < total && used == Attempts(visits) && NoAnswer(visits)
      invariant before + Visits(env, n, total, locals, i, 0, spent)
                == visits + Visits(env, n, total, locals, i, j, used)
      decreases locals - j
    {
      var attempt := env(i, j);
      VisitsUnfold(env, n, total, locals, i, j, used);
      AttemptsAppend(visits, Visit(i, j, attempt));
      visits := visits + [Visit(i, j, attempt)];
      if attempt.Refused? {
        return None, visits, used;
      }
      used := used + 1;
      match attempt {
        case Answered(value) =>
          return Some(value), visits, used;
        case Faulted(f) =>
          if f.rateLimited || !f.transient || j + 1 >= locals
             || total - used <= n - i - 1 || f.retryDelay > MAX_INLINE_BACKOFF {
            return None, visits, used;
          }
          j := j + 1;
      }
    }
  }

  lemma {:induction false} AttemptsAppend(visits: seq<Visit>, v: Visit)
    ensures Attempts(visits + [v]) == Attempts(visits) + if v.attempt.Refused? then 0 else 1
  {
    if visits != [] {
      assert (visits + [v])[1..] == visits[1..] + [v];
      AttemptsAppend(visits[1..], v);
    }
  }

  // ----- What the failover promises -----

  function MinInt(a: int, b: int): int { if a <= b then a else b }

  /** Attempts never exceed the shared budget nor the local budgets together. */
  lemma BudgetsHold(env: (nat, nat) -> Attempt, n: nat, total: nat, locals: nat)
    requires 0 < locals
    ensures Attempts(Visits(env, n, total, locals, 0, 0, 0)) <= MinInt(total, n * locals)
  {
    BudgetsHoldFrom(env, n, total, locals, 0, 0, 0, n * locals);
  }

  lemma {:induction false} BudgetsHoldFrom(
    env: (nat, nat) -> Attempt, n: nat, total: nat, locals: nat, i: nat, j: nat, used: nat, room: int)
    requires i <= n && j < locals && used <= total
    requires room == (n - i) * locals - j
    ensures Attempts(Visits(env, n, total, locals, i, j, used)) <= MinInt(total - used, if i < n then room else 0)
    decreases n - i, locals - j
  {
    if i < n && used < total {
      hide Visits;
      VisitsUnfold(env, n, total, locals, i, j, used);
      var rest := Onward(env, n, total, locals, i, j, used);
      assert ([Visit(i, j, env(i, j))] + rest)[1..] == rest;
      RoomStep(n, i, locals);
      match env(i, j)
      case Refused => BudgetsHoldFrom(env, n, total, locals, i + 1, 0, used, room + j - locals);
      case Answered(_) =>
      case Faulted(f) =>
        if RetriesHere(f, n, total, locals, i, j, used + 1) {
          BudgetsHoldFrom(env, n, total, locals, i, j + 1, used + 1, room - 1);
        } else {
          BudgetsHoldFrom(env, n, total, locals, i + 1, 0, used + 1, room + j - locals);
        }
    } else if i < n {
      RoomStep(n, i, locals);
    }
  }

  lemma RoomStep(n: nat, i: nat, locals: nat)
    requires i < n
    ensures (n - i) * locals == (n - (i + 1)) * locals + locals && (n - (i + 1)) * locals >= 0
  {
  }

  predicate Visited(visits: seq<Visit>, k: nat) {
    exists v :: v in visits && v.provider == k
  }

  /** As long as the budget still covers this provider and those to come, none of them is starved. */
  lemma {:induction false} LaterProvidersAreReached(
    env: (nat, nat) -> Attempt, n: nat, total: nat, locals: nat, i: nat, j: nat, used: nat, k: nat)
    requires i <= k < n && j < locals && used <= total && total - used >= n - i
    requires NoAnswer(Visits(env, n, total, locals, i, j, used))
    ensures Visited(Visits(env, n, total, locals, i, j, used), k)
    decreases n - i, locals - j
  {
    hide Visits;
    VisitsUnfold(env, n, total, locals, i, j, used);
    var here := Visit(i, j, env(i, j));
    assert here in Visits(env, n, total, locals, i, j, used);
    if k > i {
      match env(i, j)
      case Refused => LaterProvidersAreReached(env, n, total, locals, i + 1, 0, used, k);
      case Answered(_) =>
      case Faulted(f) =>
        if RetriesHere(f, n, total, locals, i, j, used + 1) {
          LaterProvidersAreReached(env, n, total, locals, i, j + 1, used + 1, k);
        } else {
          LaterProvidersAreReached(env, n, total, locals, i + 1, 0, used + 1, k);
        }
    }
  }

  /** The call gives up although provider `k` was neither attempted nor asked for a reservation. */
  ghost predicate Starves(env: (nat, nat) -> Attempt, n: nat, total: nat, locals: nat, k: nat) {
    var visits := Visits(env, n, total, locals, 0, 0, 0);
    k < n && Verdict(visits).Err? && !Visited(visits, k)
  }

  /**
   A budget of at least one attempt per provider is exactly what rules out starvation: with it every
   provider is attempted or refuses before the call gives up, without it some environment starves one.
   */
  lemma NoStarvationExactlyWithinBudget(n: nat, total: nat, locals: nat)
    requires 0 < total && 0 < locals
    ensures (forall env: (nat, nat) -> Attempt, k :: !Starves(env, n, total, locals, k)) <==> total >= n
  {
    if total >= n {
      forall env: (nat, nat) -> Attempt, k
        ensures !Starves(env, n, total, locals, k)
      {
        if Starves(env, n, total, locals, k) {
          OnlyTheLastAnswers(env, n, total, locals, 0, 0, 0);
          LaterProvidersAreReached(env, n, total, locals, 0, 0, 0, k);
        }
      }
    } else {
      var limit := Failure(true, true, false, 1.0);
      var env := (i: nat, j: nat) => Faulted(limit);
      RateLimitedWalk(env, limit, n, total, locals, 0, 0);
      assert Starves(env, n, total, locals, n - 1);
    }
  }

  /** An answer ends the call, so it can only be the last visit. */
  lemma {:induction false} OnlyTheLastAnswers(
    env: (nat, nat) -> Attempt, n: nat, total: nat, locals: nat, i: nat, j: nat, used: nat)
    requires j < locals
    ensures var s := Visits(env, n, total, locals, i, j, used);
            NoAnswer(if s == [] then [] else s[..|s| - 1])
    decreases n - i, locals - j
  {
    if i < n && used < total {
      hide Visits;
      VisitsUnfold(env, n, total, locals, i, j, used);
      var rest := Onward(env, n, total, locals, i, j, used);
      var s := Visits(env, n, total, locals, i, j, used);
      match env(i, j)
      case Refused => OnlyTheLastAnswers(env, n, total, locals, i + 1, 0, used);
      case Answered(_) =>
      case Faulted(f) =>
        if RetriesHere(f, n, total, locals, i, j, used + 1) {
          OnlyTheLastAnswers(env, n, total, locals, i, j + 1, used + 1);
        } else {
          OnlyTheLastAnswers(env, n, total, locals, i + 1, 0, used + 1);
        }
      if rest != [] {
        assert s[..|s| - 1] == [s[0]] + rest[..|rest| - 1];
      }
    }
  }

  /** Rate limits everywhere: one attempt per provider until the budget is gone. */
  lemma {:induction false} RateLimitedWalk(
    env: (nat, nat) -> Attempt, limit: Failure, n: nat, total: nat, locals: nat, i: nat, used: nat)
    requires 0 < locals && limit.rateLimited && (forall a, b :: env(a, b) == Faulted(limit)) && i <= n && used <= total
    ensures var s := Visits(env, n, total, locals, i, 0, used);
            forall v :: v in s ==> v.attempt.Faulted? && i <= v.provider < i + (total - used)
    decreases n - i
  {
    if i < n && used < total {
      RateLimitedWalk(env, limit, n, total, locals, i + 1, used + 1);
    }
  }

  // ----- What follows each attempt -----

  /** After a fault at `(i, j)` with `used` attempts spent the same provider is due another. */
  predicate DueAgain(v: Visit, n: nat, total: nat, locals: nat, used: nat) {
    && v.attempt.Faulted? && v.attempt.failure.transient && !v.attempt.failure.rateLimited
    && v.attempt.failure.retryDelay <= 5.0
    && v.local + 1 < locals && total - used > n - v.provider - 1
  }

  /** The visit at `k`, and what comes after it, when `used` attempts were spent before the walk `s`. */
  predicate Ruled(s: seq<Visit>, k: nat, env: (nat, nat) -> Attempt, n: nat, total: nat, locals: nat, used: nat)
    requires k < |s|
  {
    var v, spent := s[k], used + Attempts(s[..k + 1]);
    && v.provider < n && v.local < locals && v.attempt == env(v.provider, v.local)
    && (k + 1 < |s| <==>
          !v.attempt.Answered? && spent < total && (DueAgain(v, n, total, locals, spent) || v.provider + 1 < n))
    && (k + 1 < |s| ==>
          if DueAgain(v, n, total, locals, spent)
          then s[k + 1].provider == v.provider && s[k + 1].local == v.local + 1
          else s[k + 1].provider == v.provider + 1 && s[k + 1].local == 0)
  }

  lemma {:induction false} WalkIsRuled(
    env: (nat, nat) -> Attempt, n: nat, total: nat, locals: nat, i: nat, j: nat, used: nat)
    requires j < locals
    ensures var s := Visits(env, n, total, locals, i, j, used);
            && (s != [] <==> i < n && used < total)
            && (s != [] ==> s[0].provider == i && s[0].local == j)
            && forall k :: 0 <= k < |s| ==> Ruled(s, k, env, n, total, locals, used)
    decreases n - i, locals - j
  {
    if i < n && used < total {
      VisitsUnfold(env, n, total, locals, i, j, used);
      var s := Visits(env, n, total, locals, i, j, used);
      var v := Visit(i, j, env(i, j));
      var spent := used + if v.attempt.Refused? then 0 else 1;
      assert s[..1] == [v] && [v][1..] == [];
      assert Attempts(s[..1]) == spent - used;
      if v.attempt.Answered? {
        assert Onward(env, n, total, locals, i, j, used) == [];
      } else {
        var again := DueAgain(v, n, total, locals, spent);
        assert v.attempt.Faulted? ==> (again <==> RetriesHere(v.attempt.failure, n, total, locals, i, j, spent));
        var i', j' := if again then i else i + 1, if again then j + 1 else 0;
        var rest := Visits(env, n, total, locals, i', j', spent);
        assert s == [v] + rest;
        WalkIsRuled(env, n, total, locals, i', j', spent);
        hide Visits;
        RuledBehind(v, rest, env, n, total, locals, used);
      }
    }
  }

  /** One more visit in front of a walk. */
  lemma {:induction false} RuledBehind(
    v: Visit, rest: seq<Visit>, env: (nat, nat) -> Attempt, n: nat, total: nat, locals: nat, used: nat)
    requires var spent := used + if v.attempt.Refused? then 0 else 1;
             forall k :: 0 <= k < |rest| ==> Ruled(rest, k, env, n, total, locals, spent)
    ensures forall k :: 0 < k < |[v] + rest| ==> Ruled([v] + rest, k, env, n, total, locals, used)
  {
    var s := [v] + rest;
    forall k | 0 < k < |s|
      ensures Ruled(s, k, env, n, total, locals, used)
    {
      assert s[..k + 1] == [v] + rest[..k];
      assert s[..k + 1][1..] == rest[..k - 1 + 1];
      assert Ruled(rest, k - 1, env, n, total, locals, used + if v.attempt.Refused? then 0 else 1);
      assert s[k] == rest[k - 1];
    }
  }

  /**
   The whole walk, visit by visit: it starts with the first provider; a transient fault that is no rate limit
   and asks for at most 5 s is followed by the same provider exactly while local attempts are left and the
   budget covers more than the later providers; everything but an answer is otherwise followed by the next
   provider, until the budget or the providers are spent.
   */
  lemma WalkFollowsTheRule(env: (nat, nat) -> Attempt, n: nat, total: nat, locals: nat)
    requires 0 < n && 0 < total && 0 < locals
    ensures var s := Visits(env, n, total, locals, 0, 0, 0);
            && s != [] && s[0].provider == 0 && s[0].local == 0
            && forall k :: 0 <= k < |s| ==>
                 var (v, spent) := (s[k], Attempts(s[..k + 1]));
                 var again := && v.attempt.Faulted?
                              && v.attempt.failure.transient && !v.attempt.failure.rateLimited
                              && v.attempt.failure.retryDelay <= 5.0
                              && v.local + 1 < locals && total - spent > n - v.provider - 1;
                 && v.attempt == env(v.provider, v.local)
                 && (k + 1 < |s| ==>
                       s[k + 1].provider == (if again then v.provider else v.provider + 1)
                       && s[k + 1].local == (if again then v.local + 1 else 0))
                 && (k + 1 == |s| <==> v.attempt.Answered? || spent == total || (!again && v.provider + 1 == n))
  {
    WalkIsRuled(env, n, total, locals, 0, 0, 0);
    var s := Visits(env, n, total, locals, 0, 0, 0);
    forall k | 0 <= k < |s|
      ensures Ruled(s, k, env, n, total, locals, 0) && Attempts(s[..k + 1]) <= total
    {
      BudgetsHold(env, n, total, locals);
      AttemptsOfPrefix(s, k + 1);
    }
    hide Visits, Attempts;
    forall k | 0 <= k < |s|
      ensures var (v, spent) := (s[k], Attempts(s[..k + 1]));
              var again := DueAgain(v, n, total, locals, spent);
              && v.attempt == env(v.provider, v.local)
              && (k + 1 < |s| ==>
                    s[k + 1].provider == (if again then v.provider else v.provider + 1)
                    && s[k + 1].local == (if again then v.local + 1 else 0))
              && (k + 1 == |s| <==> v.attempt.Answered? || spent == total || (!again && v.provider + 1 == n))
    {
      assert Ruled(s, k, env, n, total, locals, 0) && Attempts(s[..k + 1]) <= total;
    }
  }

  lemma {:induction false} AttemptsOfPrefix(s: seq<Visit>, k: nat)
    requires k <= |s|
    ensures Attempts(s[..k]) <= Attempts(s)
  {
    if k > 0 {
      assert s[..k][1..] == s[1..][..k - 1];
      AttemptsOfPrefix(s[1..], k - 1);
    }
  }

  /** What was spent is the number of visits that were not refused. */
  lemma {:induction false} AttemptsAreCounted(s: seq<Visit>)
    ensures Attempts(s) == |set k | 0 <= k < |s| && !s[k].attempt.Refused?|
  {
    var hits := set k | 0 <= k < |s| && !s[k].attempt.Refused?;
    if s == [] {
      assert hits == {};
    } else {
      var n := |s| - 1;
      AttemptsAreCounted(s[..n]);
      AttemptsAppend(s[..n], s[n]);
      assert s == s[..n] + [s[n]];
      var fewer := set k | 0 <= k < n && !s[..n][k].attempt.Refused?;
      assert hits == fewer + if s[n].attempt.Refused? then {} else {n};
    }
  }

  /**
   The answer when there was one; otherwise the rate-limit error exactly when some attempt failed and every
   failure was a rate limit, and the plain error in every other case, both with the number of attempts made.
   */
  lemma VerdictExactlyWhen(env: (nat, nat) -> Attempt, n: nat, total: nat, locals: nat)
    requires 0 < n && 0 < total && 0 < locals
    ensures var s := Visits(env, n, total, locals, 0, 0, 0);
            var made := |set k | 0 <= k < |s| && !s[k].attempt.Refused?|;
            var answered := exists k :: 0 <= k < |s| && s[k].attempt.Answered?;
            var failed := exists k :: 0 <= k < |s| && s[k].attempt.Faulted?;
            var limited := forall k :: 0 <= k < |s| && s[k].attempt.Faulted? ==> s[k].attempt.failure.rateLimited;
            && (forall k :: 0 <= k < |s| && s[k].attempt.Answered? ==> Verdict(s) == Ok(s[k].attempt.value))
            && (!answered ==>
                  Verdict(s) == Err(if failed && limited then RateLimitExhausted(made) else Exhausted(made)))
  {
    var s := Visits(env, n, total, locals, 0, 0, 0);
    OnlyTheLastAnswers(env, n, total, locals, 0, 0, 0);
    AttemptsAreCounted(s);
    hide Visits, Attempts;
    forall k | 0 <= k < |s| - 1
      ensures !s[k].attempt.Answered?
    {
      assert s[k] == s[..|s| - 1][k];
    }
    assert AllRateLimited(s) <==>
           forall k :: 0 <= k < |s| && s[k].attempt.Faulted? ==> s[k].attempt.failure.rateLimited;
    if !exists k :: 0 <= k < |s| && s[k].attempt.Answered? {
      var hits := set k | 0 <= k < |s| && !s[k].attempt.Refused?;
      assert |hits| > 0 <==> exists k :: 0 <= k < |s| && s[k].attempt.Faulted? by {
        if k :| 0 <= k < |s| && s[k].attempt.Faulted? {
          assert k in hits;
        } else {
          assert hits == {};
        }
      }
    }
  }
}
