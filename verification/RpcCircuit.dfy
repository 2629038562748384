/**
 Availability of one RPC provider (src/solana_rpc.py): a provider-wide circuit breaker, one more for
 each heavy method, half-open probes under a lease, and request pacing. Reservations and outcomes of
 many concurrent calls reach the provider's state file one at a time, in any order.
 */
module RpcCircuit {
  import opened Wrappers

  const FAILURE_THRESHOLD: nat := 3
  const CIRCUIT_COOLDOWN: real := 60.0
  const HALF_OPEN_LEASE: real := 20.0
  const MAX_BACKOFF: real := 30.0

  datatype Circuit = Closed | Open | HalfOpen

  datatype Method = GetTransaction | GetSignatures | Other(name: nat)

  /** One breaker: the provider's own, or that of a heavy method. */
  datatype Scope = Scope(
    circuit: Circuit, consecutive: nat, lastFailure: Option<real>, cooldownUntil: real,
    leaseUntil: real, openCount: nat)

  const FreshScope: Scope := Scope(Closed, 0, None, 0.0, 0.0, 0)

  datatype Provider = Provider(
    shared: Scope, heavy: map<Method, Scope>, lastRequest: real, requests: nat, successes: nat, failures: nat)

  const FreshProvider: Provider :=
    Provider(FreshScope, map[GetTransaction := FreshScope, GetSignatures := FreshScope], 0.0, 0, 0, 0)

  datatype Reservation = Reservation(probe: bool, methodProbe: bool, requestAt: real)

  datatype Failure = Failure(transient: bool, rateLimited: bool, rpcTransient: bool, retryDelay: real)

  datatype Block = CircuitOpen | LeaseHeld | Cooling

  // ----- The steps as functions -----

  function Max(a: real, b: real): real { if a >= b then a else b }

  function BlockReason(s: Scope, now: real): Option<Block> {
    if s.circuit == Open && s.cooldownUntil > now then Some(CircuitOpen)
    else if s.circuit == HalfOpen && s.leaseUntil > now then Some(LeaseHeld)
    else if s.circuit == Closed && s.cooldownUntil > now then Some(Cooling)
    else None
  }

  /** A reservation for `m` is refused by the shared breaker or by the method's own. */
  function Refusal(st: Provider, m: Method, now: real): Option<Block> {
    if BlockReason(st.shared, now).Some? then BlockReason(st.shared, now)
    else if m in st.heavy then BlockReason(st.heavy[m], now)
    else None
  }

  function Probed(s: Scope, now: real): Scope {
    if s.circuit == Closed then s else s.(circuit := HalfOpen, leaseUntil := now + HALF_OPEN_LEASE)
  }

  /** `wake` is the clock after the pacing sleep; it is not read when no sleep is needed. */
  function RequestTime(st: Provider, now: real, interval: real, wake: real): real {
    if st.lastRequest + interval > now then Max(wake, st.lastRequest + interval) else now
  }

  function Reserve(st: Provider, m: Method, now: real, interval: real, wake: real): (Provider, Option<Reservation>) {
    if Refusal(st, m, now).Some? then (st, None)
    else
      var at := RequestTime(st, now, interval, wake);
      (st.(shared := Probed(st.shared, now),
           heavy := if m in st.heavy then st.heavy[m := Probed(st.heavy[m], now)] else st.heavy,
           lastRequest := at, requests := st.requests + 1),
       Some(Reservation(st.shared.circuit != Closed, m in st.heavy && st.heavy[m].circuit != Closed, at)))
  }

  function Healed(s: Scope): Scope {
    s.(circuit := Closed, consecutive := 0, cooldownUntil := 0.0, leaseUntil := 0.0)
  }

  function Success(st: Provider, m: Method): Provider {
    st.(shared := Healed(st.shared),
        heavy := if m in st.heavy then st.heavy[m := Healed(st.heavy[m])] else st.heavy,
        successes := st.successes + 1)
  }

  predicate MethodScoped(st: Provider, m: Method, f: Failure) {
    m in st.heavy && (f.rateLimited || f.rpcTransient)
  }

  /** A failure charged to breaker `s`; `probe` tells whether the failed request was its half-open probe. */
  function Hit(s: Scope, f: Failure, probe: bool, now: real): Scope {
    var t := s.(lastFailure := Some(now), leaseUntil := 0.0);
    if !f.transient then t.(consecutive := 0, circuit := Closed, cooldownUntil := 0.0)
    else
      var n := s.consecutive + 1;
      var cooled := Max(s.cooldownUntil, now + Max(0.0, f.retryDelay));
      if probe || n >= FAILURE_THRESHOLD then
        t.(consecutive := n, circuit := Open, cooldownUntil := Max(cooled, now + CIRCUIT_COOLDOWN),
           openCount := if s.circuit != Open then s.openCount + 1 else s.openCount)
      else t.(consecutive := n, circuit := Closed, cooldownUntil := cooled)
  }

  function Fail(st: Provider, m: Method, r: Reservation, f: Failure, now: real): Provider {
    var counted := st.(failures := st.failures + 1);
    if MethodScoped(st, m, f) then
      var hit := Hit(st.heavy[m], f, r.methodProbe, now);
      var reopened := if hit.openCount > st.heavy[m].openCount then st.shared.openCount + 1 else st.shared.openCount;
      counted.(heavy := st.heavy[m := hit],
               shared := Healed(st.shared).(lastFailure := Some(now), openCount := reopened))
    else
      counted.(shared := Hit(st.shared, f, r.probe, now),
               heavy := if r.methodProbe && m in st.heavy
                        then st.heavy[m := st.heavy[m].(leaseUntil := 0.0)] else st.heavy)
  }

  // ----- The state file, updated in place -----

  class ProviderFile {
    var shared: Scope
    var heavy: map<Method, Scope>
    var lastRequest: real
    var requests: nat
    var successes: nat
    var failures: nat

    ghost function Model(): Provider
      reads this
    {
      Provider(shared, heavy, lastRequest, requests, successes, failures)
    }

    constructor ()
      ensures Model() == FreshProvider
    {
      shared := FreshScope;
      heavy := map[GetTransaction := FreshScope, GetSignatures := FreshScope];
      lastRequest, requests, successes, failures := 0.0, 0, 0, 0;
    }

    method ReserveSlot(m: Method, now: real, interval: real, wake: real) returns (r: Option<Reservation>)
      modifies this
      ensures Model() == Reserve(old(Model()), m, now, interval, wake).0
      ensures r == Reserve(old(Model()), m, now, interval, wake).1
    {
      if BlockReason(shared, now).Some? {
        return None;
      }
      if m in heavy && BlockReason(heavy[m], now).Some? {
        return None;
      }
      var probe := false;
      if shared.circuit != Closed {
        shared := shared.(circuit := HalfOpen);
        shared := shared.(leaseUntil := now + HALF_OPEN_LEASE);
        probe := true;
      }
      var methodProbe := false;
      if m in heavy && heavy[m].circuit != Closed {
        heavy := heavy[m := heavy[m].(circuit := HalfOpen, leaseUntil := now + HALF_OPEN_LEASE)];
        methodProbe := true;
      } else if m in heavy {
        assert heavy[m := heavy[m]] == heavy;
      }
      var target := lastRequest + interval;
      var at := now;
      if target > now {
        at := Max(wake, target);
      }
      requests := requests + 1;
      lastRequest := at;
      return Some(Reservation(probe, methodProbe, at));
    }

    method RecordSuccess(m: Method)
      modifies this
      ensures Model() == Success(old(Model()), m)
    {
      successes := successes + 1;
      shared := shared.(consecutive := 0);
      shared := shared.(cooldownUntil := 0.0);
      shared := shared.(circuit := Closed);
      shared := shared.(leaseUntil := 0.0);
      if m in heavy {
        var s := heavy[m];
        s := s.(consecutive := 0);
        s := s.(cooldownUntil := 0.0);
        s := s.(circuit := Closed);
        s := s.(leaseUntil := 0.0);
        heavy := heavy[m := s];
      }
    }

    method RecordFailure(m: Method, r: Reservation, f: Failure, now: real)
      modifies this
      ensures Model() == Fail(old(Model()), m, r, f, now)
    {
      failures := failures + 1;
      if m in heavy && (f.rateLimited || f.rpcTransient) {
        var before := heavy[m].openCount;
        var s := Charge(heavy[m], f, r.methodProbe, now);
        heavy := heavy[m := s];
        if s.openCount > before {
          shared := shared.(openCount := shared.openCount + 1);
        }
        shared := shared.(lastFailure := Some(now));
        shared := shared.(consecutive := 0, cooldownUntil := 0.0, circuit := Closed, leaseUntil := 0.0);
      } else {
        shared := Charge(shared, f, r.probe, now);
        if r.methodProbe && m in heavy {
          heavy := heavy[m := heavy[m].(leaseUntil := 0.0)];
        }
      }
    }
  }

  method Charge(before: Scope, f: Failure, probe: bool, now: real) returns (s: Scope)
    ensures s == Hit(before, f, probe, now)
  {
    s := before.(lastFailure := Some(now));
    if f.transient {
      s := s.(consecutive := s.consecutive + 1);
      s := s.(cooldownUntil := Max(s.cooldownUntil, now + Max(0.0, f.retryDelay)));
      if probe || s.consecutive >= FAILURE_THRESHOLD {
        if before.circuit != Open {
          s := s.(openCount := s.openCount + 1);
        }
        s := s.(circuit := Open);
        s := s.(cooldownUntil := Max(s.cooldownUntil, now + CIRCUIT_COOLDOWN));
      } else {
        s := s.(circuit := Closed);
      }
    } else {
      s := s.(consecutive := 0, circuit := Closed, cooldownUntil := 0.0);
    }
    s := s.(leaseUntil := 0.0);
  }

  // ----- Runs -----

  datatype Event =
    | Asked(m: Method, now: real, wake: real)
    | Succeeded(m: Method, r: Reservation, now: real)
    | Failed(m: Method, r: Reservation, f: Failure, now: real)

  datatype Call = Call(m: Method, r: Reservation)

  /**
   The provider with the clock of the last event, the time of the last probe granted per breaker, and the
   granted calls whose outcome is not recorded yet.
   */
  datatype Watch = Watch(
    st: Provider, clock: real, sharedProbe: real, heavyProbe: map<Method, real>, inFlight: set<Call>)

  const StartWatch: Watch :=
    Watch(FreshProvider, 0.0, 0.0, map[GetTransaction := 0.0, GetSignatures := 0.0], {})

  function Granted(w: Watch, e: Event, interval: real): Option<Reservation>
    requires e.Asked?
  {
    Reserve(w.st, e.m, e.now, interval, e.wake).1
  }

  function Observe(w: Watch, e: Event, interval: real): Watch {
    match e
    case Asked(m, now, wake) =>
      var (st, r) := Reserve(w.st, m, now, interval, wake);
      Watch(st, if r.Some? then r.value.requestAt else now,
            if r.Some? && r.value.probe then now else w.sharedProbe,
            if r.Some? && r.value.methodProbe then w.heavyProbe[m := now] else w.heavyProbe,
            if r.Some? then w.inFlight + {Call(m, r.value)} else w.inFlight)
    case Succeeded(m, r, now) =>
      w.(st := Success(w.st, m), clock := now, inFlight := w.inFlight - {Call(m, r)})
    case Failed(m, r, f, now) =>
      w.(st := Fail(w.st, m, r, f, now), clock := now, inFlight := w.inFlight - {Call(m, r)})
  }

  /**
   The clock never goes back, an outcome belongs to a granted call and is recorded once, at any later time
   or never, and retry delays are the bounded ones of the backoff functions.
   */
  predicate Possible(w: Watch, e: Event) {
    && e.now >= w.clock
    && (!e.Asked? ==> Call(e.m, e.r) in w.inFlight)
    && (e.Failed? ==> e.f.retryDelay <= MAX_BACKOFF)
  }

  predicate PossibleRun(w: Watch, es: seq<Event>, interval: real)
    decreases |es|
  {
    es == [] || (Possible(w, es[0]) && PossibleRun(Observe(w, es[0], interval), es[1..], interval))
  }

  function ObserveAll(w: Watch, es: seq<Event>, interval: real): Watch
    decreases |es|
  {
    if es == [] then w else ObserveAll(Observe(w, es[0], interval), es[1..], interval)
  }

  /** Cooling ends within 60 s of the breaker's latest failure, a lease within 20 s of its latest probe. */
  predicate ScopeOk(s: Scope, clock: real, probe: real) {
    && s.cooldownUntil <= (if s.lastFailure.Some? then s.lastFailure.value + CIRCUIT_COOLDOWN else 0.0)
    && (s.lastFailure.Some? ==> 0.0 <= s.lastFailure.value <= clock)
    && (s.leaseUntil <= 0.0 || s.leaseUntil <= probe + HALF_OPEN_LEASE)
    && probe <= clock && clock >= 0.0
    && (s.circuit == Closed ==> s.consecutive < FAILURE_THRESHOLD)
  }

  ghost predicate WatchOk(w: Watch) {
    && w.st.heavy.Keys == {GetTransaction, GetSignatures} == w.heavyProbe.Keys
    && ScopeOk(w.st.shared, w.clock, w.sharedProbe)
    && (forall m :: m in w.st.heavy ==> ScopeOk(w.st.heavy[m], w.clock, w.heavyProbe[m]))
    && w.st.lastRequest <= w.clock
  }

  lemma HitKeepsOk(s: Scope, f: Failure, r: bool, clock: real, probe: real, now: real)
    requires ScopeOk(s, clock, probe) && now >= clock && f.retryDelay <= MAX_BACKOFF
    ensures ScopeOk(Hit(s, f, r, now), now, probe)
  {
  }

  lemma RestKeepsOk(s: Scope, clock: real, probe: real, now: real)
    requires ScopeOk(s, clock, probe) && now >= clock
    ensures ScopeOk(s, now, probe) && ScopeOk(Healed(s), now, probe)
    ensures ScopeOk(s.(leaseUntil := 0.0), now, probe) && ScopeOk(Healed(s).(lastFailure := Some(now)), now, probe)
    ensures forall n :: ScopeOk(Healed(s).(lastFailure := Some(now), openCount := n), now, probe)
  {
  }

  lemma ProbeKeepsOk(s: Scope, clock: real, probe: real, now: real, at: real)
    requires ScopeOk(s, clock, probe) && clock <= now <= at
    ensures ScopeOk(Probed(s, now), at, if s.circuit != Closed then now else probe)
  {
  }

  lemma ObserveKeepsOk(w: Watch, e: Event, interval: real)
    requires WatchOk(w) && Possible(w, e) && interval > 0.0
    ensures WatchOk(Observe(w, e, interval))
  {
    match e
    case Asked(m, now, wake) => AskKeepsOk(w, m, now, wake, interval);
    case Succeeded(m, _, now) =>
      hide ScopeOk, Healed;
      RestKeepsOk(w.st.shared, w.clock, w.sharedProbe, now);
      forall k | k in w.st.heavy {
        RestKeepsOk(w.st.heavy[k], w.clock, w.heavyProbe[k], now);
      }
    case Failed(m, r, f, now) => FailKeepsOk(w, m, r, f, now);
  }

  lemma AskKeepsOk(w: Watch, m: Method, now: real, wake: real, interval: real)
    requires WatchOk(w) && now >= w.clock && interval > 0.0
    ensures WatchOk(Observe(w, Asked(m, now, wake), interval))
  {
    hide ScopeOk, Probed;
    if Refusal(w.st, m, now).Some? {
      RestKeepsOk(w.st.shared, w.clock, w.sharedProbe, now);
      forall k | k in w.st.heavy {
        RestKeepsOk(w.st.heavy[k], w.clock, w.heavyProbe[k], now);
      }
    } else {
      var at := RequestTime(w.st, now, interval, wake);
      ProbeKeepsOk(w.st.shared, w.clock, w.sharedProbe, now, at);
      forall k | k in w.st.heavy
        ensures ScopeOk(w.st.heavy[k], at, w.heavyProbe[k])
        ensures ScopeOk(Probed(w.st.heavy[k], now), at,
                        if w.st.heavy[k].circuit != Closed then now else w.heavyProbe[k])
      {
        RestKeepsOk(w.st.heavy[k], w.clock, w.heavyProbe[k], at);
        ProbeKeepsOk(w.st.heavy[k], w.clock, w.heavyProbe[k], now, at);
      }
    }
  }

  lemma FailKeepsOk(w: Watch, m: Method, r: Reservation, f: Failure, now: real)
    requires WatchOk(w) && now >= w.clock && f.retryDelay <= MAX_BACKOFF
    ensures WatchOk(Observe(w, Failed(m, r, f, now), 1.0))
  {
    hide ScopeOk, Hit, Healed;
    RestKeepsOk(w.st.shared, w.clock, w.sharedProbe, now);
    HitKeepsOk(w.st.shared, f, r.probe, w.clock, w.sharedProbe, now);
    forall k | k in w.st.heavy
      ensures ScopeOk(w.st.heavy[k], now, w.heavyProbe[k])
      ensures ScopeOk(w.st.heavy[k].(leaseUntil := 0.0), now, w.heavyProbe[k])
      ensures ScopeOk(Hit(w.st.heavy[k], f, r.methodProbe, now), now, w.heavyProbe[k])
    {
      RestKeepsOk(w.st.heavy[k], w.clock, w.heavyProbe[k], now);
      HitKeepsOk(w.st.heavy[k], f, r.methodProbe, w.clock, w.heavyProbe[k], now);
    }
  }

  lemma {:induction false} RunKeepsOk(w: Watch, es: seq<Event>, interval: real)
    requires WatchOk(w) && PossibleRun(w, es, interval) && interval > 0.0
    ensures WatchOk(ObserveAll(w, es, interval))
    decreases |es|
  {
    if es != [] {
      ObserveKeepsOk(w, es[0], interval);
      RunKeepsOk(Observe(w, es[0], interval), es[1..], interval);
    }
  }

  /**
   No permanent lockout: whatever happened before, a breaker refuses a reservation only within 60 s of
   its latest failure or within 20 s of its latest probe, and a closed one counts under three failures.
   */
  lemma {:induction false} RefusalsAreRecent(es: seq<Event>, interval: real, m: Method, t: real)
    requires PossibleRun(StartWatch, es, interval) && interval > 0.0 && t >= 0.0
    ensures var w := ObserveAll(StartWatch, es, interval);
            && Recent(w.st.shared, w.sharedProbe, t)
            && (m in w.st.heavy ==> m in w.heavyProbe && Recent(w.st.heavy[m], w.heavyProbe[m], t))
            && (w.st.shared.circuit == Closed ==> w.st.shared.consecutive < FAILURE_THRESHOLD)
  {
    RunKeepsOk(StartWatch, es, interval);
  }

  /** Why breaker `s` refuses at time `t`, if it does, is young enough. */
  predicate Recent(s: Scope, probe: real, t: real) {
    match BlockReason(s, t)
    case None => true
    case Some(LeaseHeld) => t < probe + HALF_OPEN_LEASE
    case Some(_) => s.lastFailure.Some? && t < s.lastFailure.value + CIRCUIT_COOLDOWN
  }

  // ----- Half-open probes are exclusive -----

  predicate OnlyAsks(es: seq<Event>) {
    forall i :: 0 <= i < |es| ==> es[i].Asked?
  }

  predicate AllBefore(es: seq<Event>, limit: real) {
    forall i :: 0 <= i < |es| ==> es[i].now < limit
  }

  /** While a shared probe is out and nothing has been recorded, every other call is refused. */
  lemma {:induction false} SharedProbeIsExclusive(w: Watch, es: seq<Event>, interval: real)
    requires w.st.shared.circuit == HalfOpen
    requires OnlyAsks(es) && AllBefore(es, w.st.shared.leaseUntil)
    ensures ObserveAll(w, es, interval).st == w.st
    decreases |es|
  {
    if es != [] {
      SharedProbeIsExclusive(Observe(w, es[0], interval), es[1..], interval);
    }
  }

  /** What ends a method's lease: a success of it, a failure charged to it, or any failure of its probe. */
  predicate EndsLease(m: Method, e: Event) {
    && !e.Asked? && e.m == m
    && (e.Succeeded? || e.f.rateLimited || e.f.rpcTransient || e.r.methodProbe)
  }

  predicate LeaseHolds(es: seq<Event>, m: Method, limit: real) {
    forall i :: 0 <= i < |es| ==> !EndsLease(m, es[i]) && (es[i].Asked? ==> es[i].now < limit)
  }

  function GrantsFor(w: Watch, es: seq<Event>, interval: real, m: Method): nat
    decreases |es|
  {
    if es == [] then 0
    else (if es[0].Asked? && es[0].m == m && Granted(w, es[0], interval).Some? then 1 else 0)
         + GrantsFor(Observe(w, es[0], interval), es[1..], interval, m)
  }

  /**
   While a method's probe is out, that method gets no second slot, whatever else is asked for and whatever
   outcomes are recorded that do not end its lease.
   */
  lemma {:induction false} MethodProbeIsExclusive(w: Watch, es: seq<Event>, interval: real, m: Method)
    requires m in w.st.heavy && w.st.heavy[m].circuit == HalfOpen
    requires LeaseHolds(es, m, w.st.heavy[m].leaseUntil)
    ensures var v := ObserveAll(w, es, interval);
            m in v.st.heavy && v.st.heavy[m] == w.st.heavy[m]
    ensures GrantsFor(w, es, interval, m) == 0
    decreases |es|
  {
    if es != [] {
      MethodSpared(w, es[0], interval, m);
      hide Observe, EndsLease;
      MethodProbeIsExclusive(Observe(w, es[0], interval), es[1..], interval, m);
    }
  }

  lemma {:induction false} MethodSpared(w: Watch, e: Event, interval: real, m: Method)
    requires m in w.st.heavy && w.st.heavy[m].circuit == HalfOpen
    requires !EndsLease(m, e) && (e.Asked? ==> e.now < w.st.heavy[m].leaseUntil)
    ensures var v := Observe(w, e, interval);
            m in v.st.heavy && v.st.heavy[m] == w.st.heavy[m]
    ensures e.Asked? && e.m == m ==> Granted(w, e, interval).None?
  {
  }

  /** Granting a probe puts the breaker in exactly that state, with the full lease ahead. */
  lemma ProbeTakesTheLease(st: Provider, m: Method, now: real, interval: real, wake: real)
    ensures var (after, r) := Reserve(st, m, now, interval, wake);
            && (r.Some? && r.value.probe ==>
                  after.shared.circuit == HalfOpen && after.shared.leaseUntil == now + HALF_OPEN_LEASE)
            && (r.Some? && r.value.methodProbe ==>
                  && m in after.heavy
                  && after.heavy[m].circuit == HalfOpen && after.heavy[m].leaseUntil == now + HALF_OPEN_LEASE)
            && (r.Some? && !r.value.probe ==> after.shared == st.shared && st.shared.circuit == Closed)
  {
  }

  // ----- Pacing -----

  /** A request goes out exactly when neither breaker is in its way, and then no later than pacing asks. */
  lemma GrantedExactlyWhen(st: Provider, m: Method, now: real, interval: real, wake: real)
    ensures var (after, r) := Reserve(st, m, now, interval, wake);
            && (r.Some? <==>
                  BlockReason(st.shared, now).None? && (m in st.heavy ==> BlockReason(st.heavy[m], now).None?))
            && (r.None? ==> after == st)
            && (r.Some? ==>
                  && after.lastRequest == r.value.requestAt && after.requests == st.requests + 1
                  && (r.value.probe <==> st.shared.circuit != Closed)
                  && (r.value.methodProbe <==> m in st.heavy && st.heavy[m].circuit != Closed)
                  && (now >= st.lastRequest + interval ==> r.value.requestAt == now)
                  && (now < st.lastRequest + interval <= wake ==> r.value.requestAt == wake)
                  && (now < st.lastRequest + interval && wake < st.lastRequest + interval ==>
                        r.value.requestAt == st.lastRequest + interval)
                  && (after.successes, after.failures) == (st.successes, st.failures)
                  && after.heavy.Keys == st.heavy.Keys
                  && forall x :: x in st.heavy && x != m ==> after.heavy[x] == st.heavy[x])
  {
  }

  /** The times at which requests are let out. */
  function RequestTimes(w: Watch, es: seq<Event>, interval: real): seq<real>
    decreases |es|
  {
    if es == [] then []
    else
      var rest := RequestTimes(Observe(w, es[0], interval), es[1..], interval);
      if es[0].Asked? && Granted(w, es[0], interval).Some?
      then [Granted(w, es[0], interval).value.requestAt] + rest else rest
  }

  lemma {:induction false} RequestsAreSpaced(w: Watch, es: seq<Event>, interval: real)
    requires PossibleRun(w, es, interval) && interval > 0.0 && w.st.lastRequest <= w.clock
    ensures var times := RequestTimes(w, es, interval);
            && (times != [] ==> times[0] >= w.st.lastRequest + interval)
            && (forall i :: 0 <= i < |times| - 1 ==> times[i + 1] >= times[i] + interval)
    decreases |es|
  {
    if es != [] {
      RequestsAreSpaced(Observe(w, es[0], interval), es[1..], interval);
    }
  }

  // ----- Heavy methods are isolated -----

  /**
   A heavy method's rate limit blocks no other method: whatever refuses another method afterwards is that
   method's own breaker, untouched; even a provider-wide block that stood before is gone.
   */
  lemma RateLimitStaysScoped(st: Provider, m: Method, x: Method, r: Reservation, f: Failure, now: real, t: real)
    requires MethodScoped(st, m, f) && x != m && t >= 0.0
    ensures var after := Fail(st, m, r, f, now);
            && (x in after.heavy <==> x in st.heavy)
            && (x in st.heavy ==> after.heavy[x] == st.heavy[x])
            && Refusal(after, x, t) == (if x in st.heavy then BlockReason(st.heavy[x], t) else None)
            && (Refusal(after, x, t).Some? ==> Refusal(st, x, t).Some?)
  {
  }

  /**
   Three transient failures in a row that are charged to the provider shut everyone out for the full
   cooldown, whatever methods they were of and whatever stood before.
   */
  lemma ThreeFailuresShutEveryoneOut(
    st: Provider, ms: seq<Method>, rs: seq<Reservation>, fs: seq<Failure>, ts: seq<real>, x: Method, t: real)
    requires |ms| == |rs| == |fs| == |ts| == 3
    requires forall i :: 0 <= i < 3 ==> fs[i].transient && !MethodScoped(st, ms[i], fs[i])
    requires t < ts[2] + CIRCUIT_COOLDOWN
    ensures var st1 := Fail(st, ms[0], rs[0], fs[0], ts[0]);
            var st2 := Fail(st1, ms[1], rs[1], fs[1], ts[1]);
            var st3 := Fail(st2, ms[2], rs[2], fs[2], ts[2]);
            st3.shared.circuit == Open && Refusal(st3, x, t) == Some(CircuitOpen)
  {
  }

  // ----- How an outage ends -----

  /** A transient failure charged to breaker `s`, its probe's own or the third in a row. */
  predicate Trips(s: Scope, charged: bool, probe: bool, e: Event) {
    e.Failed? && charged && e.f.transient && (probe || s.consecutive + 1 >= FAILURE_THRESHOLD)
  }

  /**
   A shared breaker, whatever its state, is open after an outcome, of whichever call, exactly when `Trips`;
   every other outcome closes it and drops the lease of a probe, the failure of a stray older call included.
   */
  lemma OutcomeOpensExactlyWhen(w: Watch, e: Event, interval: real)
    requires !e.Asked?
    ensures var after := Observe(w, e, interval).st.shared;
            var trips := Trips(w.st.shared, !(e.Failed? && MethodScoped(w.st, e.m, e.f)), e.r.probe, e);
            && (after.circuit == Open <==> trips)
            && (!trips ==> after.circuit == Closed)
            && after.leaseUntil == 0.0
            && (trips ==> after.cooldownUntil >= e.now + CIRCUIT_COOLDOWN && after.lastFailure == Some(e.now))
  {
  }

  /**
   The same for the breaker of a heavy method, which only outcomes of that method reach: a failure charged
   to the provider leaves its state alone, but takes the lease when it was the probe's.
   */
  lemma OutcomeOpensMethodExactlyWhen(w: Watch, e: Event, interval: real, k: Method)
    requires !e.Asked? && k in w.st.heavy
    ensures var s := w.st.heavy[k];
            var v := Observe(w, e, interval);
            var charged := e.m == k && (e.Succeeded? || MethodScoped(w.st, e.m, e.f));
            && k in v.st.heavy
            && (charged ==> (v.st.heavy[k].circuit == Open <==> Trips(s, true, e.r.methodProbe, e)))
            && (charged && !Trips(s, true, e.r.methodProbe, e) ==> v.st.heavy[k].circuit == Closed)
            && (charged || (e.m == k && e.r.methodProbe) ==> v.st.heavy[k].leaseUntil == 0.0)
            && (!charged ==> v.st.heavy[k].circuit == s.circuit && v.st.heavy[k].cooldownUntil == s.cooldownUntil)
            && (!charged && !(e.m == k && e.r.methodProbe) ==> v.st.heavy[k] == s)
  {
  }

  /** The breaker refuses every request before `until`: open, or closed and cooling. */
  predicate Shut(s: Scope, until: real) {
    s.circuit != HalfOpen && s.cooldownUntil >= until
  }

  predicate ShutThroughout(w: Watch, es: seq<Event>, interval: real, until: real)
    decreases |es|
  {
    Shut(w.st.shared, until) && (es == [] || ShutThroughout(Observe(w, es[0], interval), es[1..], interval, until))
  }

  /** A request, or the transient failure of a call that is charged to the provider. */
  predicate Prolongs(st: Provider, e: Event) {
    e.Asked? || (e.Failed? && e.f.transient && !MethodScoped(st, e.m, e.f))
  }

  /**
   While the cooldown lasts, one outcome leaves the breaker shut exactly when it is a transient failure
   charged to the provider; a success, a final failure or a heavy method's own failure lets requests out.
   */
  lemma OutcomeKeepsShutExactlyWhen(w: Watch, e: Event, interval: real, until: real)
    requires Shut(w.st.shared, until) && until > 0.0 && (e.Asked? ==> e.now < until)
    ensures var v := Observe(w, e, interval);
            && (Shut(v.st.shared, until) <==> Prolongs(w.st, e))
            && (e.Asked? ==> v.st == w.st && Granted(w, e, interval).None?)
            && v.st.heavy.Keys == w.st.heavy.Keys
            && (!Prolongs(w.st, e) && e.now >= 0.0 ==> BlockReason(v.st.shared, e.now).None?)
  {
  }

  /**
   An open breaker refuses every request until the end of its cooldown exactly when every outcome recorded
   in the meantime is a transient failure charged to the provider.
   */
  lemma {:induction false} CooldownHoldsExactlyWhen(w: Watch, es: seq<Event>, interval: real, until: real)
    requires Shut(w.st.shared, until) && until > 0.0
    requires forall i :: 0 <= i < |es| && es[i].Asked? ==> es[i].now < until
    ensures ShutThroughout(w, es, interval, until) <==> forall i :: 0 <= i < |es| ==> Prolongs(w.st, es[i])
    ensures ShutThroughout(w, es, interval, until) ==> RequestTimes(w, es, interval) == []
    decreases |es|
  {
    if es != [] {
      var v := Observe(w, es[0], interval);
      OutcomeKeepsShutExactlyWhen(w, es[0], interval, until);
      hide Observe, Shut;
      if Prolongs(w.st, es[0]) {
        CooldownHoldsExactlyWhen(v, es[1..], interval, until);
        forall i | 0 < i < |es|
          ensures Prolongs(v.st, es[1..][i - 1]) == Prolongs(w.st, es[i])
        {
        }
      }
    }
  }

  // ----- A wait the provider asked for is kept -----

  /**
   After a transient failure the breaker it is charged to refuses exactly until the latest of the cooldown it
   had, the retry delay, and 60 s when the failure was the third in a row or a probe's own. A final failure
   lets it refuse nothing. The breaker is the method's own when a heavy method fails by a rate limit or an
   RPC-level error, and then the shared one lets everyone pass; otherwise the shared one.
   */
  lemma FailureRefusesExactlyWhen(st: Provider, m: Method, r: Reservation, f: Failure, now: real, t: real)
    requires t >= 0.0
    ensures var after := Fail(st, m, r, f, now);
            var scoped := m in st.heavy && (f.rateLimited || f.rpcTransient);
            var before := if scoped then st.heavy[m] else st.shared;
            var trips := before.consecutive >= 2 || if scoped then r.methodProbe else r.probe;
            && after.heavy.Keys == st.heavy.Keys
            && (BlockReason(if scoped then after.heavy[m] else after.shared, t).Some? <==>
                  f.transient && (t < before.cooldownUntil || t < now + f.retryDelay || t < now
                                  || (trips && t < now + 60.0)))
            && (scoped ==> BlockReason(after.shared, t).None?)
  {
  }

  /** So nothing the breaker is in the way of goes out before the delay is over. */
  lemma RetryDelayIsKept(st: Provider, m: Method, r: Reservation, f: Failure, now: real, x: Method, t: real)
    requires f.transient && now <= t < now + f.retryDelay && now >= 0.0
    ensures var after := Fail(st, m, r, f, now);
            && Refusal(after, m, t).Some?
            && (!(m in st.heavy && (f.rateLimited || f.rpcTransient)) ==> Refusal(after, x, t).Some?)
  {
    FailureRefusesExactlyWhen(st, m, r, f, now, t);
    hide BlockReason;
  }

  /** A breaker refuses while it cools down, a half-open one while its probe's lease lasts. */
  lemma RefusedExactlyWhen(s: Scope, t: real)
    ensures BlockReason(s, t).Some? <==> t < if s.circuit == HalfOpen then s.leaseUntil else s.cooldownUntil
  {
  }

  lemma {:induction false} TimesFollowTheClock(w: Watch, es: seq<Event>, interval: real)
    requires PossibleRun(w, es, interval)
    ensures forall k :: 0 <= k < |RequestTimes(w, es, interval)| ==> RequestTimes(w, es, interval)[k] >= w.clock
    decreases |es|
  {
    if es != [] {
      var v := Observe(w, es[0], interval);
      assert v.clock >= w.clock && (es[0].Asked? && Granted(w, es[0], interval).Some? ==>
               Granted(w, es[0], interval).value.requestAt >= w.clock);
      hide Observe, Granted;
      TimesFollowTheClock(v, es[1..], interval);
    }
  }

  lemma {:induction false} WaitHoldsOverRuns(w: Watch, es: seq<Event>, interval: real, until: real)
    requires PossibleRun(w, es, interval) && (Shut(w.st.shared, until) || w.clock >= until) && until > 0.0
    requires forall i :: 0 <= i < |es| ==> Prolongs(w.st, es[i])
    ensures forall k :: 0 <= k < |RequestTimes(w, es, interval)| ==> RequestTimes(w, es, interval)[k] >= until
    decreases |es|
  {
    TimesFollowTheClock(w, es, interval);
    if es != [] && w.clock < until {
      var v := Observe(w, es[0], interval);
      if es[0].Asked? && es[0].now >= until {
        assert Granted(w, es[0], interval).Some? ==> Granted(w, es[0], interval).value.requestAt >= until;
        assert v.clock >= until;
        hide Observe, Granted, Shut;
        TimesFollowTheClock(v, es[1..], interval);
      } else {
        OutcomeKeepsShutExactlyWhen(w, es[0], interval, until);
        hide Observe, Shut, Granted;
        WaitHoldsOverRuns(v, es[1..], interval, until);
      }
    }
  }

  /**
   After a transient failure charged to the provider no request of any method goes out before the delay it
   asked for is over, as long as only requests and further such failures follow.
   */
  lemma {:induction false} NothingGoesOutBeforeTheDelay(w: Watch, e: Event, es: seq<Event>, interval: real)
    requires e.Failed? && e.f.transient && !(e.m in w.st.heavy && (e.f.rateLimited || e.f.rpcTransient))
    requires w.clock >= 0.0 && Possible(w, e) && PossibleRun(Observe(w, e, interval), es, interval)
    requires forall i :: 0 <= i < |es| && !es[i].Asked? ==>
               && es[i].Failed? && es[i].f.transient
               && !(es[i].m in w.st.heavy && (es[i].f.rateLimited || es[i].f.rpcTransient))
    ensures var times := RequestTimes(Observe(w, e, interval), es, interval);
            forall k :: 0 <= k < |times| ==> times[k] >= e.now + e.f.retryDelay
  {
    var v := Observe(w, e, interval);
    TimesFollowTheClock(v, es, interval);
    if e.f.retryDelay > 0.0 {
      forall i | 0 <= i < |es|
        ensures Prolongs(v.st, es[i])
      {
        assert v.st.heavy.Keys == w.st.heavy.Keys;
      }
      WaitHoldsOverRuns(v, es, interval, e.now + e.f.retryDelay);
    }
  }

  /** The times at which requests of one method are let out. */
  function TimesOf(w: Watch, es: seq<Event>, interval: real, m: Method): seq<real>
    decreases |es|
  {
    if es == [] then []
    else
      var rest := TimesOf(Observe(w, es[0], interval), es[1..], interval, m);
      if es[0].Asked? && es[0].m == m && Granted(w, es[0], interval).Some?
      then [Granted(w, es[0], interval).value.requestAt] + rest else rest
  }

  /** A success of the heavy method, or a final failure of its own, would end its wait; nothing else does. */
  predicate Spares(m: Method, e: Event) {
    e.Asked? || e.m != m || (e.Failed? && (e.f.transient || !(e.f.rateLimited || e.f.rpcTransient)))
  }

  lemma {:induction false} MethodWaitHolds(w: Watch, e: Event, interval: real, m: Method, until: real)
    requires Possible(w, e) && m in w.st.heavy && Shut(w.st.heavy[m], until) && Spares(m, e)
    ensures var v := Observe(w, e, interval);
            && v.clock >= w.clock && m in v.st.heavy
            && (Shut(v.st.heavy[m], until) || v.clock >= until)
            && (e.Asked? && e.m == m && Granted(w, e, interval).Some? ==>
                  Granted(w, e, interval).value.requestAt >= until)
  {
  }

  lemma {:induction false} MethodTimesFollowTheClock(w: Watch, es: seq<Event>, interval: real, m: Method)
    requires PossibleRun(w, es, interval)
    ensures forall k :: 0 <= k < |TimesOf(w, es, interval, m)| ==> TimesOf(w, es, interval, m)[k] >= w.clock
    decreases |es|
  {
    if es != [] {
      var v := Observe(w, es[0], interval);
      assert v.clock >= w.clock && (es[0].Asked? && Granted(w, es[0], interval).Some? ==>
               Granted(w, es[0], interval).value.requestAt >= w.clock);
      hide Observe, Granted;
      MethodTimesFollowTheClock(v, es[1..], interval, m);
    }
  }

  lemma {:induction false} MethodWaitHoldsOverRuns(w: Watch, es: seq<Event>, interval: real, m: Method, until: real)
    requires PossibleRun(w, es, interval) && m in w.st.heavy
    requires Shut(w.st.heavy[m], until) || w.clock >= until
    requires forall i :: 0 <= i < |es| ==> Spares(m, es[i])
    ensures forall k :: 0 <= k < |TimesOf(w, es, interval, m)| ==> TimesOf(w, es, interval, m)[k] >= until
    decreases |es|
  {
    hide Observe, Shut, Granted, Spares;
    if w.clock >= until {
      MethodTimesFollowTheClock(w, es, interval, m);
    } else if es != [] {
      MethodWaitHolds(w, es[0], interval, m, until);
      MethodWaitHoldsOverRuns(Observe(w, es[0], interval), es[1..], interval, m, until);
    }
  }

  /**
   After a heavy method's rate limit or transient RPC error, no request of that method goes out before the
   delay is over, whatever else happens short of a success or a final failure of that method.
   */
  lemma {:induction false} MethodWaitsForTheDelay(w: Watch, e: Event, es: seq<Event>, interval: real)
    requires e.Failed? && e.f.transient && e.m in w.st.heavy && (e.f.rateLimited || e.f.rpcTransient)
    requires Possible(w, e) && PossibleRun(Observe(w, e, interval), es, interval)
    requires forall i :: 0 <= i < |es| && !es[i].Asked? && es[i].m == e.m ==>
               es[i].Failed? && (es[i].f.transient || !(es[i].f.rateLimited || es[i].f.rpcTransient))
    ensures var times := TimesOf(Observe(w, e, interval), es, interval, e.m);
            forall k :: 0 <= k < |times| ==> times[k] >= e.now + e.f.retryDelay
  {
    MethodWaitHoldsOverRuns(Observe(w, e, interval), es, interval, e.m, e.now + e.f.retryDelay);
  }

  // ----- What the counters count -----

  /** Transient failures charged to the provider since the last other outcome. */
  function Streak(heavy: set<Method>, es: seq<Event>): nat {
    if es == [] then 0
    else
      var e := es[|es| - 1];
      if e.Asked? then Streak(heavy, es[..|es| - 1])
      else if e.Failed? && e.f.transient && !(e.m in heavy && (e.f.rateLimited || e.f.rpcTransient))
      then Streak(heavy, es[..|es| - 1]) + 1
      else 0
  }

  /** The same for one heavy method, whose breaker only outcomes of that method reach. */
  function StreakOf(m: Method, es: seq<Event>): nat {
    if es == [] then 0
    else
      var e := es[|es| - 1];
      if e.Asked? || e.m != m || (e.Failed? && !(e.f.rateLimited || e.f.rpcTransient))
      then StreakOf(m, es[..|es| - 1])
      else if e.Failed? && e.f.transient then StreakOf(m, es[..|es| - 1]) + 1
      else 0
  }

  function CountOf(es: seq<Event>, success: bool): nat {
    if es == [] then 0
    else
      var e := es[|es| - 1];
      CountOf(es[..|es| - 1], success) + if !e.Asked? && e.Succeeded? == success then 1 else 0
  }

  lemma {:induction false} ObserveOneMore(w: Watch, es: seq<Event>, interval: real)
    requires es != []
    ensures ObserveAll(w, es, interval)
            == Observe(ObserveAll(w, es[..|es| - 1], interval), es[|es| - 1], interval)
    decreases |es|
  {
    hide Observe;
    if |es| == 1 {
      assert es[1..] == [] && es[..0] == [];
    } else {
      assert es[1..][..|es| - 2] == es[..|es| - 1][1..];
      ObserveOneMore(Observe(w, es[0], interval), es[1..], interval);
    }
  }

  predicate ScopedFailure(heavy: set<Method>, e: Event) {
    e.Failed? && e.m in heavy && (e.f.rateLimited || e.f.rpcTransient)
  }

  lemma {:induction false} CountStep(w: Watch, e: Event, interval: real)
    ensures var st, after := w.st, Observe(w, e, interval).st;
            && after.heavy.Keys == st.heavy.Keys
            && after.shared.consecutive ==
               (if e.Asked? then st.shared.consecutive
                else if e.Failed? && e.f.transient && !ScopedFailure(st.heavy.Keys, e)
                then st.shared.consecutive + 1 else 0)
            && after.successes == st.successes + (if e.Succeeded? then 1 else 0)
            && after.failures == st.failures + (if e.Failed? then 1 else 0)
  {
  }

  lemma {:induction false} CountStepOf(w: Watch, e: Event, interval: real, m: Method)
    requires m in w.st.heavy
    ensures var st, after := w.st, Observe(w, e, interval).st;
            && m in after.heavy
            && after.heavy[m].consecutive ==
               (if e.Asked? || e.m != m || (e.Failed? && !ScopedFailure(st.heavy.Keys, e))
                then st.heavy[m].consecutive
                else if e.Failed? && e.f.transient then st.heavy[m].consecutive + 1 else 0)
  {
  }

  /** The failures in a row, and the counts of outcomes, are those of the events. */
  lemma {:induction false} CountersCount(es: seq<Event>, interval: real)
    ensures var st := ObserveAll(StartWatch, es, interval).st;
            && st.heavy.Keys == {GetTransaction, GetSignatures}
            && st.shared.consecutive == Streak({GetTransaction, GetSignatures}, es)
            && st.successes == CountOf(es, true) && st.failures == CountOf(es, false)
  {
    if es != [] {
      hide Observe;
      ObserveOneMore(StartWatch, es, interval);
      CountersCount(es[..|es| - 1], interval);
      CountStep(ObserveAll(StartWatch, es[..|es| - 1], interval), es[|es| - 1], interval);
    }
  }

  /** Both open counts go up by one exactly when a breaker opens that was not open, a method's in the shared one too. */
  lemma OpeningsAreCounted(st: Provider, m: Method, r: Reservation, f: Failure, now: real)
    ensures var after := Fail(st, m, r, f, now);
            var scoped := m in st.heavy && (f.rateLimited || f.rpcTransient);
            var (before, s) := if scoped then (st.heavy[m], after.heavy[m]) else (st.shared, after.shared);
            var opens := if before.circuit != Open && s.circuit == Open then 1 else 0;
            && s.openCount == before.openCount + opens
            && after.shared.openCount == st.shared.openCount + opens
            && s.lastFailure == after.shared.lastFailure == Some(now)
  {
  }

  lemma {:induction false} MethodStreakIsCounted(es: seq<Event>, interval: real, m: Method)
    requires m == GetTransaction || m == GetSignatures
    ensures var st := ObserveAll(StartWatch, es, interval).st;
            m in st.heavy && st.heavy[m].consecutive == StreakOf(m, es)
  {
    if es != [] {
      hide Observe;
      ObserveOneMore(StartWatch, es, interval);
      MethodStreakIsCounted(es[..|es| - 1], interval, m);
      CountersCount(es[..|es| - 1], interval);
      CountStepOf(ObserveAll(StartWatch, es[..|es| - 1], interval), es[|es| - 1], interval, m);
    }
  }

  // ----- A stray failure ends an outage early -----

  const Plain: Method := Other(0)
  const Slow: Failure := Failure(true, false, false, 2.5)

  function Slot(at: real): Reservation { Reservation(false, false, at) }

  /** A provider whose heavy methods are untouched. */
  function Seen(s: Scope, last: real, counts: (nat, nat, nat), clock: real, probe: real, inFlight: set<Call>): Watch {
    Watch(Provider(s, FreshProvider.heavy, last, counts.0, counts.1, counts.2), clock, probe,
          StartWatch.heavyProbe, inFlight)
  }

  function Ask(now: real): Event { Asked(Plain, now, now) }

  function Miss(r: Reservation, now: real): Event { Failed(Plain, r, Slow, now) }

  lemma AskStep(s: Scope, last: real, n: (nat, nat, nat), clock: real, probe: real, calls: set<Call>, now: real)
    requires BlockReason(s, now).None? && now >= last + 1.0 && now >= clock
    ensures var w := Seen(s, last, n, clock, probe, calls);
            && Possible(w, Ask(now))
            && Observe(w, Ask(now), 1.0)
               == Seen(Probed(s, now), now, (n.0 + 1, n.1, n.2), now, if s.circuit != Closed then now else probe,
                       calls + {Call(Plain, Reservation(s.circuit != Closed, false, now))})
  {
  }

  lemma MissStep(s: Scope, last: real, n: (nat, nat, nat), clock: real, probe: real, calls: set<Call>,
                 r: Reservation, now: real)
    requires now >= clock && Call(Plain, r) in calls && !r.methodProbe
    ensures var w := Seen(s, last, n, clock, probe, calls);
            && Possible(w, Miss(r, now))
            && Observe(w, Miss(r, now), 1.0)
               == Seen(Hit(s, Slow, r.probe, now), last, (n.0, n.1, n.2 + 1), now, probe, calls - {Call(Plain, r)})
  {
    hide Hit;
  }

  lemma SuccessStep(s: Scope, last: real, n: (nat, nat, nat), clock: real, probe: real, calls: set<Call>,
                    r: Reservation, now: real)
    requires now >= clock && Call(Plain, r) in calls
    ensures var w := Seen(s, last, n, clock, probe, calls);
            && Possible(w, Succeeded(Plain, r, now))
            && Observe(w, Succeeded(Plain, r, now), 1.0)
               == Seen(Healed(s), last, (n.0, n.1 + 1, n.2), now, probe, calls - {Call(Plain, r)})
  {
  }

  lemma {:induction false} RunAppend(w: Watch, es: seq<Event>, e: Event, interval: real)
    requires PossibleRun(w, es, interval) && Possible(ObserveAll(w, es, interval), e)
    ensures PossibleRun(w, es + [e], interval)
    ensures ObserveAll(w, es + [e], interval) == Observe(ObserveAll(w, es, interval), e, interval)
    decreases |es|
  {
    if es == [] {
      assert [e][1..] == [];
    } else {
      assert (es + [e])[1..] == es[1..] + [e];
      RunAppend(Observe(w, es[0], interval), es[1..], e, interval);
    }
  }

  /** Five calls are let out, three of them fail, and the breaker opens. */
  const Calls: seq<Event> := [] + [Ask(1.0)] + [Ask(2.0)] + [Ask(3.0)] + [Ask(4.0)] + [Ask(5.0)]
  const Failures: seq<Event> := Calls + [Miss(Slot(1.0), 6.0)] + [Miss(Slot(2.0), 7.0)] + [Miss(Slot(3.0), 8.0)]

  /** After the cooldown a probe; the late success of the fourth call; the probe fails; a second probe. */
  const Probes: seq<Event> :=
    Failures + [Ask(68.0)] + [Succeeded(Plain, Slot(4.0), 69.0)] + [Miss(Reservation(true, false, 68.0), 70.0)]
    + [Ask(130.0)]

  const LastTwo: set<Call> := {Call(Plain, Slot(4.0)), Call(Plain, Slot(5.0))}

  lemma {:induction false} CallsGoOut()
    ensures PossibleRun(StartWatch, Calls, 1.0)
    ensures ObserveAll(StartWatch, Calls, 1.0)
            == Seen(FreshScope, 5.0, (5, 0, 0), 5.0, 0.0,
                    {Call(Plain, Slot(1.0)), Call(Plain, Slot(2.0)), Call(Plain, Slot(3.0))} + LastTwo)
  {
    hide Observe, Possible;
    var c0: set<Call> := {};
    AskStep(FreshScope, 0.0, (0, 0, 0), 0.0, 0.0, c0, 1.0);
    RunAppend(StartWatch, [], Ask(1.0), 1.0);
    var c1 := c0 + {Call(Plain, Slot(1.0))};
    AskStep(FreshScope, 1.0, (1, 0, 0), 1.0, 0.0, c1, 2.0);
    RunAppend(StartWatch, [] + [Ask(1.0)], Ask(2.0), 1.0);
    var c2 := c1 + {Call(Plain, Slot(2.0))};
    AskStep(FreshScope, 2.0, (2, 0, 0), 2.0, 0.0, c2, 3.0);
    RunAppend(StartWatch, [] + [Ask(1.0)] + [Ask(2.0)], Ask(3.0), 1.0);
    var c3 := c2 + {Call(Plain, Slot(3.0))};
    AskStep(FreshScope, 3.0, (3, 0, 0), 3.0, 0.0, c3, 4.0);
    RunAppend(StartWatch, [] + [Ask(1.0)] + [Ask(2.0)] + [Ask(3.0)], Ask(4.0), 1.0);
    var c4 := c3 + {Call(Plain, Slot(4.0))};
    AskStep(FreshScope, 4.0, (4, 0, 0), 4.0, 0.0, c4, 5.0);
    RunAppend(StartWatch, [] + [Ask(1.0)] + [Ask(2.0)] + [Ask(3.0)] + [Ask(4.0)], Ask(5.0), 1.0);
    assert c4 + {Call(Plain, Slot(5.0))}
        == {Call(Plain, Slot(1.0)), Call(Plain, Slot(2.0)), Call(Plain, Slot(3.0))} + LastTwo;
  }

  lemma {:induction false} FailuresTrip()
    ensures PossibleRun(StartWatch, Failures, 1.0)
    ensures ObserveAll(StartWatch, Failures, 1.0)
            == Seen(Scope(Open, 3, Some(8.0), 68.0, 0.0, 1), 5.0, (5, 0, 3), 8.0, 0.0, LastTwo)
  {
    hide Observe, Possible;
    CallsGoOut();
    var c3 := {Call(Plain, Slot(1.0)), Call(Plain, Slot(2.0)), Call(Plain, Slot(3.0))} + LastTwo;
    MissStep(FreshScope, 5.0, (5, 0, 0), 5.0, 0.0, c3, Slot(1.0), 6.0);
    RunAppend(StartWatch, Calls, Miss(Slot(1.0), 6.0), 1.0);
    var c2 := c3 - {Call(Plain, Slot(1.0))};
    MissStep(Scope(Closed, 1, Some(6.0), 8.5, 0.0, 0), 5.0, (5, 0, 1), 6.0, 0.0, c2, Slot(2.0), 7.0);
    RunAppend(StartWatch, Calls + [Miss(Slot(1.0), 6.0)], Miss(Slot(2.0), 7.0), 1.0);
    var c1 := c2 - {Call(Plain, Slot(2.0))};
    MissStep(Scope(Closed, 2, Some(7.0), 9.5, 0.0, 0), 5.0, (5, 0, 2), 7.0, 0.0, c1, Slot(3.0), 8.0);
    RunAppend(StartWatch, Calls + [Miss(Slot(1.0), 6.0)] + [Miss(Slot(2.0), 7.0)], Miss(Slot(3.0), 8.0), 1.0);
    assert c1 - {Call(Plain, Slot(3.0))} == LastTwo;
  }

  lemma {:induction false} SecondProbeGoesOut()
    ensures PossibleRun(StartWatch, Probes, 1.0)
    ensures ObserveAll(StartWatch, Probes, 1.0)
            == Seen(Scope(HalfOpen, 1, Some(70.0), 130.0, 150.0, 2), 130.0, (7, 1, 4), 130.0, 130.0,
                    {Call(Plain, Slot(5.0)), Call(Plain, Reservation(true, false, 130.0))})
  {
    hide Observe, Possible;
    FailuresTrip();
    var probe := Reservation(true, false, 68.0);
    AskStep(Scope(Open, 3, Some(8.0), 68.0, 0.0, 1), 5.0, (5, 0, 3), 8.0, 0.0, LastTwo, 68.0);
    RunAppend(StartWatch, Failures, Ask(68.0), 1.0);
    var c3 := LastTwo + {Call(Plain, probe)};
    SuccessStep(Scope(HalfOpen, 3, Some(8.0), 68.0, 88.0, 1), 68.0, (6, 0, 3), 68.0, 68.0, c3, Slot(4.0), 69.0);
    RunAppend(StartWatch, Failures + [Ask(68.0)], Succeeded(Plain, Slot(4.0), 69.0), 1.0);
    var c2 := c3 - {Call(Plain, Slot(4.0))};
    MissStep(Scope(Closed, 0, Some(8.0), 0.0, 0.0, 1), 68.0, (6, 1, 3), 69.0, 68.0, c2, probe, 70.0);
    RunAppend(StartWatch, Failures + [Ask(68.0)] + [Succeeded(Plain, Slot(4.0), 69.0)], Miss(probe, 70.0), 1.0);
    var c1 := c2 - {Call(Plain, probe)};
    AskStep(Scope(Open, 1, Some(70.0), 130.0, 0.0, 2), 68.0, (6, 1, 4), 70.0, 68.0, c1, 130.0);
    RunAppend(StartWatch, Failures + [Ask(68.0)] + [Succeeded(Plain, Slot(4.0), 69.0)] + [Miss(probe, 70.0)],
              Ask(130.0), 1.0);
    assert c1 + {Call(Plain, Reservation(true, false, 130.0))}
        == {Call(Plain, Slot(5.0)), Call(Plain, Reservation(true, false, 130.0))};
  }

  /**
   A run of the provider in which the failure of an old call closes a breaker whose probe is still out:
   before it every call is refused until 150, after it the next call goes out at 134.
   */
  lemma {:induction false} StrayFailureClosesBreaker()
    ensures var stray := Miss(Slot(5.0), 131.0);
            var before := ObserveAll(StartWatch, Probes, 1.0).st;
            var after := ObserveAll(StartWatch, Probes + [stray], 1.0).st;
            && PossibleRun(StartWatch, Probes + [stray], 1.0)
            && before.shared.circuit == HalfOpen && Refusal(before, Plain, 134.0) == Some(LeaseHeld)
            && after.shared.circuit == Closed && Refusal(after, Plain, 134.0).None?
  {
    hide Observe, Possible;
    SecondProbeGoesOut();
    MissStep(Scope(HalfOpen, 1, Some(70.0), 130.0, 150.0, 2), 130.0, (7, 1, 4), 130.0, 130.0,
             {Call(Plain, Slot(5.0)), Call(Plain, Reservation(true, false, 130.0))}, Slot(5.0), 131.0);
    RunAppend(StartWatch, Probes, Miss(Slot(5.0), 131.0), 1.0);
  }
}
