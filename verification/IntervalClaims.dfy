/**
 `claim_global_interval` (src/state_store.py): one of several processes wins a periodic job by writing
 its own time under the job's key, inside a state-store transaction on the global metrics file.
 */
module IntervalClaims {
  import opened Wrappers
  import opened StateStore

  type Key = nat
  type Metrics = map<Key, real>

  /** The two writers of the metrics file: interval claims, and plain `set_global_metrics` updates. */
  datatype MetricOp = ClaimInterval(key: Key, now: real, interval: real) | SetMetrics(values: Metrics)

  function Previous(m: Metrics, key: Key): real {
    if key in m then m[key] else 0.0
  }

  function Span(interval: real): real {
    if interval > 0.0 then interval else 0.0
  }

  predicate Wins(op: MetricOp, m: Metrics) {
    op.ClaimInterval? && op.now - Previous(m, op.key) >= Span(op.interval)
  }

  /** The mutators; `update_json` rewrites the file even when a claim is refused. */
  function MetricEffect(op: MetricOp, m: Metrics): Effect<Metrics> {
    match op
    case ClaimInterval(key, now, _) => Writes(if Wins(op, m) then m[key := now] else m)
    case SetMetrics(values) => Writes(m + values)
  }

  predicate Successful(c: Commit<Metrics, MetricOp>) {
    Wins(c.call.op, c.before.body)
  }

  /** A plain metric write that stores less than `t` under the key. */
  predicate Lowers(c: Commit<Metrics, MetricOp>, key: Key, t: real) {
    c.call.op.SetMetrics? && key in c.call.op.values && c.call.op.values[key] < t
  }

  ghost predicate LoweredBetween(log: seq<Commit<Metrics, MetricOp>>, i: int, j: int, key: Key, t: real) {
    exists k :: 0 <= i < k < j <= |log| && Lowers(log[k], key, t)
  }

  /** The time stored under a key only falls by a plain write below it. */
  lemma {:induction false} StoredTimeOnlyFallsByWrite(
    log: seq<Commit<Metrics, MetricOp>>, first: Doc<Metrics>, last: Doc<Metrics>, i: nat, j: nat, key: Key)
    requires Chain(MetricEffect, first, log, last) && i < j <= |log|
    requires Successful(log[i]) && log[i].call.op.key == key
    ensures var d := if j < |log| then log[j].before else last;
            Previous(d.body, key) >= log[i].call.op.now || LoweredBetween(log, i, j, key, log[i].call.op.now)
    decreases j
  {
    var d := if j < |log| then log[j].before else last;
    assert log[j - 1].after == d;
    assert Outcome(MetricEffect, log[j - 1].call, log[j - 1].before) == Some(log[j - 1].after);
    if j > i + 1 {
      StoredTimeOnlyFallsByWrite(log, first, last, i, j - 1, key);
      if Lowers(log[j - 1], key, log[i].call.op.now) {
        assert LoweredBetween(log, i, j, key, log[i].call.op.now);
      } else if LoweredBetween(log, i, j - 1, key, log[i].call.op.now) {
        var k :| 0 <= i < k < j - 1 <= |log| && Lowers(log[k], key, log[i].call.op.now);
        assert LoweredBetween(log, i, j, key, log[i].call.op.now);
      }
    }
  }

  /**
   In every run of the store, two successful claims of one key, by whatever processes, are at least the
   later claim's interval apart, unless a plain write between them stored less than the earlier claim.
   */
  lemma SuccessfulClaimsAreSpaced(
    w: World<Metrics, MetricOp>, steps: seq<Step<MetricOp>>, i: nat, j: nat, key: Key)
    requires Initial(w) && w.effect == MetricEffect && Enables(w, steps)
    requires i < j < |After(w, steps).log|
    requires var log := After(w, steps).log;
      && Successful(log[i]) && log[i].call.op.key == key
      && Successful(log[j]) && log[j].call.op.key == key
    ensures var log := After(w, steps).log;
            || log[j].call.op.now - log[i].call.op.now >= Span(log[j].call.op.interval)
            || LoweredBetween(log, i, j, key, log[i].call.op.now)
  {
    RunKeepsInv(w, steps, Current(w));
    var v := After(w, steps);
    StoredTimeOnlyFallsByWrite(v.log, Current(w), Current(v), i, j, key);
  }

  /** A claim that would be granted now although the claim made at `t` is closer than its interval. */
  predicate TooClose(m: Metrics, key: Key, t: real, now: real, interval: real) {
    Wins(ClaimInterval(key, now, interval), m) && now - t < Span(interval)
  }

  /**
   After a successful claim, a later one can be granted too close to it exactly when the stored time is
   below the claimed one, and that takes a plain write of a smaller time since.
   */
  lemma {:induction false} CloserClaimExactlyWhen(
    w: World<Metrics, MetricOp>, steps: seq<Step<MetricOp>>, i: nat, key: Key)
    requires Initial(w) && w.effect == MetricEffect && Enables(w, steps) && i < |After(w, steps).log|
    requires Successful(After(w, steps).log[i]) && After(w, steps).log[i].call.op.key == key
    ensures var v := After(w, steps);
            var t := v.log[i].call.op.now;
            && ((exists now, interval :: TooClose(Current(v).body, key, t, now, interval))
                <==> Previous(Current(v).body, key) < t)
            && (Previous(Current(v).body, key) < t ==> LoweredBetween(v.log, i, |v.log|, key, t))
  {
    RunKeepsInv(w, steps, Current(w));
    var v := After(w, steps);
    var t := v.log[i].call.op.now;
    StoredTimeOnlyFallsByWrite(v.log, Current(w), Current(v), i, |v.log|, key);
    if Previous(Current(v).body, key) < t {
      assert TooClose(Current(v).body, key, t, t, t - Previous(Current(v).body, key));
    }
  }

  /**
   A plain write of a smaller time is enough: after any run in which a claim succeeded and the lock is
   free, a process that stores such a time and one that claims then end with two claims too close.
   */
  lemma {:induction false} SmallerWriteLetsClaimIn(
    w: World<Metrics, MetricOp>, before: seq<Step<MetricOp>>, i: nat, key: Key, smaller: real, p: Proc)
    returns (steps: seq<Step<MetricOp>>)
    requires Initial(w) && w.effect == MetricEffect && Enables(w, before)
    requires var v := After(w, before);
      && v.lock.None? && p !in v.procs && i < |v.log|
      && Successful(v.log[i]) && v.log[i].call.op.key == key && smaller < v.log[i].call.op.now
    ensures Enables(w, before + steps)
    ensures var log := After(w, before + steps).log;
            var j := |After(w, before).log| + 1;
            && |log| == j + 1 && log[..j - 1] == After(w, before).log
            && Successful(log[j]) && log[j].call.op.key == key
            && log[j].call.op.now - log[i].call.op.now < Span(log[j].call.op.interval)
  {
    RunKeepsInv(w, before, Current(w));
    var v := After(w, before);
    var t := v.log[i].call.op.now;
    var write := SetMetrics(map[key := smaller]);
    var claim := ClaimInterval(key, t, t - smaller);
    hide Enables, After, Inv, Whole;
    CallRuns(v, p, write, None);
    var u := After(v, Whole(p, write, None));
    CallRuns(u, p, claim, None);
    hide Initial, Successful;
    assert Successful(After(u, Whole(p, claim, None)).log[|v.log| + 1]) by {
      assert Previous(Current(u).body, key) == smaller;
    }
    RunConcat(v, Whole(p, write, None), Whole(p, claim, None));
    steps := Whole(p, write, None) + Whole(p, claim, None);
    RunConcat(w, before, steps);
  }

  /** From an empty metrics file: a claim, a plain write of 0 under its key, and a second claim at the same time. */
  lemma {:induction false} TwoClaimsAtOnce(w: World<Metrics, MetricOp>, key: Key)
    returns (steps: seq<Step<MetricOp>>)
    requires Initial(w) && w.effect == MetricEffect && Current(w).body == map[]
    ensures Enables(w, steps)
    ensures var log := After(w, steps).log;
            && |log| == 3 && Successful(log[0]) && Successful(log[2])
            && log[0].call.op.key == log[2].call.op.key == key
            && log[2].call.op.now - log[0].call.op.now < Span(log[2].call.op.interval)
  {
    var claim := ClaimInterval(key, 100.0, 60.0);
    CallRuns(w, 0, claim, None);
    var first := Whole(0, claim, None);
    steps := SmallerWriteLetsClaimIn(w, first, 0, key, 0.0, 0);
    hide Enables, After, Whole;
    assert After(w, first + steps).log[0] == After(w, first).log[0];
    steps := first + steps;
  }
}
