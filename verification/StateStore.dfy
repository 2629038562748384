/**
 Cross-process JSON transactions (src/state_store.py): lock, reread, compare the version, mutate, write
 a temporary file, replace, unlock. Any number of processes interleave, lock waits may time out, writes
 may fail and a process may die between any two of these steps.

 The OS supplies three facts: the lock is exclusive, a dead process loses it, and replacement is atomic.
 The store is generic in the document body `T` and in the operations `O` that callers run on it.
 */
module StateStore {
  import opened Wrappers

  type Proc = nat

  datatype Doc<T> = Doc(version: int, body: T)

  /** What an operation does to a body: raise, leave the file alone (an idle migration), or write. */
  datatype Effect<T> = Raises | Leaves | Writes(body: T)

  /** One call of `update_json` or `migrate_json`. */
  datatype Call<O> = Call(id: nat, op: O, expected: Option<int>)

  datatype Phase<T, O> =
    | Waiting(call: Call<O>)
    | Locked(call: Call<O>)
    | Loaded(call: Call<O>, doc: Doc<T>)
    | Mutated(call: Call<O>, doc: Doc<T>)
    | Written(call: Call<O>, doc: Doc<T>)
    | Leaving(call: Call<O>, verdict: Verdict)

  /** What the caller is told: its change was written, an idle migration, or an exception. */
  datatype Verdict = Wrote | Idle | Failed

  datatype Commit<T, O> = Commit(call: Call<O>, before: Doc<T>, after: Doc<T>)

  datatype World<!T, !O> = World(
    effect: (O, T) -> Effect<T>, fallback: Doc<T>, file: Option<Doc<T>>, lock: Option<Proc>,
    procs: map<Proc, Phase<T, O>>, nextId: nat, log: seq<Commit<T, O>>, returned: map<nat, Verdict>)

  datatype Step<O> =
    | Begin(p: Proc, op: O, expected: Option<int>)
    | Acquire(p: Proc)
    | TimeOut(p: Proc)
    | Load(p: Proc)
    | Mutate(p: Proc)
    | WriteTemp(p: Proc)
    | WriteFails(p: Proc)
    | Replace(p: Proc)
    | Unlock(p: Proc)
    | Die(p: Proc)

  /** What a reader sees: the file, or the caller's fallback when there is none yet. */
  function Current<T, O>(w: World<T, O>): Doc<T> {
    if w.file.Some? then w.file.value else w.fallback
  }

  /** The document a call would write over `d`; none when it raises, conflicts or changes nothing. */
  function Outcome<T, O>(effect: (O, T) -> Effect<T>, call: Call<O>, d: Doc<T>): Option<Doc<T>> {
    if call.expected.Some? && d.version != call.expected.value then None
    else
      match effect(call.op, d.body)
      case Writes(body) => Some(Doc(d.version + 1, body))
      case _ => None
  }

  /** An idle migration succeeds without a write; everything else that does not write has raised. */
  function Quiet<T, O>(effect: (O, T) -> Effect<T>, call: Call<O>, d: Doc<T>): bool {
    (call.expected.None? || d.version == call.expected.value) && effect(call.op, d.body).Leaves?
  }

  predicate Critical<T, O>(f: Phase<T, O>) { !f.Waiting? }

  predicate Enabled<T, O>(w: World<T, O>, s: Step<O>) {
    match s
    case Begin(p, _, _) => p !in w.procs
    case Acquire(p) => p in w.procs && w.procs[p].Waiting? && w.lock.None?
    case TimeOut(p) => p in w.procs && w.procs[p].Waiting?
    case Load(p) => p in w.procs && w.procs[p].Locked?
    case Mutate(p) => p in w.procs && w.procs[p].Loaded?
    case WriteTemp(p) => p in w.procs && w.procs[p].Mutated?
    case WriteFails(p) => p in w.procs && (w.procs[p].Mutated? || w.procs[p].Written?)
    case Replace(p) => p in w.procs && w.procs[p].Written?
    case Unlock(p) => p in w.procs && w.procs[p].Leaving?
    case Die(p) => p in w.procs
  }

  function Next<T, O>(w: World<T, O>, s: Step<O>): World<T, O>
    requires Enabled(w, s)
  {
    match s
    case Begin(p, op, expected) =>
      w.(procs := w.procs[p := Waiting(Call(w.nextId, op, expected))], nextId := w.nextId + 1)
    case Acquire(p) => w.(lock := Some(p), procs := w.procs[p := Locked(w.procs[p].call)])
    case TimeOut(p) => w.(procs := w.procs - {p}, returned := w.returned[w.procs[p].call.id := Failed])
    case Load(p) => w.(procs := w.procs[p := Loaded(w.procs[p].call, Current(w))])
    case Mutate(p) =>
      var f := w.procs[p];
      var out := Outcome(w.effect, f.call, f.doc);
      w.(procs := w.procs[p := if out.Some? then Mutated(f.call, out.value)
                               else Leaving(f.call, if Quiet(w.effect, f.call, f.doc) then Idle else Failed)])
    case WriteTemp(p) => w.(procs := w.procs[p := Written(w.procs[p].call, w.procs[p].doc)])
    case WriteFails(p) => w.(procs := w.procs[p := Leaving(w.procs[p].call, Failed)])
    case Replace(p) =>
      var f := w.procs[p];
      w.(file := Some(f.doc), procs := w.procs[p := Leaving(f.call, Wrote)],
         log := w.log + [Commit(f.call, Current(w), f.doc)])
    case Unlock(p) =>
      var f := w.procs[p];
      w.(lock := None, procs := w.procs - {p}, returned := w.returned[f.call.id := f.verdict])
    case Die(p) =>
      w.(lock := if w.lock == Some(p) then None else w.lock, procs := w.procs - {p})
  }

  ghost predicate Enables<T(!new), O(!new)>(w: World<T, O>, steps: seq<Step<O>>)
    decreases |steps|
  {
    steps == [] || (Enabled(w, steps[0]) && Enables(Next(w, steps[0]), steps[1..]))
  }

  ghost function After<T(!new), O(!new)>(w: World<T, O>, steps: seq<Step<O>>): World<T, O>
    requires Enables(w, steps)
    decreases |steps|
  {
    if steps == [] then w else After(Next(w, steps[0]), steps[1..])
  }

  // ----- Invariant -----

  /** Whoever is past the lock wait holds the lock, so there is at most one of them. */
  ghost predicate MutexOk<T, O>(w: World<T, O>) {
    && (forall p :: p in w.procs && Critical(w.procs[p]) ==> w.lock == Some(p))
    && (w.lock.Some? ==> w.lock.value in w.procs && Critical(w.procs[w.lock.value]))
  }

  /** The holder's copy is never stale. */
  ghost predicate FreshOk<T, O>(w: World<T, O>) {
    forall p :: p in w.procs ==>
      && (w.procs[p].Loaded? ==> w.procs[p].doc == Current(w))
      && (w.procs[p].Mutated? || w.procs[p].Written? ==>
            Outcome(w.effect, w.procs[p].call, Current(w)) == Some(w.procs[p].doc))
  }

  /** The commits chain from the first document to the current one, each the outcome of its own call. */
  ghost predicate Chain<T, O>(effect: (O, T) -> Effect<T>, first: Doc<T>, log: seq<Commit<T, O>>, last: Doc<T>) {
    && (if log == [] then last == first else log[0].before == first && log[|log| - 1].after == last)
    && (forall i :: 0 <= i < |log| ==> Outcome(effect, log[i].call, log[i].before) == Some(log[i].after))
    && (forall i :: 0 <= i < |log| - 1 ==> log[i].after == log[i + 1].before)
  }

  function CommittedIds<T, O>(log: seq<Commit<T, O>>): set<nat> {
    set i | 0 <= i < |log| :: log[i].call.id
  }

  ghost predicate IdsDistinct<T, O>(w: World<T, O>) {
    && (forall p :: p in w.procs ==> w.procs[p].call.id < w.nextId && w.procs[p].call.id !in w.returned)
    && (forall p, q :: p in w.procs && q in w.procs && p != q ==> w.procs[p].call.id != w.procs[q].call.id)
    && (forall n :: n in w.returned ==> n < w.nextId)
  }

  ghost predicate LogDistinct<T, O>(w: World<T, O>) {
    && (forall n :: n in CommittedIds(w.log) ==> n < w.nextId)
    && (forall i, j :: 0 <= i < j < |w.log| ==> w.log[i].call.id != w.log[j].call.id)
  }

  /** A call is committed exactly when it is about to say, or has said, that it wrote. */
  ghost predicate AnswersOk<T, O>(w: World<T, O>) {
    && (forall p :: p in w.procs ==>
          (w.procs[p].call.id in CommittedIds(w.log) <==> w.procs[p].Leaving? && w.procs[p].verdict == Wrote))
    && (forall n :: n in w.returned ==> (n in CommittedIds(w.log) <==> w.returned[n] == Wrote))
  }

  ghost predicate IdsOk<T, O>(w: World<T, O>) {
    IdsDistinct(w) && LogDistinct(w) && AnswersOk(w)
  }

  ghost predicate Inv<T, O>(w: World<T, O>, first: Doc<T>) {
    MutexOk(w) && FreshOk(w) && IdsOk(w) && Chain(w.effect, first, w.log, Current(w))
  }

  ghost predicate Initial<T, O>(w: World<T, O>) {
    w.lock.None? && w.procs == map[] && w.log == [] && w.returned == map[]
  }

  lemma {:induction false} StepKeepsMutex<T(!new), O(!new)>(w: World<T, O>, s: Step<O>)
    requires MutexOk(w) && FreshOk(w) && Enabled(w, s)
    ensures MutexOk(Next(w, s)) && FreshOk(Next(w, s))
  {
  }

  lemma StepKeepsIds<T(!new), O(!new)>(w: World<T, O>, s: Step<O>)
    requires IdsOk(w) && Enabled(w, s)
    ensures IdsOk(Next(w, s))
  {
    hide Outcome, Quiet, CommittedIds;
    StepKeepsDistinct(w, s);
    if s.Replace? {
      ReplaceKeepsAnswers(w, s);
    } else {
    }
  }

  lemma {:induction false} StepKeepsDistinct<T(!new), O(!new)>(w: World<T, O>, s: Step<O>)
    requires IdsDistinct(w) && Enabled(w, s)
    ensures IdsDistinct(Next(w, s))
  {
    hide Outcome, Quiet;
  }

  lemma ReplaceKeepsAnswers<T(!new), O(!new)>(w: World<T, O>, s: Step<O>)
    requires IdsOk(w) && Enabled(w, s) && s.Replace?
    ensures LogDistinct(Next(w, s)) && AnswersOk(Next(w, s))
  {
    hide CommittedIds;
    CommitAddsId(w.log, Commit(w.procs[s.p].call, Current(w), w.procs[s.p].doc));
  }

  lemma CommitAddsId<T, O>(log: seq<Commit<T, O>>, c: Commit<T, O>)
    ensures CommittedIds(log + [c]) == CommittedIds(log) + {c.call.id}
    ensures forall i :: 0 <= i < |log| ==> log[i].call.id in CommittedIds(log)
  {
    assert (log + [c])[|log|] == c;
    forall n | n in CommittedIds(log)
      ensures n in CommittedIds(log + [c])
    {
      var i :| 0 <= i < |log| && log[i].call.id == n;
      assert (log + [c])[i].call.id == n;
    }
  }

  lemma {:induction false} StepKeepsChain<T(!new), O(!new)>(w: World<T, O>, s: Step<O>, first: Doc<T>)
    requires FreshOk(w) && Chain(w.effect, first, w.log, Current(w)) && Enabled(w, s)
    ensures Chain(w.effect, first, Next(w, s).log, Current(Next(w, s))) && Next(w, s).effect == w.effect
  {
    hide Outcome, Quiet;
  }

  lemma {:induction false} RunKeepsInv<T(!new), O(!new)>(w: World<T, O>, steps: seq<Step<O>>, first: Doc<T>)
    requires Inv(w, first) && Enables(w, steps)
    ensures Inv(After(w, steps), first) && After(w, steps).effect == w.effect
    decreases |steps|
  {
    if steps != [] {
      StepKeepsMutex(w, steps[0]);
      StepKeepsIds(w, steps[0]);
      StepKeepsChain(w, steps[0], first);
      RunKeepsInv(Next(w, steps[0]), steps[1..], first);
    }
  }

  // ----- What a run leaves behind -----

  /** Applying the committed calls one after the other, each to the document the previous one left. */
  function Fold<T, O>(effect: (O, T) -> Effect<T>, d: Doc<T>, log: seq<Commit<T, O>>): Option<Doc<T>> {
    if log == [] then Some(d)
    else
      var before := Fold(effect, d, log[..|log| - 1]);
      if before.None? then None else Outcome(effect, log[|log| - 1].call, before.value)
  }

  lemma {:induction false} ChainFolds<T(!new), O(!new)>(
    effect: (O, T) -> Effect<T>, first: Doc<T>, log: seq<Commit<T, O>>, last: Doc<T>)
    requires Chain(effect, first, log, last)
    ensures Fold(effect, first, log) == Some(last) && last.version == first.version + |log|
  {
    if log != [] {
      var n := |log| - 1;
      ChainFolds(effect, first, log[..n], log[n].before);
    }
  }

  /**
   No update is lost: whatever interleaving, timeout, failure or death happened, the file is the fold of
   the committed calls in commit order, and the version counts them.
   */
  lemma FileIsFoldOfCommits<T(!new), O(!new)>(w: World<T, O>, steps: seq<Step<O>>)
    requires Initial(w) && Enables(w, steps)
    ensures var v := After(w, steps);
            && Fold(w.effect, Current(w), v.log) == Some(Current(v))
            && Current(v).version == Current(w).version + |v.log|
  {
    RunKeepsInv(w, steps, Current(w));
    var v := After(w, steps);
    ChainFolds(w.effect, Current(w), v.log, Current(v));
  }

  /** A commit that named an expected version was made on exactly that version, still current. */
  lemma ExpectedVersionWasCurrent<T(!new), O(!new)>(w: World<T, O>, steps: seq<Step<O>>, i: nat)
    requires Initial(w) && Enables(w, steps) && i < |After(w, steps).log|
    ensures var c := After(w, steps).log[i];
            && (c.call.expected.Some? ==> c.before.version == c.call.expected.value)
            && c.after.version == c.before.version + 1
            && c.before == if i == 0 then Current(w) else After(w, steps).log[i - 1].after
  {
    RunKeepsInv(w, steps, Current(w));
  }

  /** A call commits at most once, and a caller that got an answer was told so exactly when it did. */
  lemma AnswersTellTheTruth<T(!new), O(!new)>(w: World<T, O>, steps: seq<Step<O>>)
    requires Initial(w) && Enables(w, steps)
    ensures var v := After(w, steps);
            && (forall i, j :: 0 <= i < j < |v.log| ==> v.log[i].call.id != v.log[j].call.id)
            && (forall n :: n in v.returned ==> (v.returned[n] == Wrote <==> n in CommittedIds(v.log)))
  {
    RunKeepsInv(w, steps, Current(w));
  }

  // ----- One call after another -----

  /** The steps of one call that finds the lock free and nothing in its way. */
  function Whole<O>(p: Proc, op: O, expected: Option<int>): seq<Step<O>> {
    [Begin(p, op, expected), Acquire(p), Load(p), Mutate(p), WriteTemp(p), Replace(p), Unlock(p)]
  }

  /**
   A call that expects no version or the current one, and whose mutator writes, can run undisturbed whenever
   nobody holds the lock, and commits what its mutator wrote under the next version.
   */
  lemma {:induction false} CallRuns<T(!new), O(!new)>(w: World<T, O>, p: Proc, op: O, expected: Option<int>)
    requires w.lock.None? && p !in w.procs && w.effect(op, Current(w).body).Writes?
    requires expected.None? || expected.value == Current(w).version
    ensures Enables(w, Whole(p, op, expected))
    ensures var after := Doc(Current(w).version + 1, w.effect(op, Current(w).body).body);
            After(w, Whole(p, op, expected))
            == w.(file := Some(after), nextId := w.nextId + 1, returned := w.returned[w.nextId := Wrote],
                  log := w.log + [Commit(Call(w.nextId, op, expected), Current(w), after)])
  {
    var after := Doc(Current(w).version + 1, w.effect(op, Current(w).body).body);
    var call := Call(w.nextId, op, expected);
    var w3 := w.(nextId := w.nextId + 1, lock := Some(p), procs := w.procs[p := Loaded(call, Current(w))]);
    var w5 := w3.(procs := w.procs[p := Written(call, after)]);
    hide Enables, After;
    assert w3.procs[p := Written(call, after)] == w5.procs && w5.procs - {p} == w.procs;
    assert Whole(p, op, expected) == [Begin(p, op, expected), Acquire(p), Load(p)]
                           + ([Mutate(p), WriteTemp(p)] + [Replace(p), Unlock(p)]);
    BeginToLoad(w, p, op, expected);
    MutateToWrite(w3, p, after);
    ReplaceToUnlock(w5, p);
    RunConcat(w3, [Mutate(p), WriteTemp(p)], [Replace(p), Unlock(p)]);
    RunConcat(w, [Begin(p, op, expected), Acquire(p), Load(p)], [Mutate(p), WriteTemp(p)] + [Replace(p), Unlock(p)]);
  }

  /**
   A call that does not write leaves the file alone: it is told `Idle` when its mutator had nothing to do, and
   that it failed when the mutator raised or the version it expects is not the current one.
   */
  lemma {:induction false} QuietCallRuns<T(!new), O(!new)>(w: World<T, O>, p: Proc, op: O, expected: Option<int>)
    requires w.lock.None? && p !in w.procs
    requires !w.effect(op, Current(w).body).Writes? || (expected.Some? && expected.value != Current(w).version)
    ensures var steps := [Begin(p, op, expected), Acquire(p), Load(p)] + ([Mutate(p)] + [Unlock(p)]);
            var matches := expected.None? || expected.value == Current(w).version;
            && Enables(w, steps)
            && After(w, steps)
               == w.(nextId := w.nextId + 1,
                     returned := w.returned[w.nextId := if matches && w.effect(op, Current(w).body).Leaves?
                                                        then Idle else Failed])
  {
    var call := Call(w.nextId, op, expected);
    var w3 := w.(nextId := w.nextId + 1, lock := Some(p), procs := w.procs[p := Loaded(call, Current(w))]);
    var w4 := Next(w3, Mutate(p));
    BeginToLoad(w, p, op, expected);
    RunOfOne(w3, Mutate(p));
    RunOfOne(w4, Unlock(p));
    hide Enables, After;
    RunConcat(w3, [Mutate(p)], [Unlock(p)]);
    RunConcat(w, [Begin(p, op, expected), Acquire(p), Load(p)], [Mutate(p)] + [Unlock(p)]);
    assert w4.procs - {p} == w.procs;
  }

  lemma {:induction false} BeginToLoad<T(!new), O(!new)>(w: World<T, O>, p: Proc, op: O, expected: Option<int>)
    requires w.lock.None? && p !in w.procs
    ensures Enables(w, [Begin(p, op, expected), Acquire(p), Load(p)])
    ensures After(w, [Begin(p, op, expected), Acquire(p), Load(p)])
            == w.(nextId := w.nextId + 1, lock := Some(p),
                  procs := w.procs[p := Loaded(Call(w.nextId, op, expected), Current(w))])
  {
    var w1 := Next(w, Begin(p, op, expected));
    var w2 := Next(w1, Acquire(p));
    var w3 := Next(w2, Load(p));
    RunOfOne(w, Begin(p, op, expected));
    RunOfOne(w1, Acquire(p));
    RunOfOne(w2, Load(p));
    RunConcat(w1, [Acquire(p)], [Load(p)]);
    RunConcat(w, [Begin(p, op, expected)], [Acquire(p)] + [Load(p)]);
    assert [Begin(p, op, expected)] + ([Acquire(p)] + [Load(p)]) == [Begin(p, op, expected), Acquire(p), Load(p)];
  }

  lemma {:induction false} MutateToWrite<T(!new), O(!new)>(w: World<T, O>, p: Proc, after: Doc<T>)
    requires p in w.procs && w.procs[p].Loaded?
    requires Outcome(w.effect, w.procs[p].call, w.procs[p].doc) == Some(after)
    ensures Enables(w, [Mutate(p), WriteTemp(p)])
    ensures After(w, [Mutate(p), WriteTemp(p)]) == w.(procs := w.procs[p := Written(w.procs[p].call, after)])
  {
    var w1 := Next(w, Mutate(p));
    RunOfOne(w, Mutate(p));
    RunOfOne(w1, WriteTemp(p));
    RunConcat(w, [Mutate(p)], [WriteTemp(p)]);
    assert [Step<O>.Mutate(p)] + [WriteTemp(p)] == [Mutate(p), WriteTemp(p)];
  }

  lemma {:induction false} ReplaceToUnlock<T(!new), O(!new)>(w: World<T, O>, p: Proc)
    requires p in w.procs && w.procs[p].Written?
    ensures Enables(w, [Replace(p), Unlock(p)])
    ensures var f := w.procs[p];
            After(w, [Replace(p), Unlock(p)])
            == w.(file := Some(f.doc), lock := None, procs := w.procs - {p},
                  log := w.log + [Commit(f.call, Current(w), f.doc)], returned := w.returned[f.call.id := Wrote])
  {
    var w1 := Next(w, Replace(p));
    RunOfOne(w, Replace(p));
    RunOfOne(w1, Unlock(p));
    RunConcat(w, [Replace(p)], [Unlock(p)]);
    assert [Step<O>.Replace(p)] + [Unlock(p)] == [Replace(p), Unlock(p)];
  }

  lemma RunOfOne<T(!new), O(!new)>(w: World<T, O>, s: Step<O>)
    requires Enabled(w, s)
    ensures Enables(w, [s]) && After(w, [s]) == Next(w, s)
  {
    assert [s][1..] == [];
  }

  lemma {:induction false} RunConcat<T(!new), O(!new)>(w: World<T, O>, first: seq<Step<O>>, rest: seq<Step<O>>)
    requires Enables(w, first) && Enables(After(w, first), rest)
    ensures Enables(w, first + rest) && After(w, first + rest) == After(After(w, first), rest)
    decreases |first|
  {
    if first == [] {
      assert first + rest == rest;
    } else {
      assert (first + rest)[1..] == first[1..] + rest;
      RunConcat(Next(w, first[0]), first[1..], rest);
    }
  }

  // ----- One transaction as the code runs it -----

  datatype Failure = LockTimeout | VersionConflict | MutatorRaised | WriteFailed

  class StateFile<T(!new), O(!new)> {
    const effect: (O, T) -> Effect<T>
    const fallback: Doc<T>
    var file: Option<Doc<T>>
    var locked: bool

    ghost function Document(): Doc<T>
      reads this
    {
      if file.Some? then file.value else fallback
    }

    constructor (effect: (O, T) -> Effect<T>, fallback: Doc<T>)
      ensures Document() == fallback && !locked && this.effect == effect
    {
      this.effect := effect;
      this.fallback := fallback;
      file := None;
      locked := false;
    }

    /**
     `update_json` for operations that never return `Leaves`, `migrate_json` for the others: the file
     becomes exactly the call's outcome, or keeps its old content when anything goes wrong.
     */
    method Transact(call: Call<O>, lockBusy: bool, diskFails: bool) returns (r: Result<bool, Failure>)
      requires !locked
      modifies this
      ensures !locked
      ensures r.Ok? && r.value ==> Outcome(effect, call, old(Document())) == Some(Document())
      ensures !(r.Ok? && r.value) ==> Document() == old(Document())
      ensures r == (if lockBusy then Err(LockTimeout)
                    else if call.expected.Some? && old(Document()).version != call.expected.value
                    then Err(VersionConflict)
                    else match effect(call.op, old(Document()).body)
                         case Raises => Err(MutatorRaised)
                         case Leaves => Ok(false)
                         case Writes(_) => if diskFails then Err(WriteFailed) else Ok(true))
    {
      if lockBusy {
        return Err(LockTimeout);
      }
      locked := true;
      var document := if file.Some? then file.value else fallback;
      if call.expected.Some? && document.version != call.expected.value {
        r := Err(VersionConflict);
      } else {
        match effect(call.op, document.body)
        case Raises => r := Err(MutatorRaised);
        case Leaves => r := Ok(false);
        case Writes(body) =>
          document := Doc(document.version + 1, body);
          if diskFails {
            r := Err(WriteFailed);
          } else {
            file := Some(document);
            r := Ok(true);
          }
      }
      locked := false;
    }
  }
}
