/**
 The ledger on top of the state store: with processes interleaving, timing out, failing and dying inside
 `update_json`, the ledger file is still a run of atomic mutators, the one the ledger theorems speak of.
 */
module StoredLedger {
  import opened Wrappers
  import opened PaperLedger
  import opened LedgerAccounting
  import opened StateStore

  /** A refused buy raises and so writes nothing; every other mutator makes `update_json` write. */
  function LedgerEffect(op: Op, b: Book): Effect<Book> {
    if op.OpBuy? && BuyGuard(b, op.request).Some? then Raises else Writes(Apply(b, op))
  }

  function CommittedOps(log: seq<Commit<Book, Op>>): seq<Op> {
    seq(|log|, i requires 0 <= i < |log| => log[i].call.op)
  }

  lemma {:induction false} FoldIsRun(d: Doc<Book>, log: seq<Commit<Book, Op>>)
    requires Fold(LedgerEffect, d, log).Some?
    ensures Fold(LedgerEffect, d, log).value.body == Run(d.body, CommittedOps(log))
  {
    if log != [] {
      var n := |log| - 1;
      FoldIsRun(d, log[..n]);
      assert CommittedOps(log)[..n] == CommittedOps(log[..n]);
    }
  }

  /** The ledger file after any run of the store is the run of the committed mutators, in commit order. */
  lemma StoredLedgerIsARun(w: World<Book, Op>, steps: seq<Step<Op>>)
    requires Initial(w) && w.effect == LedgerEffect && Current(w).body == EmptyBook && Enables(w, steps)
    ensures var v := After(w, steps);
            && Current(v).body == Run(EmptyBook, CommittedOps(v.log))
            && (LegalRun(EmptyBook, CommittedOps(v.log)) ==> Valid(Current(v).body))
  {
    hide Valid, Run, LegalRun, Enables, After;
    FileIsFoldOfCommits(w, steps);
    var v := After(w, steps);
    FoldIsRun(Current(w), v.log);
    if LegalRun(EmptyBook, CommittedOps(v.log)) {
      EmptyBookIsValid();
      RunKeepsValid(EmptyBook, CommittedOps(v.log));
    }
  }
}
