/**
 Duplicate suppression within one connection (src/monitor.py): the most recent accepted signatures are
 remembered twice, as a queue that decides what is forgotten and as a set that answers quickly.
 */
module SignatureWindow {
  type Signature = nat

  /** What an unbounded log of accepted signatures says about the next one. */
  function Youngest(accepted: seq<Signature>, maximum: nat): seq<Signature> {
    if |accepted| <= maximum then accepted else accepted[|accepted| - maximum..]
  }

  function Accept(accepted: seq<Signature>, s: Signature, maximum: nat): seq<Signature> {
    if s in Youngest(accepted, maximum) then accepted else accepted + [s]
  }

  function Accepted(arrivals: seq<Signature>, maximum: nat): seq<Signature> {
    if arrivals == [] then []
    else Accept(Accepted(arrivals[..|arrivals| - 1], maximum), arrivals[|arrivals| - 1], maximum)
  }

  predicate Distinct(xs: seq<Signature>) {
    forall i, j :: 0 <= i < j < |xs| ==> xs[i] != xs[j]
  }

  class Window {
    const maximum: nat
    var ordered: seq<Signature>
    var seen: set<Signature>
    ghost var accepted: seq<Signature>

    /** The set is the queue's content, and the queue the end of the log of accepted signatures. */
    ghost predicate Valid()
      reads this
    {
      && maximum >= 1
      && ordered == Youngest(accepted, maximum)
      && Distinct(ordered)
      && seen == set s | s in ordered
    }

    constructor (maximum: int)
      ensures Valid() && this.maximum == (if maximum < 1 then 1 else maximum) && accepted == []
    {
      this.maximum := if maximum < 1 then 1 else maximum;
      ordered, seen, accepted := [], {}, [];
    }

    method Add(s: Signature) returns (isNew: bool)
      requires Valid()
      modifies this
      ensures Valid() && accepted == Accept(old(accepted), s, maximum)
      ensures isNew <==> s !in Youngest(old(accepted), maximum)
    {
      if s in seen {
        return false;
      }
      accepted := accepted + [s];
      seen := seen + {s};
      ordered := ordered + [s];
      if |ordered| > maximum {
        ForgetOldest(ordered);
        seen := seen - {ordered[0]};
        ordered := ordered[1..];
      }
      return true;
    }
  }

  lemma ForgetOldest(xs: seq<Signature>)
    requires xs != [] && Distinct(xs)
    ensures (set s | s in xs) - {xs[0]} == set s | s in xs[1..]
    ensures Distinct(xs[1..])
  {
    assert xs == [xs[0]] + xs[1..];
  }

  /**
   A repeated signature is let through again only after at least `maximum` other signatures were accepted
   since its own last acceptance.
   */
  lemma {:induction false} RepeatsPassOnlyAfterTheWindow(arrivals: seq<Signature>, maximum: nat, i: nat, j: nat)
    requires maximum >= 1
    requires i < j < |Accepted(arrivals, maximum)|
    requires Accepted(arrivals, maximum)[i] == Accepted(arrivals, maximum)[j]
    ensures j - i > maximum
  {
    var n := |arrivals| - 1;
    var before := Accepted(arrivals[..n], maximum);
    if j < |before| {
      RepeatsPassOnlyAfterTheWindow(arrivals[..n], maximum, i, j);
    }
  }

  /** An arrival is accepted exactly when it differs from the last `maximum` accepted ones, and goes last. */
  lemma {:induction false} AcceptedExactlyWhen(arrivals: seq<Signature>, s: Signature, maximum: nat)
    ensures var before, after := Accepted(arrivals, maximum), Accepted(arrivals + [s], maximum);
            after == if exists i :: |before| - maximum <= i < |before| && 0 <= i && before[i] == s
                     then before else before + [s]
  {
    assert (arrivals + [s])[..|arrivals|] == arrivals;
    var before := Accepted(arrivals, maximum);
    var young := Youngest(before, maximum);
    hide Accepted;
    var skip := |before| - |young|;
    assert forall i :: 0 <= i < |young| ==> young[i] == before[skip + i];
    if i :| |before| - maximum <= i < |before| && 0 <= i && before[i] == s {
      assert young[i - skip] == s;
    }
  }
}
