/**
 Retention of validated deployment backups (scripts/storage_retention.py): classify every backup, check the
 markers that name the deployed ones, and delete what is safe, revalidating before each deletion.
 */
module BackupRetention {
  import opened Wrappers

  /** Directory names order by timestamp; the directory is listed newest first. */
  type Name = nat
  type Sha = nat

  datatype Content = Valid(revision: Sha) | Invalid | Unknown
  datatype Entry = Entry(name: Name, content: Content)

  /** `latest-<sha>.txt` names a backup, or cannot be resolved to an entry of the root. */
  datatype Marker = At(name: Name) | Broken

  datatype Root = Root(entries: seq<Entry>, markers: map<Sha, Marker>, strayMarker: bool)

  datatype Class = SafeToDelete | Protected | InvalidDoNotTouch | UnknownDoNotTouch

  datatype Candidate = Candidate(name: Name, kind: Class, revision: Option<Sha>)

  datatype Policy = Policy(keep: nat, deployed: Sha, active: Sha)

  predicate Listed(es: seq<Entry>) {
    forall i, j :: 0 <= i < j < |es| ==> es[i].name > es[j].name
  }

  /** Every marker names a validated backup of its own revision, and both protected revisions have one. */
  predicate MarkersOk(r: Root, p: Policy) {
    && !r.strayMarker
    && (forall sha :: sha in r.markers ==> MarkerOk(r, sha))
    && p.deployed in r.markers && p.active in r.markers
  }

  predicate MarkerOk(r: Root, sha: Sha)
    requires sha in r.markers
  {
    r.markers[sha].At? && Entry(r.markers[sha].name, Valid(sha)) in r.entries
  }

  function RevisionOf(e: Entry): Option<Sha> { if e.content.Valid? then Some(e.content.revision) else None }

  /** `k` is how many of the newest validated backups are still to be kept. */
  function Classify(e: Entry, k: nat, p: Policy, ok: bool): Class {
    match e.content
    case Invalid => InvalidDoNotTouch
    case Unknown => UnknownDoNotTouch
    case Valid(rev) =>
      if !ok then UnknownDoNotTouch
      else if rev == p.active || rev == p.deployed || k > 0 then Protected
      else SafeToDelete
  }

  function After(e: Entry, k: nat): nat { if e.content.Valid? && k > 0 then k - 1 else k }

  function PlanFrom(es: seq<Entry>, k: nat, p: Policy, ok: bool): seq<Candidate> {
    if es == [] then []
    else
      [Candidate(es[0].name, Classify(es[0], k, p, ok), RevisionOf(es[0]))]
      + PlanFrom(es[1..], After(es[0], k), p, ok)
  }

  function Plan(r: Root, p: Policy): seq<Candidate> { PlanFrom(r.entries, p.keep, p, MarkersOk(r, p)) }

  predicate SafeIn(cs: seq<Candidate>, name: Name) {
    exists c :: c in cs && c.name == name && c.kind == SafeToDelete
  }

  function Without(es: seq<Entry>, name: Name): seq<Entry> {
    if es == [] then [] else (if es[0].name == name then [] else [es[0]]) + Without(es[1..], name)
  }

  /** The directory is removed first, then the marker that names it. */
  function TreeRemoved(r: Root, name: Name): Root { r.(entries := Without(r.entries, name)) }

  function MarkerRemoved(r: Root, c: Candidate): Root {
    if c.revision.Some? && c.revision.value in r.markers && r.markers[c.revision.value] == At(c.name)
    then r.(markers := r.markers - {c.revision.value}) else r
  }

  function Removed(r: Root, c: Candidate): Root { MarkerRemoved(TreeRemoved(r, c.name), c) }

  // ----- Executing a plan -----

  /** What others do to the root before the n-th candidate is looked at again. */
  type Interference = (nat, Root) -> Root

  function Executed(r: Root, cs: seq<Candidate>, p: Policy, env: Interference, n: nat): Root
    requires n <= |cs|
    decreases |cs| - n
  {
    if n == |cs| then r
    else if cs[n].kind != SafeToDelete then Executed(r, cs, p, env, n + 1)
    else
      var s := env(n, r);
      Executed(if SafeIn(Plan(s, p), cs[n].name) then Removed(s, cs[n]) else s, cs, p, env, n + 1)
  }

  datatype RetentionError = KeepMustBePositive | MissingSha

  class BackupRoot {
    var entries: seq<Entry>
    var markers: map<Sha, Marker>
    var strayMarker: bool
    /** The directories deleted so far, each with the root it was deleted from. */
    ghost var deletions: seq<(Root, Name)>

    ghost function Value(): Root
      reads this
    {
      Root(entries, markers, strayMarker)
    }

    constructor (root: Root)
      ensures Value() == root && deletions == []
    {
      entries, markers, strayMarker := root.entries, root.markers, root.strayMarker;
      deletions := [];
    }

    method ValidateMarkers(p: Policy) returns (ok: bool)
      ensures ok == MarkersOk(Value(), p)
    {
      if strayMarker {
        return false;
      }
      var todo := markers.Keys;
      while todo != {}
        invariant todo <= markers.Keys
        invariant forall sha :: sha in markers.Keys - todo ==> MarkerOk(Value(), sha)
        decreases |todo|
      {
        var sha :| sha in todo;
        if markers[sha].Broken? || Entry(markers[sha].name, Valid(sha)) !in entries {
          assert !MarkerOk(Value(), sha);
          return false;
        }
        todo := todo - {sha};
      }
      return p.deployed in markers && p.active in markers;
    }

    /** First every validated backup counts as deletable, then markers and protection reclassify them. */
    method PlanValidatedBackups(p: Policy) returns (plan: seq<Candidate>)
      ensures plan == Plan(Value(), p)
    {
      hide MarkersOk, PlanFrom;
      var ok := ValidateMarkers(p);
      plan := [];
      var k := p.keep;
      assert entries[0..] == entries;
      for i := 0 to |entries|
        invariant Plan(Value(), p) == plan + PlanFrom(entries[i..], k, p, ok)
      {
        PlanUnfolds(entries, i, k, p, ok);
        var c;
        c, k := Examine(entries[i], k, p, ok);
        plan := plan + [c];
      }
      PlanEnds(entries[|entries|..], k, p, ok);
    }

    method Examine(e: Entry, k: nat, p: Policy, ok: bool) returns (c: Candidate, rest: nat)
      ensures c == Candidate(e.name, Classify(e, k, p, ok), RevisionOf(e)) && rest == After(e, k)
    {
      rest := k;
      match e.content
      case Invalid => c := Candidate(e.name, InvalidDoNotTouch, None);
      case Unknown => c := Candidate(e.name, UnknownDoNotTouch, None);
      case Valid(rev) =>
        c := Candidate(e.name, SafeToDelete, Some(rev));
        if !ok {
          c := c.(kind := UnknownDoNotTouch);
        } else if rev == p.active || rev == p.deployed || k > 0 {
          c := c.(kind := Protected);
        }
        rest := if k > 0 then k - 1 else 0;
    }

    method Interfere(env: Interference, n: nat)
      modifies this
      ensures Value() == env(n, old(Value())) && deletions == old(deletions)
    {
      var after := env(n, Root(entries, markers, strayMarker));
      entries, markers, strayMarker := after.entries, after.markers, after.strayMarker;
    }

    method RemoveTree(name: Name)
      modifies this
      ensures Value() == TreeRemoved(old(Value()), name) && deletions == old(deletions) + [(old(Value()), name)]
    {
      deletions := deletions + [(Value(), name)];
      entries := Without(entries, name);
    }

    method RemoveMatchingMarker(c: Candidate)
      modifies this
      ensures Value() == MarkerRemoved(old(Value()), c) && deletions == old(deletions)
    {
      if c.revision.Some? && c.revision.value in markers && markers[c.revision.value] == At(c.name) {
        markers := markers - {c.revision.value};
      }
    }

    /** Whatever others do meanwhile, only what a fresh plan calls safe is deleted. */
    method ExecuteBackupPlan(plan: seq<Candidate>, p: Policy, env: Interference) returns (removed: nat)
      modifies this
      ensures Value() == Executed(old(Value()), plan, p, env, 0)
      ensures |deletions| == |old(deletions)| + removed && old(deletions) <= deletions
      ensures forall k :: |old(deletions)| <= k < |deletions| ==> SafeIn(Plan(deletions[k].0, p), deletions[k].1)
    {
      hide SafeIn, Plan, TreeRemoved, MarkerRemoved;
      removed := 0;
      ghost var goal := Executed(Value(), plan, p, env, 0);
      for n := 0 to |plan|
        invariant goal == Executed(Value(), plan, p, env, n)
        invariant |deletions| == |old(deletions)| + removed && old(deletions) <= deletions
        invariant forall k :: |old(deletions)| <= k < |deletions| ==> SafeIn(Plan(deletions[k].0, p), deletions[k].1)
      {
        if plan[n].kind == SafeToDelete {
          Interfere(env, n);
          var refreshed := PlanValidatedBackups(p);
          if SafeIn(refreshed, plan[n].name) {
            RemoveTree(plan[n].name);
            RemoveMatchingMarker(plan[n]);
            removed := removed + 1;
          }
        }
      }
    }

    method RetainValidatedBackups(keep: int, deployed: Option<Sha>, active: Option<Sha>, env: Interference)
      returns (removed: nat, error: Option<RetentionError>)
      modifies this
      ensures error.Some? <==> keep < 1 || deployed.None? || active.None?
      ensures error.Some? ==> Value() == old(Value()) && removed == 0
      ensures error.None? ==>
                var p := Policy(keep, deployed.value, active.value);
                Value() == Executed(old(Value()), Plan(old(Value()), p), p, env, 0)
    {
      removed, error := 0, None;
      if deployed.None? || active.None? {
        return 0, Some(MissingSha);
      }
      if keep < 1 {
        return 0, Some(KeepMustBePositive);
      }
      var p := Policy(keep, deployed.value, active.value);
      var plan := PlanValidatedBackups(p);
      removed := ExecuteBackupPlan(plan, p, env);
    }
  }

  lemma PlanUnfolds(es: seq<Entry>, i: nat, k: nat, p: Policy, ok: bool)
    requires i < |es|
    ensures PlanFrom(es[i..], k, p, ok) ==
            [Candidate(es[i].name, Classify(es[i], k, p, ok), RevisionOf(es[i]))]
            + PlanFrom(es[i + 1..], After(es[i], k), p, ok)
  {
    hide Classify, After;
    assert es[i..][0] == es[i] && es[i..][1..] == es[i + 1..];
  }

  lemma PlanEnds(es: seq<Entry>, k: nat, p: Policy, ok: bool)
    requires es == []
    ensures PlanFrom(es, k, p, ok) == []
  {
  }

  // ----- What is safe -----

  /** How many validated backups are newer than position i. */
  function ValidBefore(es: seq<Entry>, i: nat): nat
    requires i <= |es|
  {
    if i == 0 then 0 else ValidBefore(es, i - 1) + if es[i - 1].content.Valid? then 1 else 0
  }

  lemma {:induction false} ValidBeforeShifts(es: seq<Entry>, i: nat)
    requires 0 < i <= |es|
    ensures ValidBefore(es, i) == ValidBefore(es[1..], i - 1) + if es[0].content.Valid? then 1 else 0
  {
    if i > 1 {
      ValidBeforeShifts(es, i - 1);
    }
  }

  /** How many newest backups are still to be kept when position i is reached. */
  function StillKept(es: seq<Entry>, k: nat, i: nat): nat
    requires i <= |es|
  {
    if ValidBefore(es, i) < k then k - ValidBefore(es, i) else 0
  }

  lemma {:induction false} KeptShifts(es: seq<Entry>, k: nat, i: nat)
    requires 0 < i <= |es|
    ensures StillKept(es, k, i) == StillKept(es[1..], After(es[0], k), i - 1)
  {
    ValidBeforeShifts(es, i);
    hide ValidBefore;
  }

  lemma {:induction false} PlanNames(es: seq<Entry>, k: nat, p: Policy, ok: bool)
    ensures |PlanFrom(es, k, p, ok)| == |es|
    ensures forall i :: 0 <= i < |es| ==>
              PlanFrom(es, k, p, ok)[i] ==
              Candidate(es[i].name, Classify(es[i], StillKept(es, k, i), p, ok), RevisionOf(es[i]))
  {
    if es != [] {
      hide Classify, After, StillKept, RevisionOf;
      var rest := PlanFrom(es[1..], After(es[0], k), p, ok);
      PlanNames(es[1..], After(es[0], k), p, ok);
      forall i | 0 < i < |es|
        ensures rest[i - 1] == Candidate(es[i].name, Classify(es[i], StillKept(es, k, i), p, ok), RevisionOf(es[i]))
      {
        KeptShifts(es, k, i);
        assert es[1..][i - 1] == es[i];
      }
    }
  }

  /**
   The markers are in order, the backup is validated, at least `keep` newer ones are, and it is of neither
   the active nor the deployed revision.
   */
  predicate Deletable(r: Root, p: Policy, i: nat)
    requires i < |r.entries|
  {
    var e := r.entries[i];
    && MarkersOk(r, p) && e.content.Valid? && ValidBefore(r.entries, i) >= p.keep
    && e.content.revision != p.active && e.content.revision != p.deployed
  }

  lemma SafeExactlyWhen(r: Root, p: Policy, i: nat)
    requires Listed(r.entries) && i < |r.entries|
    ensures SafeIn(Plan(r, p), r.entries[i].name) <==> Deletable(r, p, i)
  {
    hide MarkersOk;
    var cs := Plan(r, p);
    PlanNames(r.entries, p.keep, p, MarkersOk(r, p));
    hide PlanFrom, ValidBefore;
    if SafeIn(cs, r.entries[i].name) {
      var c :| c in cs && c.name == r.entries[i].name && c.kind == SafeToDelete;
      var j :| 0 <= j < |cs| && cs[j] == c;
      assert j == i;
    }
    assert cs[i] in cs;
  }

  lemma {:induction false} ValidAreCounted(es: seq<Entry>, i: nat)
    requires i <= |es|
    ensures ValidBefore(es, i) == |set j | 0 <= j < i && es[j].content.Valid?|
  {
    var hits := set j | 0 <= j < i && es[j].content.Valid?;
    if i == 0 {
      assert hits == {};
    } else {
      ValidAreCounted(es, i - 1);
      var fewer := set j | 0 <= j < i - 1 && es[j].content.Valid?;
      assert hits == fewer + if es[i - 1].content.Valid? then {i - 1} else {};
    }
  }

  /** Every marker names a listed, validated backup of its own revision, and both protected revisions have one. */
  ghost predicate Trusted(r: Root, p: Policy) {
    && !r.strayMarker && p.active in r.markers && p.deployed in r.markers
    && forall sha :: sha in r.markers ==>
         exists k :: 0 <= k < |r.entries| && r.entries[k].content == Valid(sha)
                     && r.markers[sha] == At(r.entries[k].name)
  }

  lemma TrustedMeans(r: Root, p: Policy)
    ensures MarkersOk(r, p) <==> Trusted(r, p)
  {
    forall sha | sha in r.markers
      ensures MarkerOk(r, sha) <==>
              exists k :: 0 <= k < |r.entries| && r.entries[k].content == Valid(sha)
                          && r.markers[sha] == At(r.entries[k].name)
    {
      if MarkerOk(r, sha) {
        var k :| 0 <= k < |r.entries| && r.entries[k] == Entry(r.markers[sha].name, Valid(sha));
      } else if k :| 0 <= k < |r.entries| && r.entries[k].content == Valid(sha)
                     && r.markers[sha] == At(r.entries[k].name) {
        assert r.entries[k] == Entry(r.markers[sha].name, Valid(sha));
      }
    }
  }

  /**
   The verdict on each entry: invalid and unknown ones are left alone, and so are validated ones unless the
   markers can be trusted; then the newest `keep` of them and the two revisions in use stay, the rest may go.
   */
  lemma ClassifiedExactlyWhen(r: Root, p: Policy, i: nat)
    requires i < |r.entries|
    ensures |Plan(r, p)| == |r.entries|
    ensures var e := r.entries[i];
            var newer := |set j | 0 <= j < i && r.entries[j].content.Valid?|;
            Plan(r, p)[i] ==
            match e.content
            case Invalid => Candidate(e.name, InvalidDoNotTouch, None)
            case Unknown => Candidate(e.name, UnknownDoNotTouch, None)
            case Valid(rev) =>
              Candidate(e.name,
                        if !Trusted(r, p) then UnknownDoNotTouch
                        else if newer < p.keep || rev == p.active || rev == p.deployed then Protected
                        else SafeToDelete,
                        Some(rev))
  {
    hide MarkersOk, Trusted, ValidBefore;
    TrustedMeans(r, p);
    PlanNames(r.entries, p.keep, p, MarkersOk(r, p));
    hide PlanFrom;
    ValidAreCounted(r.entries, i);
  }

  // ----- One deletion -----

  lemma {:induction false} WithoutIsCut(es: seq<Entry>, i: nat)
    requires Listed(es) && i < |es|
    ensures Without(es, es[i].name) == es[..i] + es[i + 1..]
  {
    if i > 0 {
      WithoutIsCut(es[1..], i - 1);
      assert es[..i] + es[i + 1..] == [es[0]] + (es[1..][..i - 1] + es[1..][i..]);
    } else {
      AbsentNameStays(es[1..], es[0].name);
      assert es[..0] + es[1..] == es[1..];
    }
  }

  lemma {:induction false} AbsentNameStays(es: seq<Entry>, name: Name)
    requires forall j :: 0 <= j < |es| ==> es[j].name != name
    ensures Without(es, name) == es
  {
    if es != [] {
      AbsentNameStays(es[1..], name);
    }
  }

  lemma {:induction false} ValidBeforeOfPrefix(es: seq<Entry>, fs: seq<Entry>, j: nat)
    requires j <= |es| && j <= |fs| && es[..j] == fs[..j]
    ensures ValidBefore(es, j) == ValidBefore(fs, j)
  {
    if j > 0 {
      assert es[j - 1] == es[..j][j - 1] == fs[..j][j - 1] == fs[j - 1];
      assert es[..j - 1] == es[..j][..j - 1] == fs[..j][..j - 1] == fs[..j - 1];
      ValidBeforeOfPrefix(es, fs, j - 1);
    }
  }

  lemma {:induction false} CutMakesOneFewer(es: seq<Entry>, i: nat, j: nat)
    requires i < j <= |es| && es[i].content.Valid?
    ensures ValidBefore(es[..i] + es[i + 1..], j - 1) == ValidBefore(es, j) - 1
    ensures ValidBefore(es, j) > ValidBefore(es, i)
  {
    var fs := es[..i] + es[i + 1..];
    if j == i + 1 {
      assert es[..i] == fs[..i];
      ValidBeforeOfPrefix(es, fs, i);
    } else {
      assert fs[j - 2] == es[j - 1];
      CutMakesOneFewer(es, i, j - 1);
    }
  }

  lemma SafeHasPosition(r: Root, p: Policy, name: Name)
    requires SafeIn(Plan(r, p), name)
    ensures exists j :: 0 <= j < |r.entries| && r.entries[j].name == name
  {
    hide Classify;
    PlanNames(r.entries, p.keep, p, MarkersOk(r, p));
    var cs := Plan(r, p);
    var c :| c in cs && c.name == name && c.kind == SafeToDelete;
    var j :| 0 <= j < |cs| && cs[j] == c;
    assert r.entries[j].name == name;
  }

  lemma ShiftedIsDeletable(r: Root, after: Root, p: Policy, i: nat, j: nat)
    requires i < |r.entries| && j < |r.entries| && i != j && Deletable(r, p, i) && MarkersOk(after, p)
    requires after.entries == r.entries[..i] + r.entries[i + 1..]
    ensures Deletable(r, p, j) <==> Deletable(after, p, if j < i then j else j - 1)
  {
    hide MarkersOk;
    if j < i {
      assert r.entries[..j] == after.entries[..j];
      ValidBeforeOfPrefix(r.entries, after.entries, j);
    } else {
      CutMakesOneFewer(r.entries, i, j);
    }
  }

  /**
   Deleting one safe backup with its marker leaves the markers in order and the verdict on every other
   backup as it was: the plan stays right while it is carried out.
   */
  lemma {:induction false} DeletionKeepsThePlan(r: Root, p: Policy, i: nat)
    requires Listed(r.entries) && i < |r.entries| && Deletable(r, p, i)
    ensures var c := Candidate(r.entries[i].name, SafeToDelete, RevisionOf(r.entries[i]));
            var after := Removed(r, c);
            && MarkersOk(after, p) && Listed(after.entries)
            && forall name :: SafeIn(Plan(after, p), name) <==> SafeIn(Plan(r, p), name) && name != c.name
  {
    WithoutIsCut(r.entries, i);
    CutStaysListed(r.entries, i);
    hide MarkersOk, Plan, SafeIn, Without, ValidBefore, Listed, Deletable;
    var c := Candidate(r.entries[i].name, SafeToDelete, RevisionOf(r.entries[i]));
    var after := Removed(r, c);
    forall name
      ensures SafeIn(Plan(after, p), name) <==> SafeIn(Plan(r, p), name) && name != c.name
    {
      VerdictCarriesOver(r, after, p, i, name);
    }
  }

  lemma CutStaysListed(es: seq<Entry>, i: nat)
    requires Listed(es) && i < |es|
    ensures Listed(es[..i] + es[i + 1..])
  {
  }

  lemma {:induction false} CutPosition(es: seq<Entry>, i: nat, j: nat)
    requires Listed(es) && i < |es| && j < |es| && i != j
    ensures var k := if j < i then j else j - 1;
            k < |es| - 1 && (es[..i] + es[i + 1..])[k] == es[j] && es[j].name != es[i].name
  {
  }

  lemma {:induction false} SameVerdict(r: Root, after: Root, p: Policy, i: nat, j: nat, k: nat)
    requires Listed(r.entries) && Listed(after.entries) && i < |r.entries| && Deletable(r, p, i) && MarkersOk(after, p)
    requires after.entries == r.entries[..i] + r.entries[i + 1..]
    requires j < |r.entries| && j != i && k == if j < i then j else j - 1
    ensures k < |after.entries| && after.entries[k] == r.entries[j] && r.entries[j].name != r.entries[i].name
    ensures SafeIn(Plan(after, p), r.entries[j].name) <==> SafeIn(Plan(r, p), r.entries[j].name)
  {
    CutPosition(r.entries, i, j);
    hide MarkersOk, Plan, SafeIn, Deletable, Listed;
    ShiftedIsDeletable(r, after, p, i, j);
    SafeExactlyWhen(after, p, k);
    SafeExactlyWhen(r, p, j);
  }

  lemma {:induction false} SafeAfterwards(r: Root, after: Root, p: Policy, i: nat, name: Name)
    requires Listed(r.entries) && Listed(after.entries) && i < |r.entries| && Deletable(r, p, i) && MarkersOk(after, p)
    requires after.entries == r.entries[..i] + r.entries[i + 1..] && SafeIn(Plan(after, p), name)
    ensures SafeIn(Plan(r, p), name) && name != r.entries[i].name
  {
    hide MarkersOk, Plan, SafeIn, Deletable, Listed;
    SafeHasPosition(after, p, name);
    var k :| 0 <= k < |after.entries| && after.entries[k].name == name;
    SameVerdict(r, after, p, i, if k < i then k else k + 1, k);
  }

  lemma {:induction false} SafeBefore(r: Root, after: Root, p: Policy, i: nat, name: Name)
    requires Listed(r.entries) && Listed(after.entries) && i < |r.entries| && Deletable(r, p, i) && MarkersOk(after, p)
    requires after.entries == r.entries[..i] + r.entries[i + 1..] && SafeIn(Plan(r, p), name)
            && name != r.entries[i].name
    ensures SafeIn(Plan(after, p), name)
  {
    hide MarkersOk, Plan, SafeIn, Deletable, Listed;
    SafeHasPosition(r, p, name);
    var j :| 0 <= j < |r.entries| && r.entries[j].name == name;
    SameVerdict(r, after, p, i, j, if j < i then j else j - 1);
  }

  lemma {:induction false} VerdictCarriesOver(r: Root, after: Root, p: Policy, i: nat, name: Name)
    requires Listed(r.entries) && Listed(after.entries) && i < |r.entries| && Deletable(r, p, i) && MarkersOk(after, p)
    requires after.entries == r.entries[..i] + r.entries[i + 1..]
    ensures SafeIn(Plan(after, p), name) <==> SafeIn(Plan(r, p), name) && name != r.entries[i].name
  {
    hide MarkersOk, Plan, SafeIn, Deletable, Listed;
    if SafeIn(Plan(after, p), name) {
      SafeAfterwards(r, after, p, i, name);
    } else if SafeIn(Plan(r, p), name) && name != r.entries[i].name {
      SafeBefore(r, after, p, i, name);
    }
  }

  // ----- The whole plan, in a world nobody else changes -----

  function Kept(es: seq<Entry>, cs: seq<Candidate>): seq<Entry> {
    if es == [] then [] else (if SafeIn(cs, es[0].name) then [] else [es[0]]) + Kept(es[1..], cs)
  }

  lemma {:induction false} KeptAfterOne(es: seq<Entry>, cs: seq<Candidate>, ds: seq<Candidate>, name: Name)
    requires forall m :: SafeIn(cs, m) <==> m == name || SafeIn(ds, m)
    ensures Kept(Without(es, name), ds) == Kept(es, cs)
  {
    hide SafeIn;
    if es != [] {
      KeptAfterOne(es[1..], cs, ds, name);
      if es[0].name != name {
        assert Without(es, name)[1..] == Without(es[1..], name);
      } else {
        assert Without(es, name) == Without(es[1..], name);
      }
    }
  }

  lemma {:induction false} NothingSafeKeepsAll(es: seq<Entry>, cs: seq<Candidate>)
    requires forall m :: !SafeIn(cs, m)
    ensures Kept(es, cs) == es
  {
    hide SafeIn;
    if es != [] {
      NothingSafeKeepsAll(es[1..], cs);
    }
  }

  ghost predicate Undisturbed(env: Interference) { forall n, r :: env(n, r) == r }

  ghost predicate NamesDistinct(cs: seq<Candidate>) {
    forall i, j :: 0 <= i < j < |cs| ==> cs[i].name != cs[j].name
  }

  ghost predicate VerdictsAgree(r: Root, cs: seq<Candidate>, p: Policy, n: nat)
    requires n <= |cs|
  {
    forall m :: SafeIn(Plan(r, p), m) <==> SafeIn(cs[n..], m)
  }

  predicate Present(es: seq<Entry>, c: Candidate) {
    c.revision.Some? && Entry(c.name, Valid(c.revision.value)) in es
  }

  ghost predicate SafeOnesPresent(es: seq<Entry>, cs: seq<Candidate>, n: nat) {
    forall k :: n <= k < |cs| && cs[k].kind == SafeToDelete ==> Present(es, cs[k])
  }

  /** The rest of the plan says of the current root exactly what a fresh plan would. */
  ghost predicate Agrees(r: Root, cs: seq<Candidate>, p: Policy, n: nat)
    requires n <= |cs|
  {
    Listed(r.entries) && NamesDistinct(cs) && VerdictsAgree(r, cs, p, n) && SafeOnesPresent(r.entries, cs, n)
  }

  lemma {:induction false} SkipUnsafe(cs: seq<Candidate>, n: nat, m: Name)
    requires n < |cs| && NamesDistinct(cs)
    ensures cs[n].kind != SafeToDelete ==> (SafeIn(cs[n..], m) <==> SafeIn(cs[n + 1..], m))
    ensures cs[n].kind == SafeToDelete ==> (SafeIn(cs[n..], m) <==> m == cs[n].name || SafeIn(cs[n + 1..], m))
    ensures !SafeIn(cs[n + 1..], cs[n].name)
  {
    var rest := cs[n + 1..];
    assert cs[n..] == [cs[n]] + rest;
    if SafeIn(rest, m) {
      var c :| c in rest && c.name == m && c.kind == SafeToDelete;
      assert c in cs[n..];
    }
  }

  lemma {:induction false} SafeCandidateIsDeletable(r: Root, cs: seq<Candidate>, p: Policy, n: nat) returns (i: nat)
    requires n < |cs| && Agrees(r, cs, p, n) && cs[n].kind == SafeToDelete
    ensures i < |r.entries| && cs[n] == Candidate(r.entries[i].name, SafeToDelete, RevisionOf(r.entries[i]))
    ensures Deletable(r, p, i) && SafeIn(Plan(r, p), cs[n].name)
  {
    assert Present(r.entries, cs[n]);
    i :| 0 <= i < |r.entries| && r.entries[i] == Entry(cs[n].name, Valid(cs[n].revision.value));
    SkipUnsafe(cs, n, cs[n].name);
    SafeExactlyWhen(r, p, i);
    hide MarkersOk, Plan, SafeIn, ValidBefore, Listed, NamesDistinct;
  }

  lemma {:induction false} DeletionKeepsAgreement(r: Root, cs: seq<Candidate>, p: Policy, n: nat)
    requires n < |cs| && Agrees(r, cs, p, n) && cs[n].kind == SafeToDelete
    ensures SafeIn(Plan(r, p), cs[n].name)
    ensures Agrees(Removed(r, cs[n]), cs, p, n + 1) && MarkersOk(Removed(r, cs[n]), p)
    ensures Removed(r, cs[n]).entries == Without(r.entries, cs[n].name)
  {
    var i := SafeCandidateIsDeletable(r, cs, p, n);
    WithoutIsCut(r.entries, i);
    DeletionKeepsThePlan(r, p, i);
    hide SafeIn, Plan, Without, MarkersOk, Deletable, Listed, NamesDistinct, SafeOnesPresent, VerdictsAgree;
    VerdictsCarryOver(r, Removed(r, cs[n]), cs, p, n);
  }

  lemma {:induction false} VerdictsCarryOver(r: Root, after: Root, cs: seq<Candidate>, p: Policy, n: nat)
    requires n < |cs| && NamesDistinct(cs) && cs[n].kind == SafeToDelete && VerdictsAgree(r, cs, p, n)
    requires forall m :: SafeIn(Plan(after, p), m) <==> SafeIn(Plan(r, p), m) && m != cs[n].name
    ensures VerdictsAgree(after, cs, p, n + 1)
  {
    hide SafeIn, Plan, NamesDistinct;
    forall m
      ensures SafeIn(Plan(after, p), m) <==> SafeIn(cs[n + 1..], m)
    {
      SkipUnsafe(cs, n, m);
    }
  }

  lemma {:induction false} ExecutionDeletesTheRest(r: Root, cs: seq<Candidate>, p: Policy, env: Interference, n: nat)
    requires n <= |cs| && Undisturbed(env) && Agrees(r, cs, p, n)
    ensures var after := Executed(r, cs, p, env, n);
            && after.entries == Kept(r.entries, cs[n..])
            && (MarkersOk(r, p) ==> MarkersOk(after, p))
            && forall m :: !SafeIn(Plan(after, p), m)
    decreases |cs| - n
  {
    if n == |cs| {
      assert forall m :: !SafeIn(cs[n..], m);
      NothingSafeKeepsAll(r.entries, cs[n..]);
    } else if cs[n].kind != SafeToDelete {
      forall m
        ensures SafeIn(cs[n..], m) <==> SafeIn(cs[n + 1..], m)
      {
        SkipUnsafe(cs, n, m);
      }
      ExecutionDeletesTheRest(r, cs, p, env, n + 1);
      hide SafeIn, Plan, MarkersOk;
      SameVerdictsKeepTheSame(r.entries, cs[n..], cs[n + 1..]);
    } else {
      DeletionKeepsAgreement(r, cs, p, n);
      ExecutionDeletesTheRest(Removed(r, cs[n]), cs, p, env, n + 1);
      forall m
        ensures SafeIn(cs[n..], m) <==> m == cs[n].name || SafeIn(cs[n + 1..], m)
      {
        SkipUnsafe(cs, n, m);
      }
      hide SafeIn, Plan, MarkersOk, Agrees, Removed;
      KeptAfterOne(r.entries, cs[n..], cs[n + 1..], cs[n].name);
    }
  }

  lemma {:induction false} SameVerdictsKeepTheSame(es: seq<Entry>, cs: seq<Candidate>, ds: seq<Candidate>)
    requires forall m :: SafeIn(cs, m) <==> SafeIn(ds, m)
    ensures Kept(es, cs) == Kept(es, ds)
  {
    hide SafeIn;
    if es != [] {
      SameVerdictsKeepTheSame(es[1..], cs, ds);
    }
  }

  lemma PlanMatchesEntries(r: Root, p: Policy, k: nat)
    requires k < |Plan(r, p)|
    ensures |Plan(r, p)| == |r.entries| && Plan(r, p)[k].name == r.entries[k].name
    ensures Plan(r, p)[k].kind == SafeToDelete ==>
              Plan(r, p)[k].revision.Some?
              && r.entries[k] == Entry(Plan(r, p)[k].name, Valid(Plan(r, p)[k].revision.value))
  {
    PlanNames(r.entries, p.keep, p, MarkersOk(r, p));
    hide PlanFrom, MarkersOk, ValidBefore;
  }

  lemma FreshPlanAgrees(r: Root, p: Policy)
    requires Listed(r.entries)
    ensures Agrees(r, Plan(r, p), p, 0)
  {
    hide Plan, SafeIn;
    var cs := Plan(r, p);
    assert cs[0..] == cs;
    forall k | 0 <= k < |cs|
      ensures |cs| == |r.entries| && cs[k].name == r.entries[k].name
      ensures cs[k].kind == SafeToDelete ==> Present(r.entries, cs[k])
    {
      PlanMatchesEntries(r, p, k);
    }
  }

  /**
   Left alone, executing a fresh plan deletes exactly its safe set: every other backup survives, the
   markers stay in order, and a second run would find nothing more to delete.
   */
  lemma ExecutionDeletesExactlyTheSafe(r: Root, p: Policy, env: Interference)
    requires Listed(r.entries) && Undisturbed(env)
    ensures var after := Executed(r, Plan(r, p), p, env, 0);
            && after.entries == Kept(r.entries, Plan(r, p))
            && (MarkersOk(r, p) ==> MarkersOk(after, p))
            && forall m :: !SafeIn(Plan(after, p), m)
  {
    hide Plan, MarkersOk, SafeIn;
    FreshPlanAgrees(r, p);
    ExecutionDeletesTheRest(r, Plan(r, p), p, env, 0);
    assert Plan(r, p)[0..] == Plan(r, p);
  }

  lemma BadMarkersProtectEverything(r: Root, p: Policy)
    requires Listed(r.entries) && !MarkersOk(r, p)
    ensures forall m :: !SafeIn(Plan(r, p), m)
  {
    hide MarkersOk, Plan, SafeIn, ValidBefore;
    forall m
      ensures !SafeIn(Plan(r, p), m)
    {
      if SafeIn(Plan(r, p), m) {
        SafeHasPosition(r, p, m);
        var i :| 0 <= i < |r.entries| && r.entries[i].name == m;
        SafeExactlyWhen(r, p, i);
        assert false;
      }
    }
  }

  /**
   A run that dies between removing a directory and removing its marker stops all further retention exactly
   when that revision's marker named the directory: whatever is deployed, active or to be kept by then, no
   later run changes anything until the marker is repaired.
   */
  lemma {:induction false} DeathBeforeTheMarkerBlocksRetention(r: Root, p: Policy, i: nat, env: Interference)
    requires Listed(r.entries) && i < |r.entries| && Deletable(r, p, i)
    ensures var e := r.entries[i];
            var left := TreeRemoved(r, e.name);
            && (MarkersOk(left, p) <==> e.content.revision !in r.markers || r.markers[e.content.revision] != At(e.name))
            && (!MarkersOk(left, p) ==> forall q :: Executed(left, Plan(left, q), q, env, 0) == left)
  {
    var e := r.entries[i];
    var sha := e.content.revision;
    hide MarkersOk, Plan, SafeIn, Deletable, Without, Executed;
    var left := TreeRemoved(r, e.name);
    OrphanedMarker(r, p, i);
    if !MarkersOk(left, p) {
      forall q
        ensures Executed(left, Plan(left, q), q, env, 0) == left
      {
        OrphanBlocks(left, q, sha);
        BadMarkersProtectEverything(left, q);
        NothingSafeNothingDone(left, Plan(left, q), q, env, 0);
      }
    }
  }

  lemma OrphanBlocks(r: Root, q: Policy, sha: Sha)
    requires sha in r.markers && !MarkerOk(r, sha)
    ensures !MarkersOk(r, q)
  {
  }

  lemma {:induction false} NothingSafeNothingDone(r: Root, cs: seq<Candidate>, p: Policy, env: Interference, n: nat)
    requires n <= |cs| && forall m :: !SafeIn(cs, m)
    ensures Executed(r, cs, p, env, n) == r
    decreases |cs| - n
  {
    if n < |cs| {
      assert !SafeIn(cs, cs[n].name) && cs[n] in cs;
      NothingSafeNothingDone(r, cs, p, env, n + 1);
    }
  }

  lemma {:induction false} OrphanedMarker(r: Root, p: Policy, i: nat)
    requires Listed(r.entries) && i < |r.entries| && Deletable(r, p, i)
    ensures var e := r.entries[i];
            var left := TreeRemoved(r, e.name);
            && Listed(left.entries)
            && (MarkersOk(left, p) <==> e.content.revision !in r.markers || r.markers[e.content.revision] != At(e.name))
            && (!MarkersOk(left, p) ==> e.content.revision in r.markers && !MarkerOk(left, e.content.revision))
  {
    var e := r.entries[i];
    var left := TreeRemoved(r, e.name);
    WithoutIsCut(r.entries, i);
    CutStaysListed(r.entries, i);
    hide Listed;
    if e.content.revision in r.markers && r.markers[e.content.revision] == At(e.name) {
      assert !MarkerOk(left, e.content.revision);
    } else {
      assert MarkerRemoved(left, Candidate(e.name, SafeToDelete, RevisionOf(e))) == left;
    }
  }
}
