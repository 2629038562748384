/**
 The bounded scan of the research archive (src/research_archive.py): every record file is validated, and of
 the chosen cohort only the newest N rows stay in memory, in a min-heap. A heap is represented by its
 elements in ascending order, so its least element comes first.
 */
module ArchiveScan {
  import opened Wrappers

  /** Observation ids, numbered in the order in which the strings compare. */
  type Id = nat

  datatype Row = Row(id: Id, profile: nat, detected: real, startedEpoch: real, started: real)

  datatype File = File(schemaOk: bool, row: Option<Row>, documentId: Id, bytes: nat)

  datatype ScanError = UnsupportedSchema | MalformedObservation | IdentityMismatch

  datatype Scan = Scan(rows: seq<Row>, total: nat, bytes: nat, cohort: nat)

  /** The first of the three timestamps that is not zero; the last one is the fallback. */
  function Time(r: Row): real {
    if r.detected != 0.0 then r.detected else if r.startedEpoch != 0.0 then r.startedEpoch else r.started
  }

  predicate Older(a: Row, b: Row) {
    Time(a) < Time(b) || (Time(a) == Time(b) && a.id < b.id)
  }

  predicate Ascending(rows: seq<Row>) {
    forall i, j :: 0 <= i < j < |rows| ==> Older(rows[i], rows[j])
  }

  function Insert(rows: seq<Row>, r: Row): seq<Row> {
    if rows == [] then [r]
    else if Older(rows[|rows| - 1], r) then rows + [r]
    else Insert(rows[..|rows| - 1], r) + [rows[|rows| - 1]]
  }

  function Sort(rows: seq<Row>): seq<Row> {
    if rows == [] then [] else Insert(Sort(rows[..|rows| - 1]), rows[|rows| - 1])
  }

  function Newest(rows: seq<Row>, n: nat): seq<Row> {
    var sorted := Sort(rows);
    if |sorted| <= n then sorted else sorted[|sorted| - n..]
  }

  // ----- Files -----

  function Problem(f: File): Option<ScanError> {
    if !f.schemaOk then Some(UnsupportedSchema)
    else if f.row.None? then Some(MalformedObservation)
    else if f.row.value.id != f.documentId then Some(IdentityMismatch)
    else None
  }

  function FirstProblem(fs: seq<File>): Option<ScanError> {
    if fs == [] then None else if Problem(fs[0]).Some? then Problem(fs[0]) else FirstProblem(fs[1..])
  }

  function CohortRows(fs: seq<File>, profile: nat): seq<Row> {
    if fs == [] then []
    else
      CohortRows(fs[..|fs| - 1], profile)
      + if fs[|fs| - 1].row.Some? && fs[|fs| - 1].row.value.profile == profile then [fs[|fs| - 1].row.value] else []
  }

  function Bytes(fs: seq<File>): nat { if fs == [] then 0 else Bytes(fs[..|fs| - 1]) + fs[|fs| - 1].bytes }

  function Limit(maximumRows: int): nat { if maximumRows < 1 then 1 else maximumRows }

  function Load(fs: seq<File>, profile: nat, maximumRows: int): Result<Scan, ScanError> {
    if FirstProblem(fs).Some? then Err(FirstProblem(fs).value)
    else
      var rows := CohortRows(fs, profile);
      Ok(Scan(Newest(rows, Limit(maximumRows)), |fs|, Bytes(fs), |rows|))
  }

  // ----- Laws of the order -----

  lemma OlderIsAnOrder(a: Row, b: Row, c: Row)
    ensures Older(a, b) && Older(b, c) ==> Older(a, c)
    ensures a.id != b.id ==> Older(a, b) || Older(b, a)
    ensures !(Older(a, b) && Older(b, a))
  {
  }

  predicate IdsDistinct(rows: seq<Row>) {
    forall i, j :: 0 <= i < j < |rows| ==> rows[i].id != rows[j].id
  }

  lemma AppendAscending(rows: seq<Row>, r: Row)
    requires Ascending(rows) && forall i :: 0 <= i < |rows| ==> Older(rows[i], r)
    ensures Ascending(rows + [r])
  {
    hide Older;
  }

  lemma {:induction false} InsertPermutes(rows: seq<Row>, r: Row)
    ensures multiset(Insert(rows, r)) == multiset(rows) + multiset{r} && |Insert(rows, r)| == |rows| + 1
  {
    hide Older;
    if rows != [] && !Older(rows[|rows| - 1], r) {
      InsertPermutes(rows[..|rows| - 1], r);
      assert rows == rows[..|rows| - 1] + [rows[|rows| - 1]];
    }
  }

  lemma {:induction false} InsertAscends(rows: seq<Row>, r: Row)
    requires Ascending(rows) && forall x :: x in rows ==> x.id != r.id
    ensures Ascending(Insert(rows, r))
  {
    hide Older;
    if rows != [] {
      var n := |rows| - 1;
      OlderIsAnOrder(rows[n], r, r);
      if Older(rows[n], r) {
        forall i | 0 <= i < |rows|
          ensures Older(rows[i], r)
        {
          OlderIsAnOrder(rows[i], rows[n], r);
        }
        AppendAscending(rows, r);
      } else {
        var front := Insert(rows[..n], r);
        InsertAscends(rows[..n], r);
        forall i | 0 <= i < |front|
          ensures Older(front[i], rows[n])
        {
          InsertPermutes(rows[..n], r);
          assert front[i] in multiset(front);
        }
        AppendAscending(front, rows[n]);
      }
    }
  }

  lemma {:induction false} SortSorts(rows: seq<Row>)
    requires IdsDistinct(rows)
    ensures Ascending(Sort(rows)) && multiset(Sort(rows)) == multiset(rows) && |Sort(rows)| == |rows|
  {
    if rows != [] {
      var rest, r := rows[..|rows| - 1], rows[|rows| - 1];
      SortSorts(rest);
      assert rows == rest + [r];
      forall x | x in Sort(rest)
        ensures x.id != r.id
      {
        assert x in multiset(Sort(rest));
      }
      InsertPermutes(Sort(rest), r);
      InsertAscends(Sort(rest), r);
      hide Insert, Ascending, IdsDistinct;
    } else {
      assert Ascending(Sort(rows));
    }
  }

  // ----- One step of the heap -----

  /** Pushing onto a heap that is not full, or replacing the least element of a full one by a newer row. */
  function Offer(heap: seq<Row>, r: Row, limit: nat): seq<Row>
    requires limit > 0
  {
    if |heap| < limit then Insert(heap, r)
    else if heap != [] && Older(heap[0], r) then Insert(heap[1..], r)
    else heap
  }

  lemma {:induction false} InsertAmongNewer(old': seq<Row>, rows: seq<Row>, r: Row)
    requires rows != [] ==> Older(rows[0], r)
    requires rows == [] && old' != [] ==> Older(old'[|old'| - 1], r)
    ensures Insert(old' + rows, r) == old' + Insert(rows, r)
  {
    hide Older;
    var all := old' + rows;
    if rows == [] {
      assert all == old';
    } else {
      assert all[|all| - 1] == rows[|rows| - 1] && all[..|all| - 1] == old' + rows[..|rows| - 1];
      if !Older(rows[|rows| - 1], r) {
        assert |rows| > 1;
        InsertAmongNewer(old', rows[..|rows| - 1], r);
      }
    }
  }

  lemma {:induction false} InsertBelow(old': seq<Row>, rows: seq<Row>, r: Row)
    requires forall x :: x in rows ==> !Older(x, r)
    ensures Insert(old' + rows, r) == Insert(old', r) + rows
  {
    hide Older;
    if rows == [] {
      assert old' + rows == old' && Insert(old', r) + rows == Insert(old', r);
    } else {
      var all := old' + rows;
      assert all[|all| - 1] == rows[|rows| - 1] && all[..|all| - 1] == old' + rows[..|rows| - 1];
      assert rows[|rows| - 1] in rows;
      InsertBelow(old', rows[..|rows| - 1], r);
      assert Insert(old', r) + rows == Insert(old', r) + rows[..|rows| - 1] + [rows[|rows| - 1]];
    }
  }

  function Last(rows: seq<Row>, n: nat): seq<Row> { if |rows| <= n then rows else rows[|rows| - n..] }

  lemma InsertAtTop(up: seq<Row>, r: Row)
    requires up == [] || Older(up[|up| - 1], r)
    ensures Insert(up, r) == up + [r]
  {
    hide Older;
  }

  lemma InsertAtBottom(rest: seq<Row>, r: Row)
    requires Ascending(rest) && rest != [] && !Older(rest[0], r)
    ensures Insert(rest, r) == [r] + rest
  {
    InsertBelowAll([], rest, r);
    InsertAtTop([], r);
    hide Older, Insert, Ascending;
    assert [] + rest == rest && [] + [r] == [r];
  }

  lemma Regroup(a: seq<Row>, b: seq<Row>, c: seq<Row>)
    ensures (a + b) + c == a + (b + c)
  {
  }

  lemma InsertAbove(up: seq<Row>, rest: seq<Row>, r: Row)
    requires Ascending(rest) && up != [] && Older(up[|up| - 1], r)
    ensures Insert(up + rest, r) == up + Insert(rest, r)
  {
    hide Older, Insert, Ascending;
    if rest != [] && !Older(rest[0], r) {
      InsertAtTop(up, r);
      InsertBelowAll(up, rest, r);
      InsertAtBottom(rest, r);
      Regroup(up, [r], rest);
    } else {
      InsertAmongNewer(up, rest, r);
    }
  }

  lemma InsertAboveFirst(low: seq<Row>, high: seq<Row>, r: Row)
    requires Ascending(high) && high != [] && Older(high[0], r)
    ensures Insert(low + high, r) == (low + [high[0]]) + Insert(high[1..], r)
  {
    SuffixAscends(high, 1);
    hide Older, Insert, Ascending;
    assert low + high == (low + [high[0]]) + high[1..];
    InsertAbove(low + [high[0]], high[1..], r);
  }

  lemma InsertBelowAll(low: seq<Row>, high: seq<Row>, r: Row)
    requires Ascending(high) && high != [] && !Older(high[0], r)
    ensures Insert(low + high, r) == Insert(low, r) + high
  {
    hide Older;
    forall x | x in high
      ensures !Older(x, r)
    {
      AboveIsNotOlder(high, r, x);
    }
    InsertBelow(low, high, r);
  }

  lemma LastOfSum(xs: seq<Row>, ys: seq<Row>, n: nat)
    requires |ys| == n
    ensures Last(xs + ys, n) == ys
  {
  }

  lemma PrefixAscends(rows: seq<Row>, k: nat)
    requires Ascending(rows) && k <= |rows|
    ensures Ascending(rows[..k])
  {
    hide Older;
  }

  lemma SuffixAscends(rows: seq<Row>, k: nat)
    requires Ascending(rows) && k <= |rows|
    ensures Ascending(rows[k..])
  {
    hide Older;
  }

  /** Offering a row to the newest N of a sorted list gives the newest N of the list with the row inserted. */
  lemma OfferKeepsNewest(sorted: seq<Row>, r: Row, limit: nat)
    requires limit > 0 && Ascending(sorted)
    ensures Offer(Last(sorted, limit), r, limit) == Last(Insert(sorted, r), limit)
  {
    InsertPermutes(sorted, r);
    if |sorted| >= limit {
      var k := |sorted| - limit;
      var low, high := sorted[..k], sorted[k..];
      assert sorted == low + high;
      SuffixAscends(sorted, k);
      hide Older, Insert, Ascending;
      if Older(high[0], r) {
        InsertAboveFirst(low, high, r);
        InsertPermutes(high[1..], r);
        LastOfSum(low + [high[0]], Insert(high[1..], r), limit);
      } else {
        InsertBelowAll(low, high, r);
        LastOfSum(Insert(low, r), high, limit);
      }
    }
  }

  lemma AboveIsNotOlder(rows: seq<Row>, r: Row, x: Row)
    requires Ascending(rows) && rows != [] && !Older(rows[0], r) && x in rows
    ensures !Older(x, r)
  {
    var i :| 0 <= i < |rows| && rows[i] == x;
    OlderIsAnOrder(rows[0], x, r);
  }

  // ----- The scan -----

  /** Ids are file names derived from the observation id, so no two files carry the same observation. */
  predicate DistinctObservations(fs: seq<File>) {
    forall i, j :: 0 <= i < j < |fs| && fs[i].row.Some? && fs[j].row.Some? ==> fs[i].row.value.id != fs[j].row.value.id
  }

  lemma {:induction false} CohortRowsDistinct(fs: seq<File>, profile: nat)
    requires DistinctObservations(fs)
    ensures IdsDistinct(CohortRows(fs, profile))
    ensures forall r :: r in CohortRows(fs, profile) ==> exists i :: 0 <= i < |fs| && fs[i].row == Some(r)
  {
    if fs != [] {
      var n := |fs| - 1;
      CohortRowsDistinct(fs[..n], profile);
      forall r | r in CohortRows(fs[..n], profile)
        ensures exists i :: 0 <= i < n && fs[i].row == Some(r)
      {
        var i :| 0 <= i < n && fs[..n][i].row == Some(r);
        assert fs[i].row == Some(r);
      }
      forall r | r in CohortRows(fs[..n], profile) && fs[n].row.Some?
        ensures r.id != fs[n].row.value.id
      {
        var i :| 0 <= i < n && fs[i].row == Some(r);
      }
      hide DistinctObservations;
    }
  }

  lemma {:induction false} FirstProblemUnfolds(fs: seq<File>, i: nat)
    requires i < |fs| && FirstProblem(fs[..i]).None?
    ensures FirstProblem(fs[..i + 1]) == Problem(fs[i])
    ensures Problem(fs[i]).Some? ==> FirstProblem(fs) == Problem(fs[i])
  {
    hide Problem;
    if i > 0 {
      assert fs[..i][0] == fs[0] == fs[..i + 1][0];
      assert fs[..i][1..] == fs[1..][..i - 1] && fs[..i + 1][1..] == fs[1..][..i];
      FirstProblemUnfolds(fs[1..], i - 1);
    } else {
      assert fs[..1] == [fs[0]] && fs[..1][1..] == [];
    }
  }

  method LoadResearchArchive(fs: seq<File>, profile: nat, maximumRows: int) returns (result: Result<Scan, ScanError>)
    requires DistinctObservations(fs)
    ensures result == Load(fs, profile, maximumRows)
  {
    hide Newest, Offer, DistinctObservations, CohortRows;
    var limit := Limit(maximumRows);
    var heap: seq<Row> := [];
    var total, cohort, bytes := 0, 0, 0;
    EmptyIsNewest(limit);
    for i := 0 to |fs|
      invariant FirstProblem(fs[..i]) == None
      invariant heap == Newest(CohortRows(fs[..i], profile), limit)
      invariant total == i && cohort == |CohortRows(fs[..i], profile)| && bytes == Bytes(fs[..i])
    {
      assert fs[..i + 1][..i] == fs[..i];
      CohortUnfolds(fs, i, profile);
      FirstProblemUnfolds(fs, i);
      bytes := bytes + fs[i].bytes;
      if Problem(fs[i]).Some? {
        return Err(Problem(fs[i]).value);
      }
      total := total + 1;
      var row := RowOf(fs[i]);
      if row.profile == profile {
        cohort := cohort + 1;
        OfferedIsNewest(fs, i, profile, limit);
        heap := Offer(heap, row, limit);
      }
    }
    assert fs[..|fs|] == fs;
    result := Ok(Scan(heap, total, bytes, cohort));
  }

  function RowOf(f: File): Row
    requires Problem(f).None?
  {
    f.row.value
  }

  lemma EmptyIsNewest(limit: nat)
    ensures Newest([], limit) == [] && forall profile :: CohortRows([], profile) == []
  {
  }

  lemma CohortUnfolds(fs: seq<File>, i: nat, profile: nat)
    requires i < |fs|
    ensures CohortRows(fs[..i + 1], profile) ==
            if fs[i].row.Some? && fs[i].row.value.profile == profile
            then CohortRows(fs[..i], profile) + [fs[i].row.value]
            else CohortRows(fs[..i], profile)
  {
    assert fs[..i + 1][..i] == fs[..i];
  }

  lemma SortUnfolds(rows: seq<Row>, r: Row)
    ensures Sort(rows + [r]) == Insert(Sort(rows), r)
  {
    hide Insert;
    assert (rows + [r])[..|rows|] == rows;
  }

  lemma PrefixesDistinct(fs: seq<File>, i: nat)
    requires DistinctObservations(fs) && i <= |fs|
    ensures DistinctObservations(fs[..i])
  {
  }

  lemma OfferedIsNewest(fs: seq<File>, i: nat, profile: nat, limit: nat)
    requires DistinctObservations(fs) && i < |fs| && limit > 0
    requires fs[i].row.Some? && fs[i].row.value.profile == profile
    ensures Offer(Newest(CohortRows(fs[..i], profile), limit), fs[i].row.value, limit)
            == Newest(CohortRows(fs[..i + 1], profile), limit)
  {
    hide Insert, Offer, Ascending, IdsDistinct, CohortRows, DistinctObservations, Sort;
    var rows := CohortRows(fs[..i], profile);
    var r := fs[i].row.value;
    CohortUnfolds(fs, i, profile);
    PrefixesDistinct(fs, i);
    CohortRowsDistinct(fs[..i], profile);
    SortSorts(rows);
    OfferKeepsNewest(Sort(rows), r, limit);
    SortUnfolds(rows, r);
  }

  // ----- What the result is, whatever the order of the files -----

  lemma LeftOutIsOlder(sorted: seq<Row>, k: nat, x: Row, r: Row)
    requires Ascending(sorted) && k <= |sorted| && x in sorted && x !in sorted[k..] && r in sorted[k..]
    ensures Older(x, r)
  {
    hide Older;
    assert sorted == sorted[..k] + sorted[k..];
    var i :| 0 <= i < k && sorted[..k][i] == x;
    var j :| 0 <= j < |sorted| - k && sorted[k..][j] == r;
    assert sorted[k + j] == r;
  }

  lemma SuffixIsPart(sorted: seq<Row>, k: nat)
    requires k <= |sorted|
    ensures multiset(sorted[k..]) <= multiset(sorted)
  {
    assert sorted == sorted[..k] + sorted[k..];
  }

  /**
   The loaded rows are ascending, at most N, all of the cohort, and everything left out is older than
   everything kept.
   */
  lemma LoadedRowsAreTheNewest(rows: seq<Row>, n: nat, x: Row)
    requires IdsDistinct(rows)
    ensures var got := Newest(rows, n);
            && Ascending(got) && |got| == (if |rows| < n then |rows| else n)
            && multiset(got) <= multiset(rows)
            && (x in rows && x !in got ==> forall r :: r in got ==> Older(x, r))
  {
    SortSorts(rows);
    var sorted := Sort(rows);
    hide Older, Sort, IdsDistinct, Ascending;
    var got := Newest(rows, n);
    var k := |sorted| - |got|;
    assert got == sorted[k..];
    SuffixAscends(sorted, k);
    SuffixIsPart(sorted, k);
    if x in rows && x !in got {
      assert x in multiset(sorted);
      forall r | r in got
        ensures Older(x, r)
      {
        LeftOutIsOlder(sorted, k, x, r);
      }
    }
  }

  lemma DropLast(xs: seq<Row>)
    requires xs != []
    ensures multiset(xs[..|xs| - 1]) == multiset(xs) - multiset{xs[|xs| - 1]} && xs[|xs| - 1] in multiset(xs)
  {
    assert xs == xs[..|xs| - 1] + [xs[|xs| - 1]];
  }

  lemma {:induction false} AscendingIsUnique(xs: seq<Row>, ys: seq<Row>)
    requires Ascending(xs) && Ascending(ys) && multiset(xs) == multiset(ys)
    ensures xs == ys
    decreases |xs|
  {
    if xs == [] {
      assert |multiset(xs)| == |ys|;
    } else {
      var n := |xs| - 1;
      DropLast(xs);
      DropLast(ys);
      LastIsShared(xs, ys);
      PrefixAscends(xs, n);
      PrefixAscends(ys, n);
      hide Older, Ascending;
      AscendingIsUnique(xs[..n], ys[..n]);
    }
  }

  lemma LastIsShared(xs: seq<Row>, ys: seq<Row>)
    requires Ascending(xs) && Ascending(ys) && xs != [] && |xs| == |ys|
    requires xs[|xs| - 1] in ys && ys[|ys| - 1] in xs
    ensures xs[|xs| - 1] == ys[|ys| - 1]
  {
    var n := |xs| - 1;
    var i :| 0 <= i <= n && ys[i] == xs[n];
    var j :| 0 <= j <= n && xs[j] == ys[n];
    OlderIsAnOrder(xs[n], ys[n], xs[n]);
    hide Older;
  }

  lemma SortDecides(rows: seq<Row>, permuted: seq<Row>, n: nat)
    requires Sort(rows) == Sort(permuted)
    ensures Newest(rows, n) == Newest(permuted, n)
  {
    hide Sort;
  }

  lemma SameRowsSameNewest(rows: seq<Row>, permuted: seq<Row>, n: nat)
    requires IdsDistinct(rows) && IdsDistinct(permuted) && multiset(rows) == multiset(permuted)
    ensures Newest(rows, n) == Newest(permuted, n)
  {
    SortSorts(rows);
    SortSorts(permuted);
    hide Sort, Ascending, IdsDistinct, Newest;
    AscendingIsUnique(Sort(rows), Sort(permuted));
    SortDecides(rows, permuted, n);
  }

  lemma {:induction false} CohortRowsExact(fs: seq<File>, profile: nat, r: Row)
    ensures r in CohortRows(fs, profile) <==> r.profile == profile && exists f :: f in fs && f.row == Some(r)
  {
    if fs != [] {
      CohortRowsExact(fs[..|fs| - 1], profile, r);
      assert fs == fs[..|fs| - 1] + [fs[|fs| - 1]];
    }
  }

  lemma {:induction false} DistinctCountsOnce(rows: seq<Row>, r: Row)
    requires IdsDistinct(rows)
    ensures multiset(rows)[r] == if r in rows then 1 else 0
  {
    if rows != [] {
      var n := |rows| - 1;
      DistinctCountsOnce(rows[..n], r);
      assert rows == rows[..n] + [rows[n]];
    }
  }

  /** The file system may list the records in any order. */
  lemma FileOrderDoesNotMatter(fs: seq<File>, gs: seq<File>, profile: nat, n: nat)
    requires DistinctObservations(fs) && DistinctObservations(gs) && multiset(fs) == multiset(gs)
    ensures Newest(CohortRows(fs, profile), n) == Newest(CohortRows(gs, profile), n)
  {
    CohortRowsDistinct(fs, profile);
    CohortRowsDistinct(gs, profile);
    hide CohortRows, IdsDistinct, DistinctObservations, Newest;
    forall f
      ensures f in fs <==> f in gs
    {
      assert f in multiset(fs) <==> f in multiset(gs);
    }
    forall r: Row
      ensures multiset(CohortRows(fs, profile))[r] == multiset(CohortRows(gs, profile))[r]
    {
      CohortRowsExact(fs, profile, r);
      CohortRowsExact(gs, profile, r);
      DistinctCountsOnce(CohortRows(fs, profile), r);
      DistinctCountsOnce(CohortRows(gs, profile), r);
    }
    SameRowsSameNewest(CohortRows(fs, profile), CohortRows(gs, profile), n);
  }

  // ----- What the scan reports -----

  /** `t` is when the row's signal was detected, or failing that when its observation started. */
  predicate Dated(r: Row, t: real) {
    && (r.detected != 0.0 ==> t == r.detected)
    && (r.detected == 0.0 && r.startedEpoch != 0.0 ==> t == r.startedEpoch)
    && (r.detected == 0.0 && r.startedEpoch == 0.0 ==> t == r.started)
  }

  predicate Sound(f: File) { f.schemaOk && f.row.Some? && f.row.value.id == f.documentId }

  lemma {:induction false} ProblemsAreFound(fs: seq<File>)
    ensures FirstProblem(fs).None? <==> forall i :: 0 <= i < |fs| ==> Sound(fs[i])
    ensures FirstProblem(fs).Some? ==>
              exists i :: 0 <= i < |fs| && !Sound(fs[i]) && (forall j :: 0 <= j < i ==> Sound(fs[j]))
                          && FirstProblem(fs).value == if !fs[i].schemaOk then UnsupportedSchema
                                                       else if fs[i].row.None? then MalformedObservation
                                                       else IdentityMismatch
  {
    if fs != [] && Problem(fs[0]).None? {
      ProblemsAreFound(fs[1..]);
      assert forall i :: 0 < i < |fs| ==> fs[i] == fs[1..][i - 1];
      if FirstProblem(fs).Some? {
        var i :| 0 <= i < |fs[1..]| && !Sound(fs[1..][i]) && (forall j :: 0 <= j < i ==> Sound(fs[1..][j]));
        assert !Sound(fs[i + 1]);
        forall j | 0 < j < i + 1
          ensures Sound(fs[j])
        {
          assert fs[j] == fs[1..][j - 1];
        }
      }
    }
  }

  lemma {:induction false} CohortIsCounted(fs: seq<File>, profile: nat)
    ensures |CohortRows(fs, profile)| ==
            |set i | 0 <= i < |fs| && fs[i].row.Some? && fs[i].row.value.profile == profile|
  {
    var hits := set i | 0 <= i < |fs| && fs[i].row.Some? && fs[i].row.value.profile == profile;
    if fs == [] {
      assert hits == {};
    } else {
      var n := |fs| - 1;
      CohortIsCounted(fs[..n], profile);
      var fewer := set i | 0 <= i < n && fs[..n][i].row.Some? && fs[..n][i].row.value.profile == profile;
      assert hits == fewer + if n in hits then {n} else {};
    }
  }

  /**
   The first unsound file decides the error. Without one the counts are those of all files and of the cohort,
   and as many cohort rows are kept as asked for, at least one, each dated no earlier than any left out.
   */
  lemma LoadExactlyWhen(fs: seq<File>, profile: nat, maximumRows: int, kept: Row, other: Row, t: real, u: real)
    requires DistinctObservations(fs)
    ensures Load(fs, profile, maximumRows).Ok? <==> forall i :: 0 <= i < |fs| ==> Sound(fs[i])
    ensures Load(fs, profile, maximumRows).Ok? ==>
              var scan := Load(fs, profile, maximumRows).value;
              var cohort := |set i | 0 <= i < |fs| && fs[i].row.Some? && fs[i].row.value.profile == profile|;
              var limit := if maximumRows < 1 then 1 else maximumRows;
              && scan.total == |fs| && scan.cohort == cohort && scan.bytes == Bytes(fs)
              && |scan.rows| == (if cohort < limit then cohort else limit)
              && (kept in scan.rows ==>
                    kept.profile == profile && exists i :: 0 <= i < |fs| && fs[i].row == Some(kept))
              && (kept in scan.rows && other !in scan.rows && other.profile == profile
                  && (exists i :: 0 <= i < |fs| && fs[i].row == Some(other)) && Dated(kept, t) && Dated(other, u) ==>
                    u < t || (u == t && other.id < kept.id))
  {
    ProblemsAreFound(fs);
    hide FirstProblem, CohortRows, Newest, DistinctObservations;
    if FirstProblem(fs).None? {
      var rows := CohortRows(fs, profile);
      CohortRowsDistinct(fs, profile);
      CohortIsCounted(fs, profile);
      LoadedRowsAreTheNewest(rows, Limit(maximumRows), other);
      CohortRowsExact(fs, profile, kept);
      CohortRowsExact(fs, profile, other);
      var got := Newest(rows, Limit(maximumRows));
      assert kept in got ==> kept in multiset(got) && kept in multiset(rows);
    }
  }
}
