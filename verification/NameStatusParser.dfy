/**
 The parser of `git diff --name-status -z` output (scripts/deploy_contract.py), on bytes: NUL-terminated
 fields, a status followed by one path, or by two for renames and copies. Paths stay in their UTF-8 form.
 */
module NameStatusParser {
  import opened Wrappers

  type Byte = b: int | 0 <= b < 256
  type Bytes = seq<Byte>

  const SLASH: Byte := 47
  const DOT: Byte := 46

  /** A M D T U X B */
  const SINGLE_PATH_STATUSES: set<Byte> := {65, 77, 68, 84, 85, 88, 66}

  /** R C */
  const TWO_PATH_STATUSES: set<Byte> := {82, 67}

  datatype ParseError = NotTerminated | UnsupportedStatus | IncompleteRecord | InvalidPath

  // ----- Fields -----

  function FirstNul(bs: Bytes): (i: nat)
    ensures i <= |bs| && (i < |bs| ==> bs[i] == 0) && 0 !in bs[..i]
  {
    if bs == [] then 0 else if bs[0] == 0 then 0 else 1 + FirstNul(bs[1..])
  }

  predicate Terminated(bs: Bytes) { bs == [] || bs[|bs| - 1] == 0 }

  /** The fields between the NULs; the empty piece behind the last NUL is dropped. */
  function Fields(bs: Bytes): (fs: seq<Bytes>)
    requires Terminated(bs)
    decreases |bs|
  {
    if bs == [] then []
    else
      var i := FirstNul(bs);
      if i < |bs| then [bs[..i]] + Fields(bs[i + 1..]) else []
  }

  function Joined(fs: seq<Bytes>): Bytes { if fs == [] then [] else fs[0] + [0] + Joined(fs[1..]) }

  // ----- Statuses and paths -----

  predicate Digit(b: Byte) { 48 <= b <= 57 }

  predicate OnePathStatus(s: Bytes) { |s| == 1 && s[0] in SINGLE_PATH_STATUSES }

  predicate TwoPathStatus(s: Bytes) {
    |s| > 1 && s[0] in TWO_PATH_STATUSES && forall i :: 1 <= i < |s| ==> Digit(s[i])
  }

  predicate Continuation(b: Byte) { 0x80 <= b <= 0xBF }

  /** Well-formed UTF-8 as in section 4 of RFC 3629: no overlong forms, no surrogates, nothing above U+10FFFF. */
  predicate Utf8(bs: Bytes)
    decreases |bs|
  {
    if bs == [] then true
    else if bs[0] < 0x80 then Utf8(bs[1..])
    else if 0xC2 <= bs[0] <= 0xDF then |bs| >= 2 && Continuation(bs[1]) && Utf8(bs[2..])
    else if 0xE0 <= bs[0] <= 0xEF then
      |bs| >= 3 && Continuation(bs[1]) && Continuation(bs[2])
      && (bs[0] == 0xE0 ==> bs[1] >= 0xA0) && (bs[0] == 0xED ==> bs[1] < 0xA0) && Utf8(bs[3..])
    else if 0xF0 <= bs[0] <= 0xF4 then
      |bs| >= 4 && Continuation(bs[1]) && Continuation(bs[2]) && Continuation(bs[3])
      && (bs[0] == 0xF0 ==> bs[1] >= 0x90) && (bs[0] == 0xF4 ==> bs[1] < 0x90) && Utf8(bs[4..])
    else false
  }

  /** ".." stands at `i` as a whole component between slashes or ends. */
  predicate ParentAt(p: Bytes, i: int) {
    && 0 <= i && i + 2 <= |p| && p[i] == DOT && p[i + 1] == DOT
    && (i == 0 || p[i - 1] == SLASH) && (i + 2 == |p| || p[i + 2] == SLASH)
  }

  predicate HasParent(p: Bytes) {
    exists i :: 0 <= i < |p| && ParentAt(p, i)
  }

  predicate PathOk(p: Bytes) { Utf8(p) && p != [] && p[0] != SLASH && !HasParent(p) }

  // ----- The parser -----

  /** How many paths follow the status; 0 for a status git does not have. */
  function PathCount(status: Bytes): nat {
    if OnePathStatus(status) then 1 else if TwoPathStatus(status) then 2 else 0
  }

  function ParseFields(fs: seq<Bytes>): Result<seq<Bytes>, ParseError>
    decreases |fs|
  {
    if fs == [] then Ok([])
    else
      var n := PathCount(fs[0]);
      if n == 0 then Err(UnsupportedStatus)
      else if 1 + n > |fs| then Err(IncompleteRecord)
      else if exists k :: 1 <= k < 1 + n && !PathOk(fs[k]) then Err(InvalidPath)
      else Continued(fs[1..1 + n], ParseFields(fs[1 + n..]))
  }

  function Parse(payload: Bytes): Result<seq<Bytes>, ParseError> {
    if !Terminated(payload) then Err(NotTerminated) else ParseFields(Fields(payload))
  }

  /** What the rest of the fields adds to the paths already collected. */
  function Continued(paths: seq<Bytes>, rest: Result<seq<Bytes>, ParseError>): Result<seq<Bytes>, ParseError> {
    match rest
    case Err(e) => Err(e)
    case Ok(more) => Ok(paths + more)
  }

  method ParseNameStatusZ(payload: Bytes) returns (result: Result<seq<Bytes>, ParseError>)
    ensures result == Parse(payload)
  {
    hide PathOk, PathCount, Terminated, Fields, ParseFields;
    if !Terminated(payload) {
      return Err(NotTerminated);
    }
    var fields := Fields(payload);
    var paths: seq<Bytes> := [];
    var index := 0;
    assert fields[0..] == fields;
    Uncontinued(ParseFields(fields));
    while index < |fields|
      invariant index <= |fields|
      invariant Parse(payload) == Continued(paths, ParseFields(fields[index..]))
    {
      FieldsUnfoldAt(fields, index);
      var count := PathCount(fields[index]);
      if count == 0 {
        return Err(UnsupportedStatus);
      }
      index := index + 1;
      if index + count > |fields| {
        return Err(IncompleteRecord);
      }
      var ok := PathsOk(fields, index, count);
      if !ok {
        return Err(InvalidPath);
      }
      Regroup(paths, fields[index..index + count], ParseFields(fields[index + count..]));
      paths := paths + fields[index..index + count];
      index := index + count;
    }
    NoFieldsLeft(fields[index..]);
    assert paths + [] == paths;
    result := Ok(paths);
  }

  lemma NoFieldsLeft(fs: seq<Bytes>)
    requires fs == []
    ensures ParseFields(fs) == Ok([])
  {
  }

  lemma FieldsUnfoldAt(fields: seq<Bytes>, i: nat)
    requires i < |fields|
    ensures ParseFields(fields[i..]) ==
            var n := PathCount(fields[i]);
            if n == 0 then Err(UnsupportedStatus)
            else if i + 1 + n > |fields| then Err(IncompleteRecord)
            else if exists k :: i + 1 <= k < i + 1 + n && !PathOk(fields[k]) then Err(InvalidPath)
            else Continued(fields[i + 1..i + 1 + n], ParseFields(fields[i + 1 + n..]))
  {
    hide PathOk, PathCount;
    var fs, n := fields[i..], PathCount(fields[i]);
    if n > 0 && i + 1 + n <= |fields| {
      assert fs[1..1 + n] == fields[i + 1..i + 1 + n] && fs[1 + n..] == fields[i + 1 + n..];
      if k :| i + 1 <= k < i + 1 + n && !PathOk(fields[k]) {
        assert !PathOk(fs[k - i]);
      }
    }
  }

  method PathsOk(fields: seq<Bytes>, start: nat, count: nat) returns (ok: bool)
    requires start + count <= |fields|
    ensures ok <==> !exists k :: start <= k < start + count && !PathOk(fields[k])
  {
    hide PathOk;
    for k := start to start + count
      invariant forall j :: start <= j < k ==> PathOk(fields[j])
    {
      if !PathOk(fields[k]) {
        return false;
      }
    }
    return true;
  }

  lemma Uncontinued(rest: Result<seq<Bytes>, ParseError>)
    ensures Continued([], rest) == rest
  {
    if rest.Ok? {
      assert [] + rest.value == rest.value;
    }
  }

  lemma Regroup(paths: seq<Bytes>, more: seq<Bytes>, rest: Result<seq<Bytes>, ParseError>)
    ensures Continued(paths, Continued(more, rest)) == Continued(paths + more, rest)
  {
    if rest.Ok? {
      assert paths + (more + rest.value) == paths + more + rest.value;
    }
  }

  // ----- Records and their printing -----

  datatype Entry = One(status: Bytes, path: Bytes) | Two(status: Bytes, source: Bytes, target: Bytes)

  predicate EntryOk(r: Entry) {
    match r
    case One(status, path) => OnePathStatus(status) && PathOk(path) && 0 !in path
    case Two(status, source, target) =>
      TwoPathStatus(status) && PathOk(source) && PathOk(target) && 0 !in source && 0 !in target
  }

  function FieldsOf(r: Entry): seq<Bytes> {
    match r
    case One(status, path) => [status, path]
    case Two(status, source, target) => [status, source, target]
  }

  function AllFields(rs: seq<Entry>): seq<Bytes> { if rs == [] then [] else FieldsOf(rs[0]) + AllFields(rs[1..]) }

  function Printed(rs: seq<Entry>): Bytes { Joined(AllFields(rs)) }

  function Paths(rs: seq<Entry>): seq<Bytes> { if rs == [] then [] else FieldsOf(rs[0])[1..] + Paths(rs[1..]) }

  predicate AllOk(rs: seq<Entry>) { forall i :: 0 <= i < |rs| ==> EntryOk(rs[i]) }

  /** The records an accepted list of fields consists of. */
  function Entries(fs: seq<Bytes>): seq<Entry>
    decreases |fs|
  {
    if fs == [] then []
    else
      var n := PathCount(fs[0]);
      if n == 1 && |fs| >= 2 then [One(fs[0], fs[1])] + Entries(fs[2..])
      else if n == 2 && |fs| >= 3 then [Two(fs[0], fs[1], fs[2])] + Entries(fs[3..])
      else []
  }

  // ----- Splitting and joining -----

  predicate NulFree(fs: seq<Bytes>) { forall i :: 0 <= i < |fs| ==> 0 !in fs[i] }

  lemma {:induction false} JoinedIsTerminated(fs: seq<Bytes>)
    ensures Terminated(Joined(fs))
  {
    if fs != [] {
      JoinedIsTerminated(fs[1..]);
    }
  }

  lemma {:induction false} FirstNulIs(bs: Bytes, i: nat)
    requires i < |bs| && bs[i] == 0 && forall k :: 0 <= k < i ==> bs[k] != 0
    ensures FirstNul(bs) == i
  {
    if i > 0 {
      FirstNulIs(bs[1..], i - 1);
    }
  }

  lemma {:induction false} FieldsUnfold(f: Bytes, rest: Bytes)
    requires 0 !in f && Terminated(rest)
    ensures Terminated(f + [0] + rest) && Fields(f + [0] + rest) == [f] + Fields(rest)
  {
    var all := f + [0] + rest;
    FirstNulIs(all, |f|);
    assert all[..|f|] == f && all[|f| + 1..] == rest;
    hide FirstNul;
  }

  lemma {:induction false} SplittingUndoesJoining(fs: seq<Bytes>)
    requires NulFree(fs)
    ensures Terminated(Joined(fs)) && Fields(Joined(fs)) == fs
  {
    if fs != [] {
      SplittingUndoesJoining(fs[1..]);
      FieldsUnfold(fs[0], Joined(fs[1..]));
      hide Fields, Terminated;
    }
  }

  lemma {:induction false} FirstNulSplits(bs: Bytes)
    requires Terminated(bs) && bs != []
    ensures var i := FirstNul(bs);
            i < |bs| && bs == bs[..i] + [0] + bs[i + 1..] && Terminated(bs[i + 1..]) && 0 !in bs[..i]
  {
    hide FirstNul;
    assert bs[|bs| - 1] in bs && bs[..|bs|] == bs;
  }

  lemma {:induction false} JoiningUndoesSplitting(bs: Bytes)
    requires Terminated(bs)
    ensures Joined(Fields(bs)) == bs && NulFree(Fields(bs))
    decreases |bs|
  {
    if bs != [] {
      FirstNulSplits(bs);
      hide FirstNul, Terminated;
      var i := FirstNul(bs);
      var rest := Fields(bs[i + 1..]);
      JoiningUndoesSplitting(bs[i + 1..]);
      assert Fields(bs) == [bs[..i]] + rest;
      hide Fields;
      assert ([bs[..i]] + rest)[1..] == rest;
    }
  }

  // ----- The laws -----

  lemma {:induction false} EntriesParse(rs: seq<Entry>)
    requires AllOk(rs)
    ensures ParseFields(AllFields(rs)) == Ok(Paths(rs)) && Entries(AllFields(rs)) == rs
  {
    if rs != [] {
      hide EntryOk, ParseFields, Entries, FieldsOf;
      EntriesParse(rs[1..]);
    }
  }

  lemma {:induction false} EntriesAreNulFree(rs: seq<Entry>)
    requires AllOk(rs)
    ensures NulFree(AllFields(rs))
  {
    if rs != [] {
      hide EntryOk, FieldsOf;
      EntriesAreNulFree(rs[1..]);
    }
  }

  /** Parsing the printing of any records gives exactly their paths, even when a path looks like a status. */
  lemma PrintedRecordsParse(rs: seq<Entry>)
    requires AllOk(rs)
    ensures Terminated(Printed(rs)) && Parse(Printed(rs)) == Ok(Paths(rs)) && Entries(Fields(Printed(rs))) == rs
  {
    hide AllOk, AllFields, NulFree, Paths, ParseFields, Entries, Joined, Fields, Terminated;
    EntriesAreNulFree(rs);
    SplittingUndoesJoining(AllFields(rs));
    EntriesParse(rs);
  }

  lemma FirstEntryOf(fs: seq<Bytes>) returns (r: Entry, rest: seq<Bytes>)
    requires NulFree(fs) && fs != [] && ParseFields(fs).Ok?
    ensures EntryOk(r) && fs == FieldsOf(r) + rest && |rest| < |fs| && NulFree(rest) && ParseFields(rest).Ok?
  {
    hide PathOk, OnePathStatus, TwoPathStatus;
    if PathCount(fs[0]) == 1 {
      r, rest := One(fs[0], fs[1]), fs[2..];
      assert PathOk(fs[1]);
      assert fs == [fs[0], fs[1]] + fs[2..];
    } else {
      r, rest := Two(fs[0], fs[1], fs[2]), fs[3..];
      assert PathOk(fs[1]) && PathOk(fs[2]);
      assert fs == [fs[0], fs[1], fs[2]] + fs[3..];
    }
  }

  lemma {:induction false} AcceptedFieldsAreEntries(fs: seq<Bytes>)
    requires NulFree(fs) && ParseFields(fs).Ok?
    ensures AllOk(Entries(fs)) && AllFields(Entries(fs)) == fs && ParseFields(fs) == Ok(Paths(Entries(fs)))
    decreases |fs|
  {
    if fs != [] {
      hide NulFree, EntryOk, ParseFields, Entries, FieldsOf;
      var r, rest := FirstEntryOf(fs);
      AcceptedFieldsAreEntries(rest);
      assert ([r] + Entries(rest))[1..] == Entries(rest);
    }
  }

  /** Every accepted payload is the printing of the records it was read as. */
  lemma AcceptedPayloadIsAPrinting(payload: Bytes)
    requires Parse(payload).Ok?
    ensures var rs := Entries(Fields(payload));
            AllOk(rs) && payload == Printed(rs) && Parse(payload) == Ok(Paths(rs))
  {
    JoiningUndoesSplitting(payload);
    AcceptedFieldsAreEntries(Fields(payload));
    hide AllOk, AllFields, NulFree, Paths, ParseFields, Entries, Joined, Fields;
  }

  /** The parser accepts exactly the printings of well-formed records, and no payload can be read two ways. */
  lemma AcceptedExactlyWhenPrinted(payload: Bytes)
    ensures Parse(payload).Ok? <==> exists rs :: AllOk(rs) && payload == Printed(rs)
    ensures forall rs, ss :: AllOk(rs) && AllOk(ss) && Printed(rs) == Printed(ss) ==> rs == ss
  {
    hide AllOk, Printed, Parse, Fields, Entries, Paths;
    if Parse(payload).Ok? {
      AcceptedPayloadIsAPrinting(payload);
    }
    forall rs | AllOk(rs)
      ensures Parse(Printed(rs)).Ok? && Terminated(Printed(rs)) && Entries(Fields(Printed(rs))) == rs
    {
      PrintedRecordsParse(rs);
    }
  }
}
