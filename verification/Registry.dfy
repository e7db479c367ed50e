/** The discovery index: one table keyed by subject digest and statement path. */
module RegistryTable {
  import opened Basics
  import opened Json
  import opened Text
  import opened Statements

  /** A row; None is NULL. The primary key is (subjectDigest, statementPath), and a NULL path equals nothing. */
  datatype Row = Row(
    subjectDigest: string,
    repoUrl: Option<string>,
    runId: Option<string>,
    predicateType: Option<string>,
    level: Option<string>,
    statementPath: Option<string>,
    indexedAt: string
  )

  /** What indexing decodes from a statement; a subject without a sha256 digest gives "". */
  datatype Indexed = Indexed(predicateType: string, digests: seq<string>, runId: string, level: string, repoUrl: string)

  predicate DecodesAsObject(j: Value) {
    j.Null? || j.Obj?
  }

  predicate DecodesForIndex(j: Value) {
    && DecodesAsObject(j) && DecodesAsText(j, "predicateType")
    && (Member(j, "subject").Null? || Member(j, "subject").Arr?)
    && (forall s | s in ItemsMember(j, "subject") :: DecodesAsObject(s) && DecodesAsDigest(Member(s, "digest")))
    && var p := Member(j, "predicate");
       && DecodesAsObject(p) && DecodesAsText(p, "runId") && DecodesAsText(p, "verificationLevel")
       && DecodesAsObject(Member(p, "repo")) && DecodesAsText(Member(p, "repo"), "url")
  }

  function DigestsOf(subjects: seq<Value>): seq<string> {
    seq(|subjects|, i requires 0 <= i < |subjects| => TextOf(Member(subjects[i], "digest"), "sha256"))
  }

  function Decode(j: Value): Option<Indexed> {
    if !DecodesForIndex(j) then None
    else
      var p := Member(j, "predicate");
      Some(Indexed(TextOf(j, "predicateType"), DigestsOf(ItemsMember(j, "subject")), TextOf(p, "runId"),
                   TextOf(p, "verificationLevel"), TextOf(Member(p, "repo"), "url")))
  }

  predicate TextOrNull(j: Value, key: string) {
    Member(j, key).Null? || Member(j, key).Str?
  }

  predicate ObjectOrNull(j: Value) {
    j.Null? || j.Obj?
  }

  predicate TextsOrNull(j: Value) {
    j.Null? || (j.Obj? && forall key | key in j.fields :: j.fields[key].Null? || j.fields[key].Str?)
  }

  /** Exactly the statements that are indexed: every member that is read has its type, or is null or absent. */
  lemma DecodesIff(j: Value)
    ensures Decode(j).Some? <==>
            var p := Member(j, "predicate");
            && ObjectOrNull(j) && TextOrNull(j, "predicateType")
            && (Member(j, "subject").Null? || Member(j, "subject").Arr?)
            && (forall s | s in ItemsMember(j, "subject") ::
                  ObjectOrNull(s) && TextsOrNull(Member(s, "digest")))
            && ObjectOrNull(p) && TextOrNull(p, "runId") && TextOrNull(p, "verificationLevel")
            && ObjectOrNull(Member(p, "repo")) && TextOrNull(Member(p, "repo"), "url")
  {
  }

  function Nullable(s: string): Option<string> {
    if s == "" then None else Some(s)
  }

  /** One call of Add on a decodable statement. */
  datatype Addition = Addition(doc: Indexed, path: string, now: string)

  function RowOf(a: Addition, digest: string): Row {
    Row(digest, Nullable(a.doc.repoUrl), Nullable(a.doc.runId), Nullable(a.doc.predicateType),
        Nullable(a.doc.level), Nullable(a.path), a.now)
  }

  predicate SameKey(r: Row, s: Row) {
    r.statementPath.Some? && r.subjectDigest == s.subjectDigest && r.statementPath == s.statementPath
  }

  function Without(rows: seq<Row>, r: Row): seq<Row> {
    if rows == [] then []
    else (if SameKey(rows[0], r) then [] else [rows[0]]) + Without(rows[1..], r)
  }

  /** `insert or replace` */
  function InsertOrReplace(rows: seq<Row>, r: Row): seq<Row> {
    Without(rows, r) + [r]
  }

  /** The digests an addition indexes: the first `n` of them, without "" and without repetition. */
  function Fresh(digests: seq<string>, n: nat): seq<string>
    requires n <= |digests|
  {
    if n == 0 then []
    else
      var before, digest := Fresh(digests, n - 1), digests[n - 1];
      if digest == "" || digest in before then before else before + [digest]
  }

  function InsertAll(rows: seq<Row>, a: Addition, digests: seq<string>): seq<Row> {
    if digests == [] then rows
    else InsertOrReplace(InsertAll(rows, a, digests[..|digests| - 1]), RowOf(a, digests[|digests| - 1]))
  }

  function Added(rows: seq<Row>, a: Addition): seq<Row> {
    InsertAll(rows, a, Fresh(a.doc.digests, |a.doc.digests|))
  }

  /** The table after a log of additions. */
  function Replay(log: seq<Addition>): seq<Row> {
    if log == [] then [] else Added(Replay(log[..|log| - 1]), log[|log| - 1])
  }

  predicate Indexes(a: Addition, digest: string) {
    digest != "" && digest in a.doc.digests
  }

  lemma {:induction false} FreshMembers(digests: seq<string>, n: nat)
    requires n <= |digests|
    ensures forall d :: d in Fresh(digests, n) <==> d != "" && d in digests[..n]
    ensures forall i, j :: 0 <= i < j < |Fresh(digests, n)| ==> Fresh(digests, n)[i] != Fresh(digests, n)[j]
  {
    if n > 0 {
      FreshMembers(digests, n - 1);
      assert digests[..n] == digests[..n - 1] + [digests[n - 1]];
    }
  }

  lemma {:induction false} WithoutMembers(rows: seq<Row>, r: Row)
    ensures forall s :: s in Without(rows, r) <==> s in rows && !SameKey(s, r)
  {
    if rows != [] {
      WithoutMembers(rows[1..], r);
      assert rows == [rows[0]] + rows[1..];
    }
  }

  /** Whether inserting these digests leaves an older row in place. */
  predicate Survives(s: Row, a: Addition, digests: seq<string>) {
    !(s.statementPath == Some(a.path) && s.subjectDigest in digests)
  }

  predicate Inserted(s: Row, a: Addition, digests: seq<string>) {
    s.subjectDigest in digests && s == RowOf(a, s.subjectDigest)
  }

  /** Addition `k` is the last of its path to index this digest. */
  predicate IsLatest(log: seq<Addition>, k: nat, digest: string) {
    && k < |log| && Indexes(log[k], digest)
    && forall m | k < m < |log| :: !(log[m].path == log[k].path && Indexes(log[m], digest))
  }

  ghost predicate FromLog(log: seq<Addition>, r: Row) {
    exists k: nat :: IsLatest(log, k, r.subjectDigest) && r == RowOf(log[k], r.subjectDigest)
  }

  /** An earlier addition stays the latest unless the newest has its path and digest. */
  lemma LatestStep(log: seq<Addition>, k: nat, digest: string)
    requires log != [] && k < |log| - 1
    ensures var n := |log| - 1;
            IsLatest(log, k, digest) <==>
            IsLatest(log[..n], k, digest) && !(log[n].path == log[k].path && Indexes(log[n], digest))
  {
  }

  /** What the newest addition wrote, or what it left in place. */
  ghost predicate FromLastOrBefore(log: seq<Addition>, r: Row)
    requires log != []
  {
    var a := log[|log| - 1];
    || (Indexes(a, r.subjectDigest) && r == RowOf(a, r.subjectDigest))
    || (FromLog(log[..|log| - 1], r) && !(r.statementPath == Some(a.path) && Indexes(a, r.subjectDigest)))
  }

  lemma FromLogForward(log: seq<Addition>, r: Row)
    requires log != [] && r.statementPath.Some? && FromLog(log, r)
    ensures FromLastOrBefore(log, r)
  {
    var k: nat :| IsLatest(log, k, r.subjectDigest) && r == RowOf(log[k], r.subjectDigest);
    if k < |log| - 1 {
      LatestStep(log, k, r.subjectDigest);
      assert log[..|log| - 1][k] == log[k];
    }
  }

  lemma FromLogBackward(log: seq<Addition>, r: Row)
    requires log != [] && r.statementPath.Some? && FromLastOrBefore(log, r)
    ensures FromLog(log, r)
  {
    var n := |log| - 1;
    if Indexes(log[n], r.subjectDigest) && r == RowOf(log[n], r.subjectDigest) {
      assert IsLatest(log, n, r.subjectDigest);
    } else {
      var k: nat :| IsLatest(log[..n], k, r.subjectDigest) && r == RowOf(log[..n][k], r.subjectDigest);
      assert log[..n][k] == log[k] && k < n;
      LatestStep(log, k, r.subjectDigest);
    }
  }

  /** An addition writes this row. */
  predicate Writes(a: Addition, r: Row) {
    Indexes(a, r.subjectDigest) && r == RowOf(a, r.subjectDigest)
  }

  /** How many additions write this row. */
  function TimesWritten(log: seq<Addition>, r: Row): nat {
    if log == [] then 0
    else TimesWritten(log[..|log| - 1], r) + (if Writes(log[|log| - 1], r) then 1 else 0)
  }

  /**
   How often a row is in the table: one with a path once, when it is of the last addition of that path with
   its digest; one without a path as often as it was written.
   */
  ghost function Multiplicity(log: seq<Addition>, r: Row): nat {
    if r.statementPath.None? then TimesWritten(log, r) else if FromLog(log, r) then 1 else 0
  }

  /** No two rows share a key. */
  predicate KeysUnique(rows: seq<Row>) {
    forall i, j :: 0 <= i < j < |rows| ==> !SameKey(rows[i], rows[j])
  }

  lemma {:induction false} WithoutKeepsKeysUnique(rows: seq<Row>, r: Row)
    requires KeysUnique(rows)
    ensures KeysUnique(Without(rows, r))
  {
    if rows != [] {
      var rest := rows[1..];
      assert forall i, j | 0 <= i < j < |rest| :: rest[i] == rows[i + 1] && rest[j] == rows[j + 1];
      WithoutKeepsKeysUnique(rest, r);
      WithoutMembers(rest, r);
      forall j | 0 <= j < |Without(rest, r)|
        ensures !SameKey(rows[0], Without(rest, r)[j])
      {
        assert Without(rest, r)[j] in rest;
      }
    }
  }

  lemma InsertKeepsKeysUnique(rows: seq<Row>, r: Row)
    requires KeysUnique(rows)
    ensures KeysUnique(InsertOrReplace(rows, r))
  {
    WithoutKeepsKeysUnique(rows, r);
    WithoutMembers(rows, r);
    var kept := Without(rows, r);
    forall i | 0 <= i < |kept|
      ensures !SameKey(kept[i], r)
    {
      assert kept[i] in kept;
    }
  }

  lemma {:induction false} InsertAllKeepsKeysUnique(rows: seq<Row>, a: Addition, digests: seq<string>)
    requires KeysUnique(rows)
    ensures KeysUnique(InsertAll(rows, a, digests))
  {
    if digests != [] {
      var init := digests[..|digests| - 1];
      InsertAllKeepsKeysUnique(rows, a, init);
      InsertKeepsKeysUnique(InsertAll(rows, a, init), RowOf(a, digests[|digests| - 1]));
    }
  }

  /** After any log, each (digest, path) has at most one row. */
  lemma {:induction false} ReplayKeysUnique(log: seq<Addition>)
    ensures KeysUnique(Replay(log))
  {
    if log != [] {
      ReplayKeysUnique(log[..|log| - 1]);
      var a := log[|log| - 1];
      InsertAllKeepsKeysUnique(Replay(log[..|log| - 1]), a, Fresh(a.doc.digests, |a.doc.digests|));
    }
  }

  /** The rows that inserting these digests leaves in place, in order. */
  function Kept(rows: seq<Row>, a: Addition, digests: seq<string>): seq<Row> {
    if rows == [] then []
    else (if Survives(rows[0], a, digests) then [rows[0]] else []) + Kept(rows[1..], a, digests)
  }

  function RowsOf(a: Addition, digests: seq<string>): (rows: seq<Row>)
    ensures |rows| == |digests|
  {
    seq(|digests|, i requires 0 <= i < |digests| => RowOf(a, digests[i]))
  }

  predicate Distinct(digests: seq<string>) {
    forall i, j :: 0 <= i < j < |digests| ==> digests[i] != digests[j]
  }

  lemma {:induction false} WithoutJoins(x: seq<Row>, y: seq<Row>, r: Row)
    ensures Without(x + y, r) == Without(x, r) + Without(y, r)
  {
    if x == [] {
      assert x + y == y;
    } else {
      assert (x + y)[1..] == x[1..] + y;
      WithoutJoins(x[1..], y, r);
    }
  }

  lemma {:induction false} WithoutNone(rows: seq<Row>, r: Row)
    requires forall i | 0 <= i < |rows| :: !SameKey(rows[i], r)
    ensures Without(rows, r) == rows
  {
    if rows != [] {
      WithoutNone(rows[1..], r);
    }
  }

  lemma {:induction false} KeptStep(rows: seq<Row>, a: Addition, init: seq<string>, last: string)
    requires a.path != ""
    ensures Without(Kept(rows, a, init), RowOf(a, last)) == Kept(rows, a, init + [last])
  {
    if rows != [] {
      KeptStep(rows[1..], a, init, last);
      var here := if Survives(rows[0], a, init) then [rows[0]] else [];
      WithoutJoins(here, Kept(rows[1..], a, init), RowOf(a, last));
    }
  }

  /** Adding under a path takes the rows of its digests out and puts the new ones at the end. */
  lemma {:induction false} InsertAllReplaces(rows: seq<Row>, a: Addition, digests: seq<string>)
    requires a.path != "" && Distinct(digests)
    ensures InsertAll(rows, a, digests) == Kept(rows, a, digests) + RowsOf(a, digests)
  {
    if digests == [] {
      NothingReplaced(rows, a);
    } else {
      var init, last := digests[..|digests| - 1], digests[|digests| - 1];
      var r := RowOf(a, last);
      assert digests == init + [last] && RowsOf(a, digests) == RowsOf(a, init) + [r];
      InsertAllReplaces(rows, a, init);
      WithoutJoins(Kept(rows, a, init), RowsOf(a, init), r);
      KeptStep(rows, a, init, last);
      WithoutNone(RowsOf(a, init), r);
    }
  }

  lemma {:induction false} NothingReplaced(rows: seq<Row>, a: Addition)
    ensures Kept(rows, a, []) == rows
  {
    if rows != [] {
      NothingReplaced(rows[1..], a);
    }
  }

  /** Without a path, an addition replaces nothing: it appends its rows. */
  lemma {:induction false} NullPathAppends(rows: seq<Row>, a: Addition, digests: seq<string>)
    requires a.path == ""
    ensures InsertAll(rows, a, digests) == rows + RowsOf(a, digests)
  {
    if digests != [] {
      var init, last := digests[..|digests| - 1], digests[|digests| - 1];
      assert RowsOf(a, digests) == RowsOf(a, init) + [RowOf(a, last)];
      NullPathAppends(rows, a, init);
      WithoutNone(InsertAll(rows, a, init), RowOf(a, last));
    }
  }

  lemma {:induction false} KeptJoins(x: seq<Row>, y: seq<Row>, a: Addition, digests: seq<string>)
    ensures Kept(x + y, a, digests) == Kept(x, a, digests) + Kept(y, a, digests)
  {
    if x == [] {
      assert x + y == y;
    } else {
      assert (x + y)[1..] == x[1..] + y;
      KeptJoins(x[1..], y, a, digests);
    }
  }

  lemma {:induction false} KeptTwice(rows: seq<Row>, a: Addition, digests: seq<string>)
    ensures Kept(Kept(rows, a, digests), a, digests) == Kept(rows, a, digests)
  {
    if rows != [] {
      KeptTwice(rows[1..], a, digests);
      var here := if Survives(rows[0], a, digests) then [rows[0]] else [];
      KeptJoins(here, Kept(rows[1..], a, digests), a, digests);
    }
  }

  lemma {:induction false} OwnRowsReplaced(a: Addition, digests: seq<string>, rows: seq<Row>)
    requires a.path != "" && forall r | r in rows :: r.statementPath == Some(a.path) && r.subjectDigest in digests
    ensures Kept(rows, a, digests) == []
  {
    if rows != [] {
      OwnRowsReplaced(a, digests, rows[1..]);
    }
  }

  lemma {:induction false} KeptCount(rows: seq<Row>, a: Addition, digests: seq<string>, r: Row)
    ensures multiset(Kept(rows, a, digests))[r] == if Survives(r, a, digests) then multiset(rows)[r] else 0
  {
    if rows != [] {
      KeptCount(rows[1..], a, digests, r);
      assert rows == [rows[0]] + rows[1..];
    }
  }

  lemma {:induction false} RowsOfCount(a: Addition, digests: seq<string>, r: Row)
    requires Distinct(digests)
    ensures multiset(RowsOf(a, digests))[r] == if Inserted(r, a, digests) then 1 else 0
  {
    if digests != [] {
      var init, last := digests[..|digests| - 1], digests[|digests| - 1];
      assert digests == init + [last] && RowsOf(a, digests) == RowsOf(a, init) + [RowOf(a, last)];
      RowsOfCount(a, init, r);
    }
  }

  /** What one addition does to the number of copies of a row. */
  lemma AddedCount(rows: seq<Row>, a: Addition, r: Row)
    ensures multiset(Added(rows, a))[r] ==
              (if a.path != "" && r.statementPath == Some(a.path) && Indexes(a, r.subjectDigest) then 0
               else multiset(rows)[r]) + (if Writes(a, r) then 1 else 0)
  {
    var digests := Fresh(a.doc.digests, |a.doc.digests|);
    FreshMembers(a.doc.digests, |a.doc.digests|);
    assert a.doc.digests[..|a.doc.digests|] == a.doc.digests;
    RowsOfCount(a, digests, r);
    if a.path == "" {
      NullPathAppends(rows, a, digests);
    } else {
      InsertAllReplaces(rows, a, digests);
      KeptCount(rows, a, digests, r);
    }
  }

  /** The table holds each row exactly as often as the log gives it, with and without paths. */
  lemma {:induction false} TableRefinesLog(log: seq<Addition>, r: Row)
    ensures multiset(Replay(log))[r] == Multiplicity(log, r)
  {
    if log != [] {
      var n := |log| - 1;
      TableRefinesLog(log[..n], r);
      AddedCount(Replay(log[..n]), log[n], r);
      if r.statementPath.Some? {
        MultiplicityStep(log, r);
      }
    }
  }

  lemma MultiplicityStep(log: seq<Addition>, r: Row)
    requires log != [] && r.statementPath.Some?
    ensures var a := log[|log| - 1];
            Multiplicity(log, r) ==
              (if r.statementPath == Some(a.path) && Indexes(a, r.subjectDigest) then 0
               else Multiplicity(log[..|log| - 1], r)) + (if Writes(a, r) then 1 else 0)
  {
    if FromLog(log, r) {
      FromLogForward(log, r);
    }
    if FromLastOrBefore(log, r) {
      FromLogBackward(log, r);
    }
  }

  /** `twice` is `once` with some rows indexed at another time, and nothing else changed. */
  predicate DiffersInTimes(once: seq<Row>, twice: seq<Row>, a: Addition, later: string) {
    && |twice| == |once|
    && forall i | 0 <= i < |once| ::
         twice[i] == if Indexes(a, once[i].subjectDigest) && once[i].statementPath == Nullable(a.path)
                     then once[i].(indexedAt := later) else once[i]
  }

  /**
   Adding a statement again leaves the same rows in the same order, with new times on its own rows only, if
   and only if it has a path or indexes nothing.
   */
  lemma AddIsIdempotentIff(rows: seq<Row>, a: Addition, later: string)
    ensures DiffersInTimes(Added(rows, a), Added(Added(rows, a), a.(now := later)), a, later) <==>
            a.path != "" || forall digest :: !Indexes(a, digest)
  {
    var digests := Fresh(a.doc.digests, |a.doc.digests|);
    FreshMembers(a.doc.digests, |a.doc.digests|);
    assert a.doc.digests[..|a.doc.digests|] == a.doc.digests;
    assert digests == [] <==> forall digest :: !Indexes(a, digest) by {
      if digests != [] {
        assert digests[0] in digests && Indexes(a, digests[0]);
      }
    }
    if a.path == "" {
      NullPathAppends(Added(rows, a), a.(now := later), digests);
    } else {
      AddAgainChangesOnlyTimes(rows, a, later);
    }
  }

  /** With a path: the rows that stay, then those of the statement, both times. */
  lemma AddAgainForm(rows: seq<Row>, a: Addition, later: string)
    requires a.path != ""
    ensures var b, digests := a.(now := later), Fresh(a.doc.digests, |a.doc.digests|);
            && Added(rows, a) == Kept(rows, a, digests) + RowsOf(a, digests)
            && Added(Added(rows, a), b) == Kept(rows, a, digests) + RowsOf(b, digests)
  {
    hide InsertAll, Kept, Fresh, Survives;
    var b, digests := a.(now := later), Fresh(a.doc.digests, |a.doc.digests|);
    FreshMembers(a.doc.digests, |a.doc.digests|);
    var kept := Kept(rows, a, digests);
    var once := kept + RowsOf(a, digests);
    InsertAllReplaces(rows, a, digests);
    InsertAllReplaces(once, b, digests);
    SameSurvivors(once, a, b, digests);
    KeptJoins(kept, RowsOf(a, digests), a, digests);
    KeptTwice(rows, a, digests);
    OwnRowsReplaced(a, digests, RowsOf(a, digests));
  }

  lemma FormsDifferInTimes(kept: seq<Row>, a: Addition, later: string, digests: seq<string>)
    requires a.path != "" && (forall d | d in digests :: Indexes(a, d)) && (forall d | Indexes(a, d) :: d in digests)
    requires forall r | r in kept :: Survives(r, a, digests)
    ensures DiffersInTimes(kept + RowsOf(a, digests), kept + RowsOf(a.(now := later), digests), a, later)
  {
    var once, twice := kept + RowsOf(a, digests), kept + RowsOf(a.(now := later), digests);
    forall i | 0 <= i < |once|
      ensures twice[i] == if Indexes(a, once[i].subjectDigest) && once[i].statementPath == Nullable(a.path)
                          then once[i].(indexedAt := later) else once[i]
    {
      if i < |kept| {
        assert once[i] in kept && Survives(once[i], a, digests);
      } else {
        assert digests[i - |kept|] in digests;
      }
    }
  }

  /** Adding again under a path changes the times of the statement's own rows and nothing else. */
  lemma AddAgainChangesOnlyTimes(rows: seq<Row>, a: Addition, later: string)
    requires a.path != ""
    ensures DiffersInTimes(Added(rows, a), Added(Added(rows, a), a.(now := later)), a, later)
  {
    var digests := Fresh(a.doc.digests, |a.doc.digests|);
    FreshMembers(a.doc.digests, |a.doc.digests|);
    assert a.doc.digests[..|a.doc.digests|] == a.doc.digests;
    AddAgainForm(rows, a, later);
    KeptSurvive(rows, a, digests);
    FormsDifferInTimes(Kept(rows, a, digests), a, later, digests);
  }

  lemma {:induction false} SameSurvivors(rows: seq<Row>, a: Addition, b: Addition, digests: seq<string>)
    requires a.path == b.path
    ensures Kept(rows, a, digests) == Kept(rows, b, digests)
  {
    if rows != [] {
      SameSurvivors(rows[1..], a, b, digests);
    }
  }

  lemma {:induction false} KeptSurvive(rows: seq<Row>, a: Addition, digests: seq<string>)
    ensures forall r | r in Kept(rows, a, digests) :: Survives(r, a, digests)
  {
    if rows != [] {
      KeptSurvive(rows[1..], a, digests);
    }
  }

  /** One result of a query; NULL columns read as "". */
  datatype Entry = Entry(
    subjectDigest: string,
    repoUrl: string,
    runId: string,
    predicateType: string,
    level: string,
    statementPath: string,
    indexedAt: string
  )

  function EntryOf(r: Row): Entry {
    Entry(r.subjectDigest, r.repoUrl.GetOr(""), r.runId.GetOr(""), r.predicateType.GetOr(""),
          r.level.GetOr(""), r.statementPath.GetOr(""), r.indexedAt)
  }

  datatype Column = SubjectDigest | RepoUrl | RunId

  /** `where column = ?`: NULL equals nothing. */
  predicate Matches(r: Row, column: Column, arg: string) {
    match column
    case SubjectDigest => r.subjectDigest == arg
    case RepoUrl => r.repoUrl == Some(arg)
    case RunId => r.runId == Some(arg)
  }

  function Select(rows: seq<Row>, column: Column, arg: string): seq<Entry> {
    if rows == [] then []
    else
      Select(rows[..|rows| - 1], column, arg)
      + (if Matches(rows[|rows| - 1], column, arg) then [EntryOf(rows[|rows| - 1])] else [])
  }

  /** `order by indexed_at, subject_digest` */
  predicate NotAfter(a: Entry, b: Entry) {
    if a.indexedAt != b.indexedAt then TextLess(a.indexedAt, b.indexedAt)
    else a.subjectDigest == b.subjectDigest || TextLess(a.subjectDigest, b.subjectDigest)
  }

  predicate Ordered(es: seq<Entry>) {
    forall i, j :: 0 <= i < j < |es| ==> NotAfter(es[i], es[j])
  }

  lemma NotAfterIsTotal(a: Entry, b: Entry)
    ensures NotAfter(a, b) || NotAfter(b, a)
  {
    TextLessIsTotal(a.indexedAt, b.indexedAt);
    TextLessIsTotal(a.subjectDigest, b.subjectDigest);
  }

  lemma NotAfterIsTransitive(a: Entry, b: Entry, c: Entry)
    requires NotAfter(a, b) && NotAfter(b, c)
    ensures NotAfter(a, c)
  {
    TextLessIsTotal(a.indexedAt, b.indexedAt);
    TextLessIsTotal(a.indexedAt, c.indexedAt);
    if a.indexedAt != b.indexedAt && b.indexedAt != c.indexedAt {
      TextLessIsTransitive(a.indexedAt, b.indexedAt, c.indexedAt);
    }
    if a.indexedAt == b.indexedAt == c.indexedAt && a.subjectDigest != b.subjectDigest && b.subjectDigest != c.subjectDigest {
      TextLessIsTransitive(a.subjectDigest, b.subjectDigest, c.subjectDigest);
    }
  }

  /** `e` put among ordered entries, after every entry that is not after it. */
  function Placed(es: seq<Entry>, e: Entry): (r: seq<Entry>)
    requires Ordered(es)
    ensures Ordered(r) && multiset(r) == multiset(es) + multiset{e}
  {
    if es == [] then [e]
    else
      var last, init := es[|es| - 1], es[..|es| - 1];
      assert es == init + [last];
      if NotAfter(last, e) then
        assert Ordered(es + [e]) by {
          forall i | 0 <= i < |init|
            ensures NotAfter(es[i], e)
          {
            NotAfterIsTransitive(es[i], last, e);
          }
        }
        es + [e]
      else
        NotAfterIsTotal(e, last);
        OrderedSnoc(Placed(init, e), last, init, e);
        Placed(init, e) + [last]
  }

  lemma OrderedSnoc(r: seq<Entry>, last: Entry, init: seq<Entry>, e: Entry)
    requires Ordered(r) && Ordered(init + [last]) && NotAfter(e, last) && multiset(r) == multiset(init) + multiset{e}
    ensures Ordered(r + [last])
  {
    forall i | 0 <= i < |r|
      ensures NotAfter(r[i], last)
    {
      assert r[i] in multiset(r);
      if r[i] in init {
        var k :| 0 <= k < |init| && init[k] == r[i];
        assert (init + [last])[k] == init[k] && (init + [last])[|init|] == last;
      }
    }
  }

  lemma OrderRead(es: seq<Entry>)
    requires Ordered(es)
    ensures forall i, j :: 0 <= i < j < |es| ==>
              || TextLess(es[i].indexedAt, es[j].indexedAt)
              || (es[i].indexedAt == es[j].indexedAt && !TextLess(es[j].subjectDigest, es[i].subjectDigest))
  {
    forall i, j | 0 <= i < j < |es|
      ensures es[i].indexedAt == es[j].indexedAt ==> !TextLess(es[j].subjectDigest, es[i].subjectDigest)
    {
      assert NotAfter(es[i], es[j]);
      TextLessIsTotal(es[i].subjectDigest, es[j].subjectDigest);
    }
  }

  lemma SelectStep(rows: seq<Row>, i: nat, column: Column, arg: string)
    requires i < |rows|
    ensures Select(rows[..i + 1], column, arg)
         == Select(rows[..i], column, arg) + (if Matches(rows[i], column, arg) then [EntryOf(rows[i])] else [])
  {
    assert rows[..i + 1][..i] == rows[..i];
  }

  function Seen(digests: seq<string>, n: nat): set<string>
    requires n <= |digests|
  {
    set d | d in Fresh(digests, n)
  }

  lemma FreshStep(before: seq<Row>, a: Addition, i: nat)
    requires i < |a.doc.digests|
    ensures var digests, digest := a.doc.digests, a.doc.digests[i];
            if digest == "" || digest in Seen(digests, i) then Fresh(digests, i + 1) == Fresh(digests, i)
            else
              && Seen(digests, i + 1) == Seen(digests, i) + {digest}
              && InsertAll(before, a, Fresh(digests, i + 1))
                 == InsertOrReplace(InsertAll(before, a, Fresh(digests, i)), RowOf(a, digest))
  {
    var digests := a.doc.digests;
    if digests[i] != "" && digests[i] !in Fresh(digests, i) {
      var next := Fresh(digests, i + 1);
      assert next == Fresh(digests, i) + [digests[i]];
      assert next[..|next| - 1] == Fresh(digests, i);
    }
  }

  lemma FreshStart(before: seq<Row>, a: Addition)
    ensures Seen(a.doc.digests, 0) == {} && InsertAll(before, a, Fresh(a.doc.digests, 0)) == before
  {
  }

  lemma ReplayStep(log: seq<Addition>, a: Addition)
    ensures Replay(log + [a]) == InsertAll(Replay(log), a, Fresh(a.doc.digests, |a.doc.digests|))
  {
    assert (log + [a])[..|log|] == log;
  }

  /** The statement has a subject with this sha256 digest. */
  predicate HasSubject(statement: Value, digest: string) {
    digest != "" && exists s | s in ItemsMember(statement, "subject") :: TextOf(Member(s, "digest"), "sha256") == digest
  }

  /** An entry is found by its digest, its repository and its run, and by no other text of these columns. */
  ghost predicate FoundByItsTexts(rows: seq<Row>, e: Entry) {
    && (forall q :: e in Select(rows, SubjectDigest, q) <==> q == e.subjectDigest)
    && (forall q :: e in Select(rows, RepoUrl, q) <==> q == e.repoUrl && q != "")
    && (forall q :: e in Select(rows, RunId, q) <==> q == e.runId && q != "")
  }

  /** The entry a statement gives for a digest, in the statement's own members. */
  function Indexing(statement: Value, digest: string, path: string, now: string): Entry {
    Entry(digest, TextOf(Member(Member(statement, "predicate"), "repo"), "url"),
          TextOf(Member(statement, "predicate"), "runId"), TextOf(statement, "predicateType"),
          TextOf(Member(statement, "predicate"), "verificationLevel"), path, now)
  }

  lemma RowReads(statement: Value, digest: string, path: string, now: string)
    requires Decode(statement).Some?
    ensures EntryOf(RowOf(Addition(Decode(statement).value, path, now), digest)) == Indexing(statement, digest, path, now)
  {
  }

  lemma DigestIsIndexed(statement: Value, digest: string)
    requires Decode(statement).Some? && HasSubject(statement, digest)
    ensures digest in Fresh(Decode(statement).value.digests, |Decode(statement).value.digests|)
  {
    var items, digests := ItemsMember(statement, "subject"), Decode(statement).value.digests;
    var i :| 0 <= i < |items| && TextOf(Member(items[i], "digest"), "sha256") == digest;
    assert digests[i] == digest;
    FreshMembers(digests, |digests|);
    assert digests[..|digests|] == digests;
  }

  lemma AddedRowIsPresent(rows: seq<Row>, a: Addition, digests: seq<string>, digest: string)
    requires digest in digests && Distinct(digests)
    ensures RowOf(a, digest) in InsertAll(rows, a, digests)
  {
    var i :| 0 <= i < |digests| && digests[i] == digest;
    assert RowsOf(a, digests)[i] == RowOf(a, digest);
    if a.path == "" {
      NullPathAppends(rows, a, digests);
    } else {
      InsertAllReplaces(rows, a, digests);
    }
  }

  lemma PresentIsFound(rows: seq<Row>, r: Row)
    requires NoEmptyTexts(rows) && r in rows
    ensures FoundByItsTexts(rows, EntryOf(r))
  {
    forall q
      ensures EntryOf(r) in Select(rows, SubjectDigest, q) <==> q == r.subjectDigest
      ensures EntryOf(r) in Select(rows, RepoUrl, q) <==> q == EntryOf(r).repoUrl && q != ""
      ensures EntryOf(r) in Select(rows, RunId, q) <==> q == EntryOf(r).runId && q != ""
    {
      SelectsMatching(rows, SubjectDigest, q);
      SelectsMatching(rows, RepoUrl, q);
      SelectsMatching(rows, RunId, q);
    }
  }

  /** After adding a statement, each of its digests is found with the statement's texts, by those texts. */
  lemma AddedIsFound(log: seq<Addition>, statement: Value, path: string, now: string, digest: string)
    requires Decode(statement).Some? && HasSubject(statement, digest)
    ensures FoundByItsTexts(Replay(log + [Addition(Decode(statement).value, path, now)]), Indexing(statement, digest, path, now))
  {
    hide FoundByItsTexts, Decode, HasSubject, InsertAll, RowOf, EntryOf, Indexing, NoEmptyTexts, Fresh, Replay;
    var a := Addition(Decode(statement).value, path, now);
    ReplayStep(log, a);
    DigestIsIndexed(statement, digest);
    FreshMembers(a.doc.digests, |a.doc.digests|);
    AddedRowIsPresent(Replay(log), a, Fresh(a.doc.digests, |a.doc.digests|), digest);
    ReplayHasNoEmptyTexts(log + [a]);
    PresentIsFound(Replay(log + [a]), RowOf(a, digest));
    RowReads(statement, digest, path, now);
  }

  /** The registry: the table of statements, changed only by Add. */
  class Registry {
    var rows: seq<Row>
    ghost var log: seq<Addition>  // the additions so far

    ghost predicate Valid()
      reads this
    {
      rows == Replay(log)
    }

    constructor ()
      ensures Valid() && log == []
    {
      rows := [];
      log := [];
    }

    /** Indexes a statement by each of its digests; one that cannot be decoded changes nothing. */
    method Add(statement: Value, path: string, now: string) returns (ok: bool)
      requires Valid()
      modifies this
      ensures Valid()
      ensures ok <==> Decode(statement).Some?
      ensures ok ==> log == old(log) + [Addition(Decode(statement).value, path, now)]
      ensures !ok ==> log == old(log) && rows == old(rows)
      ensures ok ==> forall digest | HasSubject(statement, digest) ::
                       FoundByItsTexts(rows, Entry(digest, TextOf(Member(Member(statement, "predicate"), "repo"), "url"),
                                                   TextOf(Member(statement, "predicate"), "runId"),
                                                   TextOf(statement, "predicateType"),
                                                   TextOf(Member(statement, "predicate"), "verificationLevel"), path, now))
    {
      hide Decode, Fresh, InsertAll, InsertOrReplace, Replay, RowOf, HasSubject, FoundByItsTexts;
      var decoded := Decode(statement);
      if decoded.None? {
        return false;
      }
      var a := Addition(decoded.value, path, now);
      var seen: set<string> := {};
      FreshStart(rows, a);
      for i := 0 to |a.doc.digests|
        invariant seen == Seen(a.doc.digests, i)
        invariant rows == InsertAll(old(rows), a, Fresh(a.doc.digests, i))
        invariant log == old(log)
      {
        var digest := a.doc.digests[i];
        FreshStep(old(rows), a, i);
        if digest != "" && digest !in seen {
          seen := seen + {digest};
          rows := InsertOrReplace(rows, RowOf(a, digest));
        }
      }
      ReplayStep(log, a);
      forall digest | HasSubject(statement, digest)
        ensures FoundByItsTexts(Replay(log + [a]), Indexing(statement, digest, path, now))
      {
        AddedIsFound(log, statement, path, now, digest);
      }
      log := log + [a];
      ok := true;
    }

    /** The matching rows, in order of time and digest. */
    method Query(column: Column, arg: string) returns (out: seq<Entry>)
      ensures multiset(out) == multiset(Select(rows, column, arg)) && Ordered(out)
      ensures forall i, j :: 0 <= i < j < |out| ==>
                || TextLess(out[i].indexedAt, out[j].indexedAt)
                || (out[i].indexedAt == out[j].indexedAt && !TextLess(out[j].subjectDigest, out[i].subjectDigest))
    {
      out := [];
      for i := 0 to |rows|
        invariant multiset(out) == multiset(Select(rows[..i], column, arg)) && Ordered(out)
      {
        SelectStep(rows, i, column, arg);
        if Matches(rows[i], column, arg) {
          out := Placed(out, EntryOf(rows[i]));
        }
      }
      assert rows[..|rows|] == rows;
      OrderRead(out);
    }

    method BySubject(digest: string) returns (out: seq<Entry>)
      ensures multiset(out) == multiset(Select(rows, SubjectDigest, digest)) && Ordered(out)
    {
      out := Query(SubjectDigest, digest);
    }

    method ByRepo(repoUrl: string) returns (out: seq<Entry>)
      ensures multiset(out) == multiset(Select(rows, RepoUrl, repoUrl)) && Ordered(out)
    {
      out := Query(RepoUrl, repoUrl);
    }

    method ByRunId(runId: string) returns (out: seq<Entry>)
      ensures multiset(out) == multiset(Select(rows, RunId, runId)) && Ordered(out)
    {
      out := Query(RunId, runId);
    }
  }

  predicate NoEmptyTexts(rows: seq<Row>) {
    forall r | r in rows :: r.subjectDigest != "" && r.repoUrl != Some("") && r.runId != Some("")
  }

  lemma InsertKeepsNoEmptyTexts(rows: seq<Row>, r: Row)
    requires NoEmptyTexts(rows) && NoEmptyTexts([r])
    ensures NoEmptyTexts(InsertOrReplace(rows, r))
  {
    WithoutMembers(rows, r);
    assert r in [r];
  }

  lemma {:induction false} InsertAllKeepsNoEmptyTexts(rows: seq<Row>, a: Addition, digests: seq<string>)
    requires NoEmptyTexts(rows) && "" !in digests
    ensures NoEmptyTexts(InsertAll(rows, a, digests))
  {
    if digests != [] {
      InsertAllKeepsNoEmptyTexts(rows, a, digests[..|digests| - 1]);
      InsertKeepsNoEmptyTexts(InsertAll(rows, a, digests[..|digests| - 1]), RowOf(a, digests[|digests| - 1]));
    }
  }

  lemma {:induction false} ReplayHasNoEmptyTexts(log: seq<Addition>)
    ensures NoEmptyTexts(Replay(log))
  {
    if log != [] {
      ReplayHasNoEmptyTexts(log[..|log| - 1]);
      var a := log[|log| - 1];
      FreshMembers(a.doc.digests, |a.doc.digests|);
      InsertAllKeepsNoEmptyTexts(Replay(log[..|log| - 1]), a, Fresh(a.doc.digests, |a.doc.digests|));
    }
  }

  lemma {:induction false} SelectsMatching(rows: seq<Row>, column: Column, arg: string)
    ensures forall e :: e in Select(rows, column, arg) <==>
                        exists r | r in rows :: Matches(r, column, arg) && e == EntryOf(r)
  {
    if rows != [] {
      SelectsMatching(rows[..|rows| - 1], column, arg);
      assert rows == rows[..|rows| - 1] + [rows[|rows| - 1]];
    }
  }

  lemma {:induction false} NothingMatchesEmpty(rows: seq<Row>, column: Column)
    requires NoEmptyTexts(rows)
    ensures Select(rows, column, "") == []
  {
    if rows != [] {
      assert rows[|rows| - 1] in rows;
      NothingMatchesEmpty(rows[..|rows| - 1], column);
    }
  }

  /** After any log, asking for the empty text finds nothing, by any column. */
  lemma EmptyQueryFindsNothing(log: seq<Addition>, column: Column)
    ensures Select(Replay(log), column, "") == []
  {
    ReplayHasNoEmptyTexts(log);
    NothingMatchesEmpty(Replay(log), column);
  }
}
