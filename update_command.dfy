/**
  The `update` command: plan which scripts to run against the records of
  scripts already applied, refuse to run anything while a conflict exists,
  apply the ordered migrations one at a time, then apply the desired-state
  scripts in groups of eight, each group on its own connection.
*/
module UpdateCommand {
  import opened Wrappers
  import opened ScriptFiles

  /** A row of the applied-scripts table. `appliedUtc` is a UTC time stamp. */
  datatype AppliedRecord = AppliedRecord(fileNameMd5Hash: Guid, contentSha1Hash: string, appliedUtc: int)

  /** What `SingleOrDefault` finds for one name hash: nothing, one record, or (it throws) several. */
  datatype Existing = NoRecord | Record(record: AppliedRecord) | SeveralRecords

  /** The fate of one script in the planning loop. */
  datatype Route = Skipped | Conflicting(appliedUtc: int) | Ordered | DesiredState | Ambiguous

  /** A conflict as reported: the script and when its earlier version was applied. */
  datatype Conflict = Conflict(file: ScriptFile, appliedUtc: int)

  datatype UpdatePlan = UpdatePlan(
    toExecute: seq<ScriptFile>,
    toExecuteDesiredState: seq<ScriptFile>,
    conflicts: seq<Conflict>)

  /** `SingleOrDefault` throws `InvalidOperationException`; the script being looked up is named. */
  datatype PlanError = MoreThanOneRecord(fileName: string)

  /** `records.SingleOrDefault(x => x.FileNameMD5Hash == h)`. */
  function Lookup(records: seq<AppliedRecord>, h: Guid): (e: Existing)
    ensures e == NoRecord <==> forall i :: 0 <= i < |records| ==> records[i].fileNameMd5Hash != h
    ensures e.Record? ==>
      exists i :: 0 <= i < |records| && records[i] == e.record && e.record.fileNameMd5Hash == h &&
        forall j :: 0 <= j < |records| && j != i ==> records[j].fileNameMd5Hash != h
    ensures e == SeveralRecords <==>
      exists i, j :: 0 <= i < j < |records| && records[i].fileNameMd5Hash == h && records[j].fileNameMd5Hash == h
  {
    if records == [] then NoRecord
    else
      var rest := Lookup(records[1..], h);
      if records[0].fileNameMd5Hash != h then
        rest
      else if rest == NoRecord then Record(records[0])
      else
        assert exists j :: 0 <= j < |records| - 1 && records[1..][j].fileNameMd5Hash == h;
        SeveralRecords
  }

  /** Where a script not yet applied goes: the desired-state list or the ordered list. */
  function Scheduled(file: ScriptFile): Route {
    if file.isDesiredState then DesiredState else Ordered
  }

  /** The decision rule of the planning loop for one script. */
  function Decide(file: ScriptFile, existing: Existing): (route: Route)
  {
    match existing
    case SeveralRecords => Ambiguous
    case NoRecord => Scheduled(file)
    case Record(rec) =>
      if !file.isDesiredState && ContentMatches(file, rec.contentSha1Hash) then Skipped
      else if file.conflictOnContent then Conflicting(rec.appliedUtc)
      else Scheduled(file)
  }

  /** What each route of the decision rule requires of the script and its record. */
  lemma DecideCases(file: ScriptFile, existing: Existing)
    ensures var route := Decide(file, existing);
      && (route == Ambiguous <==> existing == SeveralRecords)
      && (route == Skipped ==>
            existing.Record? && !file.isDesiredState && ContentMatches(file, existing.record.contentSha1Hash))
      && (route.Conflicting? ==>
            existing.Record? && file.conflictOnContent && route.appliedUtc == existing.record.appliedUtc)
      && (route == DesiredState ==> file.isDesiredState)
      && (route == Ordered ==> !file.isDesiredState)
      && (existing == NoRecord ==> route == Ordered || route == DesiredState)
  {
  }

  /** The route of one script of the planning loop, given every applied record. */
  function RouteOf(file: ScriptFile, records: seq<AppliedRecord>): Route {
    Decide(file, Lookup(records, file.fileNameHash))
  }

  predicate HasSeveralRecords(file: ScriptFile, records: seq<AppliedRecord>) {
    Lookup(records, file.fileNameHash) == SeveralRecords
  }

  /** The plan contributed by a single script. */
  function PlanOne(file: ScriptFile, route: Route): UpdatePlan {
    match route
    case Ordered => UpdatePlan([file], [], [])
    case DesiredState => UpdatePlan([], [file], [])
    case Conflicting(t) => UpdatePlan([], [], [Conflict(file, t)])
    case _ => UpdatePlan([], [], [])
  }

  function Join(a: UpdatePlan, b: UpdatePlan): UpdatePlan {
    UpdatePlan(a.toExecute + b.toExecute,
               a.toExecuteDesiredState + b.toExecuteDesiredState,
               a.conflicts + b.conflicts)
  }

  /** Planning `a` and then `b`: the first error wins, otherwise the two plans joined. */
  function Combine(ra: Result<UpdatePlan, PlanError>, rb: Result<UpdatePlan, PlanError>): Result<UpdatePlan, PlanError> {
    if ra.Failure? then ra
    else if rb.Failure? then rb
    else Success(Join(ra.value, rb.value))
  }

  /**
    The plan for `files` in loader order: each script's contribution, joined
    in order; the first script with several records aborts planning.
  */
  function PlanOf(files: seq<ScriptFile>, records: seq<AppliedRecord>): (r: Result<UpdatePlan, PlanError>)
  {
    if files == [] then Success(UpdatePlan([], [], []))
    else
      var route := RouteOf(files[0], records);
      if route == Ambiguous then Failure(MoreThanOneRecord(files[0].fileName))
      else Combine(Success(PlanOne(files[0], route)), PlanOf(files[1..], records))
  }

  /** Each script adds at most one entry to the plan: one of the two lists or a conflict. */
  lemma {:induction false} PlanSize(files: seq<ScriptFile>, records: seq<AppliedRecord>)
    ensures var r := PlanOf(files, records);
      r.Success? ==> |r.value.toExecute| + |r.value.toExecuteDesiredState| + |r.value.conflicts| <= |files|
  {
    if files != [] {
      PlanSize(files[1..], records);
    }
  }

  lemma CombineAssociative(ra: Result<UpdatePlan, PlanError>, rb: Result<UpdatePlan, PlanError>, rc: Result<UpdatePlan, PlanError>)
    ensures Combine(Combine(ra, rb), rc) == Combine(ra, Combine(rb, rc))
  {
    if ra.Success? && rb.Success? && rc.Success? {
      var a, b, c := ra.value, rb.value, rc.value;
      assert Join(Join(a, b), c) == Join(a, Join(b, c));
    }
  }

  /**
    Planning is compositional in loader order: the plan of `a + b` is the plan
    of `a` followed by the plan of `b`, and an error in `a` comes first.
  */
  lemma {:induction false} PlanOfConcat(a: seq<ScriptFile>, b: seq<ScriptFile>, records: seq<AppliedRecord>)
    ensures PlanOf(a + b, records) == Combine(PlanOf(a, records), PlanOf(b, records))
  {
    if a == [] {
      assert a + b == b;
      if PlanOf(b, records).Success? {
        var pb := PlanOf(b, records).value;
        assert Join(UpdatePlan([], [], []), pb) == pb;
      }
    } else {
      assert (a + b)[0] == a[0] && (a + b)[1..] == a[1..] + b;
      PlanOfConcat(a[1..], b, records);
      var route := RouteOf(a[0], records);
      if route != Ambiguous {
        CombineAssociative(Success(PlanOne(a[0], route)), PlanOf(a[1..], records), PlanOf(b, records));
      }
    }
  }

  /** The plan of a single script is its own contribution. */
  lemma PlanOfSingle(file: ScriptFile, records: seq<AppliedRecord>)
    requires !HasSeveralRecords(file, records)
    ensures PlanOf([file], records) == Success(PlanOne(file, RouteOf(file, records)))
  {
    assert [file][1..] == [];
    var one := PlanOne(file, RouteOf(file, records));
    assert Join(one, UpdatePlan([], [], [])) == one;
  }

  /**
    Every script is visited: a script lands in the ordered list, in the
    desired-state list or among the conflicts exactly when its route says so,
    hence in at most one of them.
  */
  lemma {:induction false} PlanMembership(files: seq<ScriptFile>, records: seq<AppliedRecord>, p: UpdatePlan)
    requires PlanOf(files, records) == Success(p)
    ensures forall x :: x in p.toExecute <==> x in files && RouteOf(x, records) == Ordered
    ensures forall x :: x in p.toExecuteDesiredState <==> x in files && RouteOf(x, records) == DesiredState
    ensures forall c :: c in p.conflicts <==> c.file in files && RouteOf(c.file, records) == Conflicting(c.appliedUtc)
  {
    if files != [] {
      var f, tail := files[0], files[1..];
      var route := RouteOf(f, records);
      assert route != Ambiguous && PlanOf(tail, records).Success?;
      var rest := PlanOf(tail, records).value;
      assert p == Join(PlanOne(f, route), rest);
      PlanMembership(tail, records, rest);
      assert forall x :: x in files <==> x == f || x in tail;
    }
  }

  /** Planning fails exactly when some script has several records. */
  lemma {:induction false} PlanFailsIff(files: seq<ScriptFile>, records: seq<AppliedRecord>)
    ensures PlanOf(files, records).Failure? <==> exists x :: x in files && HasSeveralRecords(x, records)
  {
    if files != [] {
      PlanFailsIff(files[1..], records);
      assert files == [files[0]] + files[1..];
      assert RouteOf(files[0], records) == Ambiguous <==> HasSeveralRecords(files[0], records);
    }
  }

  /** The error names the first script, in loader order, with several records. */
  lemma {:induction false} PlanFailureNamesFirst(files: seq<ScriptFile>, records: seq<AppliedRecord>, i: nat)
    requires i < |files| && HasSeveralRecords(files[i], records)
    requires forall j :: 0 <= j < i ==> !HasSeveralRecords(files[j], records)
    ensures PlanOf(files, records) == Failure(MoreThanOneRecord(files[i].fileName))
  {
    if i > 0 {
      var rest := files[1..];
      assert rest[i - 1] == files[i];
      assert forall j :: 0 <= j < i - 1 ==> rest[j] == files[j + 1];
      PlanFailureNamesFirst(rest, records, i - 1);
      assert !HasSeveralRecords(files[0], records);
      assert RouteOf(files[0], records) != Ambiguous;
    } else {
      assert RouteOf(files[0], records) == Ambiguous;
    }
  }

  /** A script without a record is scheduled, in the list its `IsDesiredState` selects and only there. */
  lemma UnrecordedScriptIsScheduled(files: seq<ScriptFile>, records: seq<AppliedRecord>, p: UpdatePlan, x: ScriptFile)
    requires PlanOf(files, records) == Success(p) && x in files
    requires forall r :: r in records ==> r.fileNameMd5Hash != x.fileNameHash
    ensures x.isDesiredState ==> x in p.toExecuteDesiredState && x !in p.toExecute
    ensures !x.isDesiredState ==> x in p.toExecute && x !in p.toExecuteDesiredState
    ensures forall c :: c in p.conflicts ==> c.file != x
  {
    PlanMembership(files, records, p);
    assert Lookup(records, x.fileNameHash) == NoRecord;
  }

  /** A non-desired-state script whose record's content hash matches is skipped: no list, no conflict. */
  lemma UnchangedScriptIsSkipped(
    files: seq<ScriptFile>, records: seq<AppliedRecord>, p: UpdatePlan, x: ScriptFile, rec: AppliedRecord)
    requires PlanOf(files, records) == Success(p) && x in files
    requires Lookup(records, x.fileNameHash) == Record(rec)
    requires !x.isDesiredState && ContentMatches(x, rec.contentSha1Hash)
    ensures x !in p.toExecute && x !in p.toExecuteDesiredState
    ensures forall c :: c in p.conflicts ==> c.file != x
  {
    PlanMembership(files, records, p);
  }

  /** A desired-state script with a record re-runs, content match or not, unless it conflicts on content. */
  lemma DesiredStateScriptReruns(
    files: seq<ScriptFile>, records: seq<AppliedRecord>, p: UpdatePlan, x: ScriptFile, rec: AppliedRecord)
    requires PlanOf(files, records) == Success(p) && x in files
    requires Lookup(records, x.fileNameHash) == Record(rec)
    requires x.isDesiredState && !x.conflictOnContent
    ensures x in p.toExecuteDesiredState && x !in p.toExecute
  {
    PlanMembership(files, records, p);
  }

  /** A recorded script that is not skipped and conflicts on content is a conflict and is not scheduled. */
  lemma ChangedScriptConflicts(
    files: seq<ScriptFile>, records: seq<AppliedRecord>, p: UpdatePlan, x: ScriptFile, rec: AppliedRecord)
    requires PlanOf(files, records) == Success(p) && x in files
    requires Lookup(records, x.fileNameHash) == Record(rec)
    requires !(!x.isDesiredState && ContentMatches(x, rec.contentSha1Hash)) && x.conflictOnContent
    ensures Conflict(x, rec.appliedUtc) in p.conflicts
    ensures x !in p.toExecute && x !in p.toExecuteDesiredState
  {
    PlanMembership(files, records, p);
  }

  /**
    Under the intended policies a changed migration is always a conflict and
    never applied, and a recorded repeatable script is always re-applied,
    never skipped.
  */
  lemma IntendedPolicyRoutes(
    path: string, name: string, content: string, md5: string -> Guid, sha1: string -> string,
    records: seq<AppliedRecord>, rec: AppliedRecord)
    requires Lookup(records, md5(name)) == Record(rec)
    ensures var f := Load(path, name, content, md5, sha1, INTENDED_POLICIES);
      && (f.kind.Migration? && !ContentMatches(f, rec.contentSha1Hash) ==> RouteOf(f, records) == Conflicting(rec.appliedUtc))
      && (f.kind.Migration? && ContentMatches(f, rec.contentSha1Hash) ==> RouteOf(f, records) == Skipped)
      && (f.kind.Repeatable? ==> RouteOf(f, records) == DesiredState)
  {
  }

  /** One more script, without several records, extends the plan by its own contribution. */
  lemma PlanStep(files: seq<ScriptFile>, i: nat, records: seq<AppliedRecord>, p: UpdatePlan)
    requires i < |files| && !HasSeveralRecords(files[i], records)
    requires PlanOf(files[..i], records) == Success(p)
    ensures PlanOf(files[..i + 1], records) == Success(Join(p, PlanOne(files[i], RouteOf(files[i], records))))
  {
    assert files[..i + 1] == files[..i] + [files[i]];
    PlanOfConcat(files[..i], [files[i]], records);
    PlanOfSingle(files[i], records);
  }

  /** A script with several records ends planning with an error, once the scripts before it planned. */
  lemma PlanStopsAt(files: seq<ScriptFile>, i: nat, records: seq<AppliedRecord>)
    requires i < |files| && HasSeveralRecords(files[i], records)
    requires PlanOf(files[..i], records).Success?
    ensures PlanOf(files, records) == Failure(MoreThanOneRecord(files[i].fileName))
  {
    assert files == files[..i] + files[i..];
    PlanOfConcat(files[..i], files[i..], records);
    var rest := files[i..];
    assert rest[0] == files[i];
    assert PlanOf(rest, records) == Failure(MoreThanOneRecord(files[i].fileName));
  }

  /** The plan of three scripts, none with several records. */
  lemma PlanOfThree(f1: ScriptFile, f2: ScriptFile, f3: ScriptFile, records: seq<AppliedRecord>)
    requires !HasSeveralRecords(f1, records) && !HasSeveralRecords(f2, records) && !HasSeveralRecords(f3, records)
    ensures PlanOf([f1, f2, f3], records) == Success(Join(PlanOne(f1, RouteOf(f1, records)),
      Join(PlanOne(f2, RouteOf(f2, records)), PlanOne(f3, RouteOf(f3, records)))))
  {
    assert [f1, f2, f3] == [f1] + [f2] + [f3];
    PlanOfConcat([f1] + [f2], [f3], records);
    PlanOfConcat([f1], [f2], records);
    PlanOfSingle(f1, records);
    PlanOfSingle(f2, records);
    PlanOfSingle(f3, records);
    CombineAssociative(PlanOf([f1], records), PlanOf([f2], records), PlanOf([f3], records));
  }

  lemma ScenarioSerials()
    ensures NumberParsing.DigitsValue("001") == 1 && NumberParsing.DigitsValue("002") == 2
  {
    assert "001"[..2] == "00" && "002"[..2] == "00" && "00"[..1] == "0" && "0"[..0] == "";
  }

  lemma ScenarioNameSplits()
    ensures "001" + "_" + "create_table.sql" == "001_create_table.sql"
    ensures "002" + "_" + "add_column.sql" == "002_add_column.sql"
  {
  }

  lemma CreateTableScenarioName()
    ensures Classify("001_create_table.sql") == Migration(1)
  {
    ScenarioSerials();
    ClassifyNumberedName("001", "create_table.sql");
    ScenarioNameSplits();
  }

  lemma AddColumnScenarioName()
    ensures Classify("002_add_column.sql") == Migration(2)
  {
    ScenarioSerials();
    ClassifyNumberedName("002", "add_column.sql");
    ScenarioNameSplits();
  }

  lemma SeedScenarioName()
    ensures Classify("seed_lookup.sql") == Repeatable
  {
    NumberParsing.ParseNeedsDigit("seed");
    assert "seed_lookup.sql"[..4] == "seed";
    ClassifyUnparsedPrefix("seed_lookup.sql", 4);
  }

  lemma UnrecordedPlan(f1: ScriptFile, f2: ScriptFile, f3: ScriptFile)
    requires !f1.isDesiredState && !f2.isDesiredState && f3.isDesiredState
    ensures PlanOf([f1, f2, f3], []) == Success(UpdatePlan([f1, f2], [f3], []))
  {
    assert RouteOf(f1, []) == Ordered && RouteOf(f2, []) == Ordered && RouteOf(f3, []) == DesiredState;
    PlanOfThree(f1, f2, f3, []);
    assert Join(UpdatePlan([f2], [], []), UpdatePlan([], [f3], [])) == UpdatePlan([f2], [f3], []);
    assert Join(UpdatePlan([f1], [], []), UpdatePlan([f2], [f3], [])) == UpdatePlan([f1, f2], [f3], []);
  }

  /**
    First run over `001_create_table.sql`, `002_add_column.sql` and
    `seed_lookup.sql` with no records: both migrations are ordered, in that
    order, and the seed script is a desired-state script.
  */
  lemma FirstRunScenario(c1: string, c2: string, c3: string, md5: string -> Guid, sha1: string -> string)
    ensures
      var f1 := Load("001_create_table.sql", "001_create_table.sql", c1, md5, sha1, INTENDED_POLICIES);
      var f2 := Load("002_add_column.sql", "002_add_column.sql", c2, md5, sha1, INTENDED_POLICIES);
      var f3 := Load("seed_lookup.sql", "seed_lookup.sql", c3, md5, sha1, INTENDED_POLICIES);
      PlanOf([f1, f2, f3], []) == Success(UpdatePlan([f1, f2], [f3], []))
  {
    CreateTableScenarioName();
    AddColumnScenarioName();
    SeedScenarioName();
    var f1 := Load("001_create_table.sql", "001_create_table.sql", c1, md5, sha1, INTENDED_POLICIES);
    var f2 := Load("002_add_column.sql", "002_add_column.sql", c2, md5, sha1, INTENDED_POLICIES);
    var f3 := Load("seed_lookup.sql", "seed_lookup.sql", c3, md5, sha1, INTENDED_POLICIES);
    LoadFlags("001_create_table.sql", "001_create_table.sql", c1, md5, sha1, INTENDED_POLICIES);
    LoadFlags("002_add_column.sql", "002_add_column.sql", c2, md5, sha1, INTENDED_POLICIES);
    LoadFlags("seed_lookup.sql", "seed_lookup.sql", c3, md5, sha1, INTENDED_POLICIES);
    UnrecordedPlan(f1, f2, f3);
  }

  /** A skipped script, a conflicting one and a desired-state one, in that order. */
  lemma SkipConflictRerun(f1: ScriptFile, f2: ScriptFile, f3: ScriptFile, records: seq<AppliedRecord>, t2: int)
    requires RouteOf(f1, records) == Skipped
    requires RouteOf(f2, records) == Conflicting(t2)
    requires RouteOf(f3, records) == DesiredState
    ensures PlanOf([f1, f2, f3], records) == Success(UpdatePlan([], [f3], [Conflict(f2, t2)]))
  {
    PlanOfThree(f1, f2, f3, records);
    var conflicted := UpdatePlan([], [], [Conflict(f2, t2)]);
    JoinPlanOne(conflicted, f3);
    assert conflicted.toExecuteDesiredState + [f3] == [f3];
    JoinNothingLeft(UpdatePlan([], [f3], [Conflict(f2, t2)]));
  }

  lemma JoinNothingLeft(p: UpdatePlan)
    ensures Join(UpdatePlan([], [], []), p) == p
  {
    assert [] + p.toExecute == p.toExecute;
    assert [] + p.toExecuteDesiredState == p.toExecuteDesiredState;
    assert [] + p.conflicts == p.conflicts;
  }

  /** The one record with the hash is the one `SingleOrDefault` returns. */
  lemma LookupUnique(records: seq<AppliedRecord>, i: nat, h: Guid)
    requires i < |records| && records[i].fileNameMd5Hash == h
    requires forall j :: 0 <= j < |records| && j != i ==> records[j].fileNameMd5Hash != h
    ensures Lookup(records, h) == Record(records[i])
  {
    assert records[i] == Lookup(records, h).record;
  }

  lemma RecordedPlan(
    f1: ScriptFile, f2: ScriptFile, f3: ScriptFile, h1: string, h2: string, h3: string, t1: int, t2: int, t3: int)
    requires f1.fileNameHash != f2.fileNameHash && f1.fileNameHash != f3.fileNameHash
    requires f2.fileNameHash != f3.fileNameHash
    requires !f1.isDesiredState && ContentMatches(f1, h1)
    requires !f2.isDesiredState && !ContentMatches(f2, h2) && f2.conflictOnContent
    requires f3.isDesiredState && !f3.conflictOnContent
    ensures PlanOf([f1, f2, f3], [
        AppliedRecord(f1.fileNameHash, h1, t1),
        AppliedRecord(f2.fileNameHash, h2, t2),
        AppliedRecord(f3.fileNameHash, h3, t3)])
      == Success(UpdatePlan([], [f3], [Conflict(f2, t2)]))
  {
    var records := [
      AppliedRecord(f1.fileNameHash, h1, t1),
      AppliedRecord(f2.fileNameHash, h2, t2),
      AppliedRecord(f3.fileNameHash, h3, t3)];
    LookupUnique(records, 0, f1.fileNameHash);
    LookupUnique(records, 1, f2.fileNameHash);
    LookupUnique(records, 2, f3.fileNameHash);
    assert RouteOf(f1, records) == Skipped;
    assert RouteOf(f2, records) == Conflicting(t2);
    assert RouteOf(f3, records) == DesiredState;
    SkipConflictRerun(f1, f2, f3, records, t2);
  }

  /**
    Second run after `002_add_column.sql` was edited: one conflict, for that
    script with its first application time, so nothing executes; the seed
    script would re-run and `001_create_table.sql` is skipped.
  */
  lemma EditedMigrationScenario(
    c1: string, c2: string, c2Edited: string, c3: string, md5: string -> Guid, sha1: string -> string,
    t1: int, t2: int, t3: int)
    requires md5("001_create_table.sql") != md5("002_add_column.sql")
    requires md5("001_create_table.sql") != md5("seed_lookup.sql")
    requires md5("002_add_column.sql") != md5("seed_lookup.sql")
    requires !EqualsIgnoreCase(sha1(c2Edited), sha1(c2))
    ensures
      var f1 := Load("001_create_table.sql", "001_create_table.sql", c1, md5, sha1, INTENDED_POLICIES);
      var f2 := Load("002_add_column.sql", "002_add_column.sql", c2Edited, md5, sha1, INTENDED_POLICIES);
      var f3 := Load("seed_lookup.sql", "seed_lookup.sql", c3, md5, sha1, INTENDED_POLICIES);
      var records := [
        AppliedRecord(md5("001_create_table.sql"), sha1(c1), t1),
        AppliedRecord(md5("002_add_column.sql"), sha1(c2), t2),
        AppliedRecord(md5("seed_lookup.sql"), sha1(c3), t3)];
      PlanOf([f1, f2, f3], records) == Success(UpdatePlan([], [f3], [Conflict(f2, t2)]))
  {
    CreateTableScenarioName();
    AddColumnScenarioName();
    SeedScenarioName();
    var f1 := Load("001_create_table.sql", "001_create_table.sql", c1, md5, sha1, INTENDED_POLICIES);
    var f2 := Load("002_add_column.sql", "002_add_column.sql", c2Edited, md5, sha1, INTENDED_POLICIES);
    var f3 := Load("seed_lookup.sql", "seed_lookup.sql", c3, md5, sha1, INTENDED_POLICIES);
    var records := [
      AppliedRecord(md5("001_create_table.sql"), sha1(c1), t1),
      AppliedRecord(md5("002_add_column.sql"), sha1(c2), t2),
      AppliedRecord(md5("seed_lookup.sql"), sha1(c3), t3)];
    LoadFlags("001_create_table.sql", "001_create_table.sql", c1, md5, sha1, INTENDED_POLICIES);
    LoadFlags("002_add_column.sql", "002_add_column.sql", c2Edited, md5, sha1, INTENDED_POLICIES);
    LoadFlags("seed_lookup.sql", "seed_lookup.sql", c3, md5, sha1, INTENDED_POLICIES);
    ContentMatchesEquivalence(f1, sha1(c1), sha1(c1));
    RecordedPlan(f1, f2, f3, sha1(c1), sha1(c2), sha1(c3), t1, t2, t3);
  }

  /** What each non-conflicting route adds to a plan. */
  lemma JoinPlanOne(p: UpdatePlan, file: ScriptFile)
    ensures Join(p, PlanOne(file, Skipped)) == p
    ensures Join(p, PlanOne(file, Ordered)) == p.(toExecute := p.toExecute + [file])
    ensures Join(p, PlanOne(file, DesiredState)) == p.(toExecuteDesiredState := p.toExecuteDesiredState + [file])
  {
    assert p.toExecute + [] == p.toExecute;
    assert p.toExecuteDesiredState + [] == p.toExecuteDesiredState;
    assert p.conflicts + [] == p.conflicts;
  }

  /** What a conflicting route adds to a plan. */
  lemma JoinConflict(p: UpdatePlan, file: ScriptFile, t: int)
    ensures Join(p, PlanOne(file, Conflicting(t))) == p.(conflicts := p.conflicts + [Conflict(file, t)])
  {
    assert p.toExecute + [] == p.toExecute;
    assert p.toExecuteDesiredState + [] == p.toExecuteDesiredState;
  }

  /** The planning loop of `UpdateCommand.ExecuteAsync`. */
  method PlanUpdate(files: seq<ScriptFile>, records: seq<AppliedRecord>)
    returns (r: Result<UpdatePlan, PlanError>, willExecuteMigrations: bool)
    ensures r == PlanOf(files, records)
    ensures r.Success? ==> (willExecuteMigrations <==> r.value.conflicts == [])
  {
    var toExecute: seq<ScriptFile> := [];
    var toExecuteDesiredState: seq<ScriptFile> := [];
    var conflicts: seq<Conflict> := [];
    willExecuteMigrations := true;
    for i := 0 to |files|
      invariant PlanOf(files[..i], records) == Success(UpdatePlan(toExecute, toExecuteDesiredState, conflicts))
      invariant willExecuteMigrations <==> conflicts == []
    {
      var file := files[i];
      var existingRecord := Lookup(records, file.fileNameHash);
      if existingRecord == SeveralRecords {
        PlanStopsAt(files, i, records);
        return Failure(MoreThanOneRecord(file.fileName)), willExecuteMigrations;
      }
      ghost var before := UpdatePlan(toExecute, toExecuteDesiredState, conflicts);
      PlanStep(files, i, records, before);
      JoinPlanOne(before, file);
      if existingRecord.Record? {
        if !file.isDesiredState && ContentMatches(file, existingRecord.record.contentSha1Hash) {
          assert RouteOf(file, records) == Skipped;
          continue;
        }
        if file.conflictOnContent {
          JoinConflict(before, file, existingRecord.record.appliedUtc);
          assert RouteOf(file, records) == Conflicting(existingRecord.record.appliedUtc);
          conflicts := conflicts + [Conflict(file, existingRecord.record.appliedUtc)];
          willExecuteMigrations := false;
          continue;
        }
      }
      assert RouteOf(file, records) == Scheduled(file);
      if file.isDesiredState {
        toExecuteDesiredState := toExecuteDesiredState + [file];
      } else {
        toExecute := toExecute + [file];
      }
    }
    assert files[..|files|] == files;
    r := Success(UpdatePlan(toExecute, toExecuteDesiredState, conflicts));
  }

  // Partitioning of the desired-state scripts

  /** `new List<T>(size)` with a negative size, and `counter % 0`. */
  datatype PartitionError = NegativeCapacity | DivideByZero

  function Flatten<T>(groups: seq<seq<T>>): seq<T> {
    if groups == [] then [] else groups[0] + Flatten(groups[1..])
  }

  lemma {:induction false} FlattenAppend<T>(groups: seq<seq<T>>, g: seq<T>)
    ensures Flatten(groups + [g]) == Flatten(groups) + g
  {
    if groups != [] {
      assert (groups + [g])[1..] == groups[1..] + [g];
      FlattenAppend(groups[1..], g);
    } else {
      assert [g][1..] == [];
    }
  }

  /** `groups` splits `source`, in order, into non-empty groups of `size`, the last one possibly shorter. */
  ghost predicate IsPartition<T>(groups: seq<seq<T>>, source: seq<T>, size: int) {
    && Flatten(groups) == source
    && (forall i :: 0 <= i < |groups| ==> 0 < |groups[i]| <= size)
    && (forall i :: 0 <= i < |groups| - 1 ==> |groups[i]| == size)
  }

  /** `UpdateCommand.Partition`, with its enumeration run to the end. */
  method Partition<T>(source: seq<T>, size: int) returns (r: Result<seq<seq<T>>, PartitionError>)
    ensures size < 0 ==> r == Failure(NegativeCapacity)
    ensures size == 0 ==> r == if source == [] then Success([]) else Failure(DivideByZero)
    ensures size > 0 ==> r.Success? && IsPartition(r.value, source, size)
  {
    if size < 0 {
      return Failure(NegativeCapacity);
    }
    if size == 0 {
      // The first element reaches `counter % 0`; an empty source yields nothing.
      return if source == [] then Success([]) else Failure(DivideByZero);
    }
    var groups: seq<seq<T>> := [];
    var partition: seq<T> := [];
    var counter := 0;
    for i := 0 to |source|
      invariant counter == |partition| < size
      invariant Flatten(groups) + partition == source[..i]
      invariant FullGroups(groups, size)
    {
      assert source[..i + 1] == source[..i] + [source[i]];
      partition := partition + [source[i]];
      counter := counter + 1;
      assert Flatten(groups) + partition == source[..i + 1];
      CounterWraps(counter, size);
      if counter % size == 0 {
        AddFullGroup(groups, partition, size);
        groups := groups + [partition];
        partition := [];
        counter := 0;
      }
    }
    assert source[..|source|] == source;
    if counter != 0 {
      LastGroup(groups, partition, source, size);
      groups := groups + [partition];
    } else {
      assert Flatten(groups) == source;
    }
    return Success(groups);
  }

  /** Every group holds exactly `size` elements, and `size` is positive. */
  predicate FullGroups<T>(groups: seq<seq<T>>, size: int) {
    forall k :: 0 <= k < |groups| ==> |groups[k]| == size && size > 0
  }

  /** With `counter` in 1..`size`, `counter % size == 0` exactly when the group is full. */
  lemma CounterWraps(counter: int, size: int)
    requires 0 < counter <= size
    ensures counter % size == 0 <==> counter == size
  {
    if counter < size {
      assert counter % size == counter;
    }
  }

  lemma AddFullGroup<T>(groups: seq<seq<T>>, g: seq<T>, size: int)
    requires FullGroups(groups, size) && |g| == size && size > 0
    ensures FullGroups(groups + [g], size)
    ensures Flatten(groups + [g]) == Flatten(groups) + g
  {
    FlattenAppend(groups, g);
  }

  lemma LastGroup<T>(groups: seq<seq<T>>, g: seq<T>, source: seq<T>, size: int)
    requires FullGroups(groups, size) && 0 < |g| <= size
    requires Flatten(groups) + g == source
    ensures IsPartition(groups + [g], source, size)
  {
    FlattenAppend(groups, g);
  }

  /** Empty input yields no groups. */
  lemma PartitionOfEmpty<T>(groups: seq<seq<T>>, size: int)
    requires IsPartition(groups, [], size)
    ensures groups == []
  {
  }

  /** The shape determines the groups: at most one partition of a source into groups of `size`. */
  lemma {:induction false} PartitionUnique<T>(g1: seq<seq<T>>, g2: seq<seq<T>>, source: seq<T>, size: int)
    requires IsPartition(g1, source, size) && IsPartition(g2, source, size)
    ensures g1 == g2
  {
    if source == [] {
      PartitionOfEmpty(g1, size);
      PartitionOfEmpty(g2, size);
    } else {
      assert g1 != [] && g2 != [];
      FirstGroup(g1, source, size);
      FirstGroup(g2, source, size);
      var n := |g1[0]|;
      PartitionUnique(g1[1..], g2[1..], source[n..], size);
      assert g1 == [g1[0]] + g1[1..] && g2 == [g2[0]] + g2[1..];
    }
  }

  /** The first group is the first `size` elements, or all of them when fewer; the rest partitions the rest. */
  lemma FirstGroup<T>(groups: seq<seq<T>>, source: seq<T>, size: int)
    requires IsPartition(groups, source, size) && groups != []
    ensures |groups[0]| == if |source| <= size then |source| else size
    ensures groups[0] == source[..|groups[0]|]
    ensures IsPartition(groups[1..], source[|groups[0]|..], size)
  {
    var n := |groups[0]|;
    assert source == groups[0] + Flatten(groups[1..]);
    assert source[..n] == groups[0] && source[n..] == Flatten(groups[1..]);
    if |groups| > 1 {
      assert |groups[1]| > 0;
      assert |Flatten(groups[1..])| >= |groups[1]|;
    } else {
      assert Flatten(groups[1..]) == [];
    }
    assert forall i :: 0 <= i < |groups[1..]| ==> groups[1..][i] == groups[i + 1];
  }

  /** The number of groups is the size of the source divided by `size`, rounded up. */
  lemma {:induction false} PartitionCount<T>(groups: seq<seq<T>>, source: seq<T>, size: int)
    requires IsPartition(groups, source, size)
    ensures |groups| == 0 <==> |source| == 0
    ensures |groups| > 0 ==> (|groups| - 1) * size < |source| <= |groups| * size
  {
    if source == [] {
      PartitionOfEmpty(groups, size);
    } else {
      assert groups != [];
      FirstGroup(groups, source, size);
      var n := |groups[0]|;
      PartitionCount(groups[1..], source[n..], size);
      var k := |groups|;
      assert k * size == (k - 1) * size + size;
      if k > 1 {
        assert (k - 1) * size == (k - 2) * size + size;
      }
    }
  }

  /** Twenty desired-state scripts in groups of eight: three groups, of 8, 8 and 4 scripts. */
  lemma TwentyScriptsInGroupsOfEight<T>(groups: seq<seq<T>>, source: seq<T>)
    requires |source| == 20 && IsPartition(groups, source, 8)
    ensures |groups| == 3 && |groups[0]| == 8 && |groups[1]| == 8 && |groups[2]| == 4
  {
    PartitionCount(groups, source, 8);
    var k := |groups|;
    assert k == 3;
    assert groups[2..][1..] == groups[3..] == [];
    assert Flatten(groups[2..]) == groups[2];
    assert groups[1..][1..] == groups[2..];
    assert Flatten(groups[1..]) == groups[1] + groups[2];
    assert |Flatten(groups)| == |groups[0]| + |groups[1]| + |groups[2]|;
  }

  // Execution

  /**
    The database behind every connection. Only its journal is kept: each
    script applied through any connection, in the order the applications
    took place.
  */
  class Database {
    ghost var journal: seq<ScriptFile>
  }

  /**
    A `SchemaInfo` connection to `db`, with the scripts applied through this
    connection, in order.
  */
  class SchemaSession {
    const db: Database
    var applied: seq<ScriptFile>

    constructor (db: Database)
      ensures this.db == db && applied == []
    {
      this.db := db;
      applied := [];
    }

    /** `SchemaInfo.ApplyMigration`: runs the script and records it. */
    method ApplyMigration(file: ScriptFile)
      modifies this, db
      ensures applied == old(applied) + [file]
      ensures db.journal == old(db.journal) + [file]
    {
      applied := applied + [file];
      db.journal := db.journal + [file];
    }
  }

  /** What each session in `sessions` applied. */
  function Logs(sessions: seq<SchemaSession>): (logs: seq<seq<ScriptFile>>)
    reads sessions
    ensures |logs| == |sessions|
    ensures forall i :: 0 <= i < |sessions| ==> logs[i] == sessions[i].applied
  {
    if sessions == [] then [] else [sessions[0].applied] + Logs(sessions[1..])
  }

  const PARTITION_SIZE: int := 8

  /** `UpdateCommand.ApplyMigrations`: a new connection applies the scripts one at a time, in order. */
  method ApplyMigrations(db: Database, toExecute: seq<ScriptFile>) returns (schemaInfo: SchemaSession)
    modifies db
    ensures fresh(schemaInfo) && schemaInfo.db == db
    ensures schemaInfo.applied == toExecute
    ensures db.journal == old(db.journal) + toExecute
  {
    schemaInfo := new SchemaSession(db);
    ApplyInOrder(schemaInfo, toExecute);
  }

  /** The `foreach` over scripts shared by `ExecuteAsync` and `ApplyMigrations`: each is applied in turn on `schemaInfo`. */
  method ApplyInOrder(schemaInfo: SchemaSession, scripts: seq<ScriptFile>)
    modifies schemaInfo, schemaInfo.db
    ensures schemaInfo.applied == old(schemaInfo.applied) + scripts
    ensures schemaInfo.db.journal == old(schemaInfo.db.journal) + scripts
  {
    for i := 0 to |scripts|
      invariant schemaInfo.applied == old(schemaInfo.applied) + scripts[..i]
      invariant schemaInfo.db.journal == old(schemaInfo.db.journal) + scripts[..i]
    {
      assert scripts[..i + 1] == scripts[..i] + [scripts[i]];
      schemaInfo.ApplyMigration(scripts[i]);
    }
    assert scripts[..|scripts|] == scripts;
  }

  /**
    `UpdateCommand.RunMigrationsInParallel`: one group per task, each on its
    own new connection. The groups run here one after another, but the
    contract says only what each connection applied and which scripts reach
    the journal, not in which order the tasks interleave.
  */
  method RunMigrationsInParallel(db: Database, toExecuteDesiredState: seq<ScriptFile>) returns (sessions: seq<SchemaSession>)
    modifies db
    ensures forall i :: 0 <= i < |sessions| ==> fresh(sessions[i]) && sessions[i].db == db
    ensures forall i, j :: 0 <= i < j < |sessions| ==> sessions[i] != sessions[j]
    ensures IsPartition(Logs(sessions), toExecuteDesiredState, PARTITION_SIZE)
    ensures |db.journal| == |old(db.journal)| + |toExecuteDesiredState|
    ensures db.journal[..|old(db.journal)|] == old(db.journal)
    ensures multiset(db.journal[|old(db.journal)|..]) == multiset(toExecuteDesiredState)
  {
    var partitioned := Partition(toExecuteDesiredState, PARTITION_SIZE);
    var groups := partitioned.value;
    sessions := [];
    for k := 0 to |groups|
      invariant |sessions| == k
      invariant forall i :: 0 <= i < k ==> fresh(sessions[i]) && sessions[i].db == db && sessions[i].applied == groups[i]
      invariant forall i, j :: 0 <= i < j < k ==> sessions[i] != sessions[j]
      invariant db.journal == old(db.journal) + Flatten(groups[..k])
    {
      var session := ApplyMigrations(db, groups[k]);
      sessions := sessions + [session];
      assert groups[..k + 1] == groups[..k] + [groups[k]];
      FlattenAppend(groups[..k], groups[k]);
    }
    assert groups[..|groups|] == groups;
    assert Logs(sessions) == groups;
    assert db.journal[|old(db.journal)|..] == toExecuteDesiredState;
  }

  /** The operator's answer to the prompt: 'y' or 'Y' goes ahead. */
  predicate Confirms(key: char) {
    key == 'y' || key == 'Y'
  }

  /** The prompt is shown unless unattended, and only when something would run. */
  predicate AsksConfirmation(unattend: bool, plan: UpdatePlan) {
    !unattend && (plan.toExecute != [] || plan.toExecuteDesiredState != [])
  }

  /**
    When every script's route is `Skipped` (each is a script that is not
    desired-state, with a single record whose content hash matches), the plan
    is empty: nothing is scheduled, nothing conflicts, and no prompt is shown.
  */
  lemma {:induction false} UpToDateNeverPrompts(files: seq<ScriptFile>, records: seq<AppliedRecord>, unattend: bool)
    requires forall i :: 0 <= i < |files| ==> RouteOf(files[i], records) == Skipped
    ensures PlanOf(files, records) == Success(UpdatePlan([], [], []))
    ensures !AsksConfirmation(unattend, PlanOf(files, records).value)
  {
    if files != [] {
      UpToDateNeverPrompts(files[1..], records, unattend);
      JoinNothingLeft(UpdatePlan([], [], []));
    }
  }

  /** The desired-state scripts of `files`, in loader order. */
  function DesiredStateScripts(files: seq<ScriptFile>): seq<ScriptFile> {
    if files == [] then []
    else (if files[0].isDesiredState then [files[0]] else []) + DesiredStateScripts(files[1..])
  }

  lemma {:induction false} DesiredStateScriptsMembers(files: seq<ScriptFile>)
    ensures forall x :: x in DesiredStateScripts(files) <==> x in files && x.isDesiredState
  {
    if files != [] {
      DesiredStateScriptsMembers(files[1..]);
      assert forall x :: x in files <==> x == files[0] || x in files[1..];
    }
  }

  /** The flags `Load` gives under the intended policies: exactly the scripts that are not desired-state conflict on content. */
  predicate HasIntendedFlags(file: ScriptFile) {
    file.conflictOnContent == !file.isDesiredState
  }

  /** The script has exactly one record, and that record holds the script's own content hash. */
  predicate IsUpToDate(file: ScriptFile, records: seq<AppliedRecord>) {
    var e := Lookup(records, file.fileNameHash);
    e.Record? && ContentMatches(file, e.record.contentSha1Hash)
  }

  lemma UpToDateRoute(file: ScriptFile, records: seq<AppliedRecord>)
    requires HasIntendedFlags(file) && IsUpToDate(file, records)
    ensures RouteOf(file, records) == if file.isDesiredState then DesiredState else Skipped
  {
  }

  /**
    A database that is up to date under the intended policies: every script has
    exactly one record, holding the script's own content hash. Nothing is
    ordered and nothing conflicts, but every desired-state script is scheduled
    again, in loader order; so the prompt is shown exactly when the run is not
    unattended and some desired-state script exists.
  */
  lemma UpToDatePlan(files: seq<ScriptFile>, records: seq<AppliedRecord>, unattend: bool)
    requires forall i :: 0 <= i < |files| ==> HasIntendedFlags(files[i])
    requires forall i :: 0 <= i < |files| ==> IsUpToDate(files[i], records)
    ensures PlanOf(files, records) == Success(UpdatePlan([], DesiredStateScripts(files), []))
    ensures AsksConfirmation(unattend, PlanOf(files, records).value)
        <==> !unattend && exists x :: x in files && x.isDesiredState
  {
    UpToDatePlanOf(files, records);
    DesiredStateScriptsMembers(files);
    var ds := DesiredStateScripts(files);
    if ds != [] {
      assert ds[0] in ds;
    }
  }

  lemma {:induction false} UpToDatePlanOf(files: seq<ScriptFile>, records: seq<AppliedRecord>)
    requires forall i :: 0 <= i < |files| ==> HasIntendedFlags(files[i])
    requires forall i :: 0 <= i < |files| ==> IsUpToDate(files[i], records)
    ensures PlanOf(files, records) == Success(UpdatePlan([], DesiredStateScripts(files), []))
  {
    if files != [] {
      var f, tail := files[0], files[1..];
      UpToDatePlanOf(tail, records);
      UpToDateRoute(f, records);
      var mine := if f.isDesiredState then [f] else [];
      JoinDesiredState(mine, DesiredStateScripts(tail));
      assert PlanOne(f, RouteOf(f, records)) == UpdatePlan([], mine, []);
    }
  }

  lemma JoinDesiredState(a: seq<ScriptFile>, b: seq<ScriptFile>)
    ensures Join(UpdatePlan([], a, []), UpdatePlan([], b, [])) == UpdatePlan([], a + b, [])
  {
  }

  /**
    The journal grew from `before` to `after` by the ordered list `p.toExecute`,
    in order, followed by the desired-state scripts of `p` in some order.
  */
  ghost predicate AppliedInPhases(before: seq<ScriptFile>, after: seq<ScriptFile>, p: UpdatePlan) {
    && |after| == |before| + |p.toExecute| + |p.toExecuteDesiredState|
    && after[..|before| + |p.toExecute|] == before + p.toExecute
    && multiset(after[|before| + |p.toExecute|..]) == multiset(p.toExecuteDesiredState)
  }

  /**
    The two phases of a run that goes ahead: the ordered migrations one at a
    time on the main connection, and only then the desired-state groups. The
    journal holds the ordered list first, in order, followed by the
    desired-state scripts in some order.
  */
  method ApplyPlan(db: Database, schemaInfo: SchemaSession, p: UpdatePlan) returns (groupSessions: seq<SchemaSession>)
    requires schemaInfo.db == db
    modifies schemaInfo, db
    ensures schemaInfo.applied == old(schemaInfo.applied) + p.toExecute
    ensures forall i :: 0 <= i < |groupSessions| ==> fresh(groupSessions[i]) && groupSessions[i].db == db
    ensures forall i, j :: 0 <= i < j < |groupSessions| ==> groupSessions[i] != groupSessions[j]
    ensures IsPartition(Logs(groupSessions), p.toExecuteDesiredState, PARTITION_SIZE)
    ensures AppliedInPhases(old(db.journal), db.journal, p)
  {
    ApplyInOrder(schemaInfo, p.toExecute);
    ghost var ordered := db.journal;
    groupSessions := RunMigrationsInParallel(db, p.toExecuteDesiredState);
    assert db.journal[..|ordered|] == ordered;
  }

  datatype UpdateOutcome =
    | PlanningFailed(error: PlanError)
    | ConflictsFound(conflicts: seq<Conflict>)
    | Declined
    | Finished

  /**
    `UpdateCommand.ExecuteAsync` without its console output. `records` are the
    applied records the connection reads, `files` the loaded scripts in loader
    order, `key` the answer to the prompt when one is shown, `db` the database
    every connection writes to. When the run goes ahead, the journal shows
    every ordered migration applied, in order, before any desired-state
    script.
  */
  method Update(db: Database, files: seq<ScriptFile>, records: seq<AppliedRecord>, unattend: bool, key: char)
    returns (outcome: UpdateOutcome, schemaInfo: SchemaSession, groupSessions: seq<SchemaSession>)
    modifies db
    ensures fresh(schemaInfo) && schemaInfo.db == db
    ensures forall i :: 0 <= i < |groupSessions| ==>
      fresh(groupSessions[i]) && groupSessions[i] != schemaInfo && groupSessions[i].db == db
    ensures forall i, j :: 0 <= i < j < |groupSessions| ==> groupSessions[i] != groupSessions[j]
    ensures match PlanOf(files, records)
      case Failure(e) =>
        && outcome == PlanningFailed(e) && schemaInfo.applied == [] && groupSessions == []
        && db.journal == old(db.journal)
      case Success(p) =>
        if p.conflicts != [] then
          && outcome == ConflictsFound(p.conflicts) && schemaInfo.applied == [] && groupSessions == []
          && db.journal == old(db.journal)
        else if AsksConfirmation(unattend, p) && !Confirms(key) then
          && outcome == Declined && schemaInfo.applied == [] && groupSessions == []
          && db.journal == old(db.journal)
        else
          && outcome == Finished
          && schemaInfo.applied == p.toExecute
          && IsPartition(Logs(groupSessions), p.toExecuteDesiredState, PARTITION_SIZE)
          && AppliedInPhases(old(db.journal), db.journal, p)
  {
    schemaInfo := new SchemaSession(db);
    groupSessions := [];
    ghost var start := db.journal;
    var plan, willExecuteMigrations := PlanUpdate(files, records);
    if plan.Failure? {
      return PlanningFailed(plan.error), schemaInfo, groupSessions;
    }
    var p := plan.value;
    if !willExecuteMigrations {
      return ConflictsFound(p.conflicts), schemaInfo, groupSessions;
    }
    if AsksConfirmation(unattend, p) && !Confirms(key) {
      return Declined, schemaInfo, groupSessions;
    }
    groupSessions := ApplyPlan(db, schemaInfo, p);
    assert AppliedInPhases(start, db.journal, p);
    outcome := Finished;
  }
}
