# Horton update planner and script classification, in Dafny

Horton runs SQL migration scripts against a database. Every run of its `update`
command loads the scripts of a directory and compares them with the records
of scripts already applied. It then decides, script by script, whether to
skip the script, report it as a conflict, or schedule it. A scheduled script
is either an ordered migration or a desired-state (repeatable) script. A
single conflict stops the whole run before anything executes. Otherwise the
ordered migrations are applied one at a time, in loader order. The
desired-state scripts are then cut into groups of eight. Each group is
applied in order on its own connection, and the groups run as concurrent
tasks.

This project models two source files:

- `src/Horton/ScriptFile.cs`, as pure functions (module `ScriptFiles`, file
  `script_file.dfy`). It covers how a file name is classified, cut at its
  first `_` and read with `int.TryParse` (module `NumberParsing`, file
  `number_parsing.dfy`). It also covers the name hash taken as the script's
  identity, the case-insensitive comparison of content hashes, and the
  ordering of scripts by name.
- `src/Horton/UpdateCommand.cs`, as imperative code (module `UpdateCommand`,
  file `update_command.dfy`):
  - the planning loop, as method `PlanUpdate`, proved equal to the function
    `PlanOf`;
  - the chunking iterator `Partition`, as a method whose loop builds the
    groups;
  - the application loops, as methods over a `SchemaSession` class whose log
    of applied scripts grows with each `ApplyMigration`. Every connection
    points to one `Database`, whose journal records the order of all
    applications, across connections;
  - the whole command, as method `Update`.

`wrappers.dfy` holds the `Option` and `Result` values used for nulls and
exceptions.

Inputs that the source reads from the outside world are parameters:
- the files the loader returns, in loader order;
- the applied records the database returns;
- the two hash functions (MD5 of the name, SHA-1 of the content);
- the text of each file;
- the key pressed at the confirmation prompt;
- the flags of the two script subclasses (`Policies`; `INTENDED_POLICIES` is
  migration = conflict on content, repeatable = desired state).

Three behaviours of `UpdateCommand.cs` and `ScriptFile.cs` that a reader might expect otherwise:
- Both scheduled lists keep the loader's order. The planner does not sort
  migrations by serial number. It keeps whatever order the file loader gave,
  and the loader is not part of this model.
- `CompareTo` orders by file name only. Serial-number ordering, if any, would
  live in a subclass that is not part of this model.
- A script with a record that is not skipped conflicts whenever
  `ConflictOnContent` is set. This holds whatever its `IsDesiredState` is, as
  in `UpdateCommand.cs` lines 38-49.

## Model

| member | source | states |
|---|---|---|
| `NumberParsing.TryParseInt32` | src/Horton/ScriptFile.cs:17 | `int.TryParse`: any value it accepts lies in the 32-bit range; the grammar it accepts (white space, an optional sign, ASCII digits, white space, NUL characters) is stated in both directions by `ParseNumeral` and `ParseAcceptsOnlyNumerals` |
| `NumberParsing.ParseFormatted` | src/Horton/ScriptFile.cs:17 | round trip: every 32-bit `n`, written out and surrounded by any white space, parses back to `n` |
| `NumberParsing.ParseRejectsOutOfRange` | src/Horton/ScriptFile.cs:17 | the decimal rendering of any integer outside -2147483648..2147483647 is refused |
| `NumberParsing.ParseNumeral` | src/Horton/ScriptFile.cs:17 | white space, an optional `+` or `-`, digits with leading zeros allowed, white space, NUL characters: parses to the signed value exactly when it lies in -2147483648..2147483647, and is refused otherwise |
| `NumberParsing.ParseAcceptsOnlyNumerals` | src/Horton/ScriptFile.cs:17 | the converse: every accepted string is white space, an optional `+` or `-`, digits, white space and NUL characters, and its value is the signed value of those digits |
| `NumberParsing.ParseRejectsForeignChar` | src/Horton/ScriptFile.cs:17 | a string holding any character other than white space, a digit, `+`, `-` or NUL is refused ("1a", "1.0", "0x1F", "1,000") |
| `NumberParsing.ParseDigits` | src/Horton/ScriptFile.cs:17 | a run of digits, leading zeros allowed, parses to its value when that value is in range |
| `NumberParsing.ParseNeedsDigit` | src/Horton/ScriptFile.cs:17 | a string with no digit, the empty string included, does not parse |
| `ScriptFiles.IndexOf` | src/Horton/ScriptFile.cs:13 | `IndexOf("_")` is -1 exactly when there is no `_`; otherwise it is the position of the first `_` |
| `ScriptFiles.Classify` | src/Horton/ScriptFile.cs:11-26 | the kind chosen by `Load`; the serial number of a migration is a 32-bit value |
| `ScriptFiles.ClassifyWithoutPrefix` | src/Horton/ScriptFile.cs:13-25 | a name with no `_`, or with `_` at index 0, is a repeatable script |
| `ScriptFiles.ClassifyParsedPrefix` | src/Horton/ScriptFile.cs:13-21 | a prefix before the first `_` that parses to `n` gives a migration with serial number `n` |
| `ScriptFiles.ClassifyUnparsedPrefix` | src/Horton/ScriptFile.cs:17-26 | a prefix that does not parse gives a repeatable script |
| `ScriptFiles.ClassifyMigrationIff` | src/Horton/ScriptFile.cs:11-26 | both directions: a migration exactly when there is a first `_`, at index > 0, and the prefix before it parses |
| `ScriptFiles.ClassifyIgnoresSuffix` | src/Horton/ScriptFile.cs:13-16 | only the text before the first `_` matters; what follows, further `_` included, does not |
| `ScriptFiles.ClassifyNumberedName` | src/Horton/ScriptFile.cs:13-21 | `NNN_description.sql` is a migration with serial number NNN |
| `ScriptFiles.ClassifyForeignPrefix` | src/Horton/ScriptFile.cs:13-26 | a prefix before the first `_` holding a character no numeral has, as in `1a_create.sql`, gives a repeatable script |
| `ScriptFiles.ClassifySerialRoundTrip` | src/Horton/ScriptFile.cs:13-21 | every 32-bit `n` written before the `_` comes back as the serial number |
| `ScriptFiles.NameHashDependsOnNameOnly` | src/Horton/ScriptFile.cs:33-34 | the name hash is the MD5 of the file name, the same whatever the path or content |
| `ScriptFiles.Load` | src/Horton/ScriptFile.cs:9-38 | the script is a migration exactly when its name has a first `_` at index > 0 with a prefix that parses, and then its serial number is a 32-bit value |
| `ScriptFiles.IntendedFlags` | src/Horton/ScriptFile.cs:19-26 | with the intended subclass flags, a loaded script conflicts on changed content exactly when it is not desired-state, and that is exactly when its name has a serial-number prefix |
| `ScriptFiles.ContentMatches` | src/Horton/ScriptFile.cs:69-72 | the hashes match exactly when they have the same length and agree letter by letter ignoring case; a script matches its own content hash |
| `ScriptFiles.EqualsIgnoreCase` | src/Horton/ScriptFile.cs:71 | equal lengths and equal characters after upper-casing, position by position |
| `ScriptFiles.ContentMatchesEquivalence` | src/Horton/ScriptFile.cs:69-72 | a script matches its own content hash; the case-insensitive comparison is symmetric; a hash equal, ignoring case, to a matching hash matches too |
| `ScriptFiles.ContentMatchesIgnoresCase` | src/Horton/ScriptFile.cs:69-72 | "ABCD" matches "abcd" and does not match "abce" |
| `ScriptFiles.CompareOrdinal` | src/Horton/ScriptFile.cs:66 | the name comparison is -1, 0 or 1, and 0 exactly for equal names |
| `ScriptFiles.CompareOrdinalAntisymmetric` | src/Horton/ScriptFile.cs:66 | swapping the operands negates the result |
| `ScriptFiles.CompareOrdinalTransitive` | src/Horton/ScriptFile.cs:66 | less-than is transitive |
| `ScriptFiles.CompareTo` | src/Horton/ScriptFile.cs:64-67 | two scripts compare equal exactly when their file names are equal |
| `ScriptFiles.CompareToOrder` | src/Horton/ScriptFile.cs:64-67 | `CompareTo` is antisymmetric and transitive: a total order on file names |
| `ScriptFiles.CompareToObject` | src/Horton/ScriptFile.cs:52-62 | the same reference gives 0; null or a non-script throws `InvalidOperationException`; another script gives 0 exactly for the same name |
| `UpdateCommand.DecideCases` | src/Horton/UpdateCommand.cs:35-65 | the decision rule (`Decide`, applied by `RouteOf` to the record `SingleOrDefault` finds): several records and only they abort; a skip needs a record, a non-desired-state script and a matching hash; a conflict needs a record and `ConflictOnContent`, and carries that record's time; each list gets only scripts of its kind; an unrecorded script is always scheduled |
| `UpdateCommand.PlanSize` | src/Horton/UpdateCommand.cs:33-66 | the plan (`PlanOf`) holds at most one entry per script: the two lists and the conflicts together are no longer than the files |
| `UpdateCommand.Lookup` | src/Horton/UpdateCommand.cs:35 | `SingleOrDefault` finds no record exactly when no record has the hash, the only record with the hash, or fails exactly when two records share the hash |
| `UpdateCommand.LookupUnique` | src/Horton/UpdateCommand.cs:35 | when exactly one record has the hash, `SingleOrDefault` returns that record |
| `UpdateCommand.PlanOfConcat` | src/Horton/UpdateCommand.cs:33-66 | the plan of `a + b` is the plan of `a` followed by that of `b`: both lists keep loader order, and the first error comes first |
| `UpdateCommand.PlanMembership` | src/Horton/UpdateCommand.cs:33-66 | a script is in the ordered list, in the desired-state list, or among the conflicts (with the applied time of its record) exactly when its route says so; nothing else appears in them |
| `UpdateCommand.PlanFailsIff` | src/Horton/UpdateCommand.cs:35 | planning fails exactly when some script has more than one record |
| `UpdateCommand.PlanFailureNamesFirst` | src/Horton/UpdateCommand.cs:33-35 | the error names the first script, in loader order, that has several records |
| `UpdateCommand.UnrecordedScriptIsScheduled` | src/Horton/UpdateCommand.cs:36-65 | a script with no record goes to the desired-state list when `IsDesiredState`, otherwise to the ordered list, and to no other list or conflict |
| `UpdateCommand.UnchangedScriptIsSkipped` | src/Horton/UpdateCommand.cs:38-41 | a non-desired-state script whose record's hash matches is in neither list and is no conflict |
| `UpdateCommand.DesiredStateScriptReruns` | src/Horton/UpdateCommand.cs:36-65 | a desired-state script with a record and `ConflictOnContent` false is scheduled again on the desired-state list, whether or not its hash matches |
| `UpdateCommand.ChangedScriptConflicts` | src/Horton/UpdateCommand.cs:42-49 | a recorded script that is not skipped and has `ConflictOnContent` is reported with its applied time and scheduled nowhere |
| `UpdateCommand.IntendedPolicyRoutes` | src/Horton/UpdateCommand.cs:36-65 | with the intended flags, a changed migration is a conflict, an unchanged one is skipped, and a recorded repeatable script always re-runs |
| `UpdateCommand.PlanStep` | src/Horton/UpdateCommand.cs:33-66 | one more script without several records adds its own contribution to the plan |
| `UpdateCommand.PlanStopsAt` | src/Horton/UpdateCommand.cs:35 | a script with several records ends planning with an error naming it |
| `UpdateCommand.UnrecordedPlan` | src/Horton/UpdateCommand.cs:33-66 | with no records, two ordered scripts and a desired-state one give ordered = the two in loader order, desired state = the third, no conflicts |
| `UpdateCommand.RecordedPlan` | src/Horton/UpdateCommand.cs:33-66 | with one record each: an unchanged ordered script is skipped, a changed conflicting one is the only conflict, a desired-state one re-runs |
| `UpdateCommand.FirstRunScenario` | src/Horton/UpdateCommand.cs:33-66 | first run over `001_create_table.sql`, `002_add_column.sql`, `seed_lookup.sql`: ordered = [001, 002], desired state = [seed], no conflicts |
| `UpdateCommand.EditedMigrationScenario` | src/Horton/UpdateCommand.cs:33-66 | second run with `002_add_column.sql` edited: exactly one conflict, for 002 with its applied time; 001 skipped; seed re-run |
| `UpdateCommand.PlanUpdate` | src/Horton/UpdateCommand.cs:29-66 | the planning loop computes `PlanOf` of the inputs, and `willExecuteMigrations` is false exactly when a conflict was found |
| `UpdateCommand.Partition` | src/Horton/UpdateCommand.cs:140-162 | a negative size and, for a non-empty input, size 0 fail; otherwise the groups concatenate to the input, are non-empty and at most `size` long, and all but the last hold exactly `size` |
| `UpdateCommand.PartitionOfEmpty` | src/Horton/UpdateCommand.cs:140-162 | empty input yields no groups |
| `UpdateCommand.PartitionUnique` | src/Horton/UpdateCommand.cs:140-162 | those shape conditions determine the groups: `Partition` has one possible result |
| `UpdateCommand.FirstGroup` | src/Horton/UpdateCommand.cs:140-162 | the first group is the first `size` elements, or all of them when there are fewer |
| `UpdateCommand.PartitionCount` | src/Horton/UpdateCommand.cs:140-162 | the number of groups is the input length divided by `size`, rounded up |
| `UpdateCommand.TwentyScriptsInGroupsOfEight` | src/Horton/UpdateCommand.cs:108 | twenty desired-state scripts make three groups, of 8, 8 and 4 |
| `UpdateCommand.SchemaSession.constructor` | src/Horton/UpdateCommand.cs:120 | a new connection has applied nothing yet |
| `UpdateCommand.SchemaSession.ApplyMigration` | src/Horton/UpdateCommand.cs:94 | applying a script appends it to the connection's log |
| `UpdateCommand.ApplyInOrder` | src/Horton/UpdateCommand.cs:88-97 | the `foreach` over scripts applies each one in turn on the given connection: its log grows by exactly those scripts, in order |
| `UpdateCommand.ApplyMigrations` | src/Horton/UpdateCommand.cs:118-136 | a new connection to the same database applies the group's scripts one at a time, in the group's order, and the database journal grows by exactly those scripts |
| `UpdateCommand.RunMigrationsInParallel` | src/Horton/UpdateCommand.cs:106-116 | one new, distinct connection per group of eight; what the connections applied is exactly the partition of the desired-state list; the journal grows by exactly the desired-state scripts, in some order |
| `UpdateCommand.ApplyPlan` | src/Horton/UpdateCommand.cs:88-99 | the ordered list is applied on the main connection first, then the groups on new connections: the journal holds the ordered list in order, and only after it the desired-state scripts |
| `UpdateCommand.UpToDateNeverPrompts` | src/Horton/UpdateCommand.cs:36-41 | when every script's route is `Skipped` (a script that is not desired-state, with one record whose content hash matches), the plan is empty and the `y`/`Y` prompt (`AsksConfirmation`, `Confirms`, lines 76-86) is not shown |
| `UpdateCommand.UpToDatePlan` | src/Horton/UpdateCommand.cs:33-86 | under the intended policies, when every script has one record holding its own content hash, nothing is ordered and nothing conflicts, every desired-state script is scheduled again in loader order, and the prompt is shown exactly when the run is not unattended and some desired-state script exists |
| `UpdateCommand.Update` | src/Horton/UpdateCommand.cs:12-104 | an error, any conflict, or a declined prompt (shown only when not unattended and something would run; only `y`/`Y` goes ahead) leaves the journal unchanged and applies nothing; otherwise the ordered list is applied, in order, on the main connection before any desired-state script, and the groups run on new, pairwise distinct connections |

## Left out

- Console output, colours and messages are not modelled. The `y`/`Y`
  prompt is the `key` parameter of `Update`
  (`UpdateCommand.cs` lines 22-27, 44-46, 51-56, 76-86).
- `SchemaInfo` is not part of this model:
  - `InitializeTable` is not modelled;
  - `AppliedMigrations` is the `records` parameter;
  - `ApplyMigration` only appends the script to the connection's log and to
    the database journal;
  - the upsert of the applied record is not modelled, so a second run is
    stated only for the scenario's given records;
  - a failing `ApplyMigration` (an exception that stops the remaining ordered
    scripts or the rest of one group) is not modelled: every application
    succeeds.
- `FileLoader` and its sort order are not part of this model. `files` is
  taken as given.
- `File.ReadAllText` and the `MD5Hash`/`SHA1Hash` extensions are not part of
  this model. The text and both hash functions are parameters of `Load`.
- `UpdateCommand.RunMigrationsInParallel`: `Task.Run`, `Task.WhenAll` and
  `AsyncContext.Run` are concurrency. The model runs the groups one after
  another, but its contract states only what each connection applied and
  which scripts reach the journal (a multiset), not how the tasks interleave.
- `UpdateCommand.Database`: the database journal is a ghost record of the
  order in which scripts were applied, kept only to state that order.
- `MigrationScript`, `RepeatableScript` and their `TypeCode` are not part of
  this model. Their two flags are the `Policies` parameter, and no
  `CompareTo` override is modelled.
- `Update`: `using` disposal of connections is not modelled.
- `ScriptFiles.CompareOrdinal`: `string.CompareTo` is culture-sensitive. The
  model compares names ordinally, by Unicode code point, and returns the sign
  only. For characters above U+FFFF this differs from UTF-16 ordinal order,
  where a surrogate pair sorts below U+E000..U+FFFF.
- `ScriptFiles.EqualsIgnoreCase`: `OrdinalIgnoreCase` upper-cases every
  letter. The model folds only ASCII letters, which covers hexadecimal hash
  strings.
- `ScriptFiles.IndexOf`: `IndexOf(string)` is culture-sensitive. The model
  searches ordinally for the character `_`.
- `NumberParsing.TryParseInt32`: the current culture's sign symbols are not
  modelled. The model takes the invariant culture's `+` and `-`.
- `ScriptFiles.CompareTo`: a null `other`, which throws
  `NullReferenceException`, cannot occur in the model, since values are never
  null.
- `UpdateCommand.Partition` is modelled as the fully enumerated result, not
  as a lazy iterator. No group is yielded before either exception.
