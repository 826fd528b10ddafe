/**
 The migration runner: discovery of numbered files, and runs that may fail at
 any database call and are retried. Every call consumes one entry of `faults`;
 a failing call has no effect, and a transaction commits all or nothing.
 */
module Migration {
  import opened Prelude

  datatype PersistenceError =
    | IoError
    | MigrationFailed(reason: string)
    | DatabaseLocked(reason: string)
    | SchemaVersionMismatch(current: int, highest: int)

  /** How a database call fails. */
  datatype SqlFault = Busy(text: string) | Locked(text: string) | OtherFault(text: string)

  datatype Script = Script(version: int, fileName: string, sql: string)

  // ------------------------------------------------------------------
  // Discovery.
  // ------------------------------------------------------------------

  /** A directory entry: unreadable, or a file whose content may be unreadable. */
  datatype DirEntry = Unreadable | File(name: string, sql: Option<string>)

  predicate HasSqlExtension(name: string) {
    |name| > 4 && name[|name| - 4..] == ".sql"
  }

  function Prefix(name: string): string {
    if name == "" || name[0] == '_' then "" else [name[0]] + Prefix(name[1..])
  }

  /** `str::parse::<i64>`: an optional sign, digits, and no overflow. */
  function ParseI64(s: string): Option<int> {
    var signed := s != "" && (s[0] == '-' || s[0] == '+');
    var digits := if signed then s[1..] else s;
    var n: int := if signed && s[0] == '-' then -(Number(digits) as int) else Number(digits);
    if digits != "" && AllDigits(digits) && -0x8000_0000_0000_0000 <= n < 0x8000_0000_0000_0000
    then Some(n) else None
  }

  function ParseVersionPrefix(name: string): Result<int, PersistenceError> {
    if Prefix(name) == "" then Failure(MigrationFailed("no version prefix"))
    else if ParseI64(Prefix(name)).None? then Failure(MigrationFailed("unparseable version prefix"))
    else Success(ParseI64(Prefix(name)).value)
  }

  lemma {:induction false} ZerosCountNothing(zeros: string, digits: string)
    requires (forall c <- zeros :: c == '0') && AllDigits(digits)
    ensures Number(zeros + digits) == Number(digits)
    decreases |zeros| + |digits|
  {
    var s := zeros + digits;
    if digits != "" {
      assert s[..|s| - 1] == zeros + digits[..|digits| - 1];
      ZerosCountNothing(zeros, digits[..|digits| - 1]);
    } else if zeros != "" {
      assert s == zeros && s[|s| - 1] in zeros;
      var init := zeros[..|zeros| - 1];
      assert s[..|s| - 1] == init + "" && forall c <- init :: c in zeros;
      ZerosCountNothing(init, "");
    } else {
      assert s == "";
    }
  }

  lemma {:induction false} PrefixStopsAtUnderscore(head: string, rest: string)
    requires '_' !in head
    ensures Prefix(head + "_" + rest) == head
    decreases |head|
  {
    var s := head + "_" + rest;
    if head != "" {
      assert s[0] == head[0] && head[0] in head;
      assert s[1..] == head[1..] + "_" + rest;
      PrefixStopsAtUnderscore(head[1..], rest);
    }
  }

  lemma {:induction false} PaddedNumberParses(zeros: string, n: nat)
    requires (forall c <- zeros :: c == '0') && n < 0x8000_0000_0000_0000
    ensures AllDigits(zeros + Decimal(n)) && ParseI64(zeros + Decimal(n)) == Some(n)
  {
    var head := zeros + Decimal(n);
    DecimalIsItsNumber(n);
    ZerosCountNothing(zeros, Decimal(n));
    assert forall c <- head :: c in zeros || c in Decimal(n);
    assert head != "" && head[0] in head;
  }

  /** The file naming convention: any zero padding, the number, and a name. */
  lemma {:induction false} NumberedFileParses(zeros: string, n: nat, rest: string)
    requires (forall c <- zeros :: c == '0') && n < 0x8000_0000_0000_0000
    ensures ParseVersionPrefix(zeros + Decimal(n) + "_" + rest) == Success(n)
  {
    PaddedNumberParses(zeros, n);
    DecimalIsItsNumber(n);
    PrefixStopsAtUnderscore(zeros + Decimal(n), rest);
  }

  /** The script an entry stands for; entries that are not SQL files stand for none. */
  function ReadEntry(entry: DirEntry): Result<Option<Script>, PersistenceError> {
    if entry.Unreadable? then Failure(IoError)
    else if !HasSqlExtension(entry.name) then Success(None)
    else match ParseVersionPrefix(entry.name)
      case Failure(e) => Failure(e)
      case Success(version) =>
        if entry.sql.None? then Failure(IoError) else Success(Some(Script(version, entry.name, entry.sql.value)))
  }

  function Collect(entries: seq<DirEntry>): Result<seq<Script>, PersistenceError> {
    if entries == [] then Success([])
    else match Collect(entries[..|entries| - 1])
      case Failure(e) => Failure(e)
      case Success(scripts) =>
        match ReadEntry(entries[|entries| - 1])
        case Failure(e) => Failure(e)
        case Success(None) => Success(scripts)
        case Success(Some(script)) => Success(scripts + [script])
  }

  /** A file counts as a migration exactly when something precedes its `.sql`. */
  lemma {:induction false} SqlFilesAre(name: string)
    ensures HasSqlExtension(name) <==> exists stem: string :: stem != "" && name == stem + ".sql"
  {
    if HasSqlExtension(name) {
      var stem := name[..|name| - 4];
      assert stem != "" && name == stem + ".sql";
    }
  }

  /** Signed or not, digits are the number they denote as long as it is in range. */
  lemma {:induction false} SignedNumberParses(sign: string, digits: string)
    requires sign in {"", "+", "-"} && digits != "" && AllDigits(digits)
    ensures var n: int := if sign == "-" then -(Number(digits) as int) else Number(digits);
            ParseI64(sign + digits)
            == if -0x8000_0000_0000_0000 <= n < 0x8000_0000_0000_0000 then Some(n) else None
  {
    if sign == "" {
      assert sign + digits == digits;
      PlainNumberParses(digits);
    } else {
      assert sign == [sign[0]];
      MarkedNumberParses(sign[0], digits);
    }
  }

  function InRange(n: int): Option<int> {
    if -0x8000_0000_0000_0000 <= n < 0x8000_0000_0000_0000 then Some(n) else None
  }

  lemma PlainNumberParses(digits: string)
    requires digits != "" && AllDigits(digits)
    ensures ParseI64(digits) == InRange(Number(digits))
  {
    assert digits[0] in digits;
  }

  lemma MarkedNumberParses(sign: char, digits: string)
    requires sign in {'+', '-'} && digits != "" && AllDigits(digits)
    ensures ParseI64([sign] + digits) == InRange(if sign == '-' then -(Number(digits) as int) else Number(digits))
  {
    var s := [sign] + digits;
    assert s[0] == sign && s[1..] == digits;
  }

  /** Nothing else parses. */
  lemma {:induction false} OnlySignedNumbersParse(s: string) returns (sign: string, digits: string)
    requires ParseI64(s).Some?
    ensures s == sign + digits && sign in {"", "+", "-"} && digits != "" && AllDigits(digits)
  {
    if s != "" && (s[0] == '-' || s[0] == '+') {
      sign, digits := [s[0]], s[1..];
    } else {
      sign, digits := "", s;
    }
  }

  /** What an entry stands for, case by case: a numbered file its script, a file of
      another kind nothing; one that cannot be opened or read, or without a number
      ahead of its first underscore, is an error. */
  lemma {:induction false} EntryIsRead(zeros: string, n: nat, rest: string, name: string, sql: string)
    requires (forall c <- zeros :: c == '0') && n < 0x8000_0000_0000_0000
    ensures var file := zeros + Decimal(n) + "_" + (rest + ".sql");
            && ReadEntry(File(file, Some(sql))) == Success(Some(Script(n, file, sql)))
            && ReadEntry(File(file, None)) == Failure(IoError)
    ensures ReadEntry(Unreadable) == Failure(IoError)
    ensures !HasSqlExtension(name) ==> ReadEntry(File(name, Some(sql))) == ReadEntry(File(name, None)) == Success(None)
    ensures HasSqlExtension(name) && ParseI64(Prefix(name)).None? ==>
              var r := ReadEntry(File(name, Some(sql))); r.Failure? && r.error.MigrationFailed?
  {
    var head := zeros + Decimal(n) + "_" + rest;
    var file := zeros + Decimal(n) + "_" + (rest + ".sql");
    NumberedFileParses(zeros, n, rest + ".sql");
    assert file == head + ".sql";
    SqlFilesAre(file);
  }

  /** The first entry that is an error, in directory order. */
  function FirstProblem(entries: seq<DirEntry>): Option<PersistenceError> {
    if entries == [] then None
    else if ReadEntry(entries[0]).Failure? then Some(ReadEntry(entries[0]).error)
    else FirstProblem(entries[1..])
  }

  /** The scripts of the entries that stand for one, in directory order. */
  function Gathered(entries: seq<DirEntry>): seq<Script> {
    if entries == [] then [] else ScriptOf(entries[0]) + Gathered(entries[1..])
  }

  function ScriptOf(entry: DirEntry): seq<Script> {
    match ReadEntry(entry) case Success(Some(script)) => [script] case _ => []
  }

  /** Reading the directory fails with its first problem, else takes every script. */
  lemma {:induction false} CollectTakesAll(entries: seq<DirEntry>)
    ensures Collect(entries) == match FirstProblem(entries)
                                case Some(e) => Failure(e)
                                case None => Success(Gathered(entries))
    decreases |entries|
  {
    if entries != [] {
      var init, last := entries[..|entries| - 1], entries[|entries| - 1];
      assert entries == init + [last];
      CollectTakesAll(init);
      ProblemsConcat(init, last);
      assert Gathered(init) + [] == Gathered(init);
    }
  }

  lemma {:induction false} ProblemsConcat(init: seq<DirEntry>, last: DirEntry)
    ensures FirstProblem(init + [last]) ==
            if FirstProblem(init).Some? then FirstProblem(init)
            else if ReadEntry(last).Failure? then Some(ReadEntry(last).error) else None
    ensures Gathered(init + [last]) == Gathered(init) + ScriptOf(last)
    decreases |init|
  {
    if init == [] {
      assert init + [last] == [last] && [last][1..] == [];
    } else {
      assert (init + [last])[0] == init[0] && (init + [last])[1..] == init[1..] + [last];
      ProblemsConcat(init[1..], last);
      Associative(ScriptOf(init[0]), Gathered(init[1..]), ScriptOf(last));
    }
  }

  /** Where a stable sort by version puts a further script. */
  function Insert(s: Script, scripts: seq<Script>): (r: seq<Script>)
    ensures r != []
  {
    if scripts == [] || s.version < scripts[0].version then [s] + scripts
    else [scripts[0]] + Insert(s, scripts[1..])
  }

  function SortByVersion(scripts: seq<Script>): seq<Script> {
    if scripts == [] then [] else Insert(scripts[|scripts| - 1], SortByVersion(scripts[..|scripts| - 1]))
  }

  predicate RepeatsAt(scripts: seq<Script>, i: nat) {
    0 < i < |scripts| && scripts[i - 1].version == scripts[i].version
  }

  predicate HasAdjacentDuplicate(scripts: seq<Script>) {
    exists i: nat :: i < |scripts| && RepeatsAt(scripts, i)
  }

  function Discover(entries: seq<DirEntry>): Result<seq<Script>, PersistenceError> {
    match Collect(entries)
    case Failure(e) => Failure(e)
    case Success(scripts) =>
      var sorted := SortByVersion(scripts);
      if HasAdjacentDuplicate(sorted) then Failure(MigrationFailed("duplicate migration version")) else Success(sorted)
  }

  lemma {:induction false} CollectStopsAtError(entries: seq<DirEntry>, i: nat)
    requires i <= |entries| && Collect(entries[..i]).Failure?
    ensures Collect(entries) == Collect(entries[..i])
    decreases |entries|
  {
    if i == |entries| {
      assert entries[..i] == entries;
    } else {
      var init := entries[..|entries| - 1];
      assert init[..i] == entries[..i];
      CollectStopsAtError(init, i);
    }
  }

  method DiscoverMigrations(entries: seq<DirEntry>) returns (r: Result<seq<Script>, PersistenceError>)
    ensures r == Discover(entries)
  {
    var scripts: seq<Script> := [];
    for i := 0 to |entries|
      invariant Collect(entries[..i]) == Success(scripts)
    {
      assert entries[..i + 1][..i] == entries[..i] && entries[..i + 1][i] == entries[i];
      var read := ReadEntry(entries[i]);
      if read.Failure? {
        CollectStopsAtError(entries, i + 1);
        return Failure(read.error);
      }
      if read.value.Some? {
        scripts := scripts + [read.value.value];
      }
    }
    assert entries[..|entries|] == entries;
    var sorted := SortByVersion(scripts);
    for i := 0 to |sorted|
      invariant forall k :: 0 <= k < i ==> !RepeatsAt(sorted, k)
    {
      if i > 0 && sorted[i - 1].version == sorted[i].version {
        assert RepeatsAt(sorted, i);
        return Failure(MigrationFailed("duplicate migration version"));
      }
    }
    return Success(sorted);
  }

  predicate Ascending(scripts: seq<Script>) {
    forall i, j :: 0 <= i < j < |scripts| ==> scripts[i].version < scripts[j].version
  }

  predicate NonDescending(scripts: seq<Script>) {
    forall i, j :: 0 <= i < j < |scripts| ==> scripts[i].version <= scripts[j].version
  }

  lemma {:induction false} InsertPermutes(s: Script, scripts: seq<Script>)
    ensures multiset(Insert(s, scripts)) == multiset(scripts) + multiset{s}
    decreases |scripts|
  {
    if scripts == [] || s.version < scripts[0].version {
      assert multiset([s] + scripts) == multiset(scripts) + multiset{s};
    } else {
      assert scripts == [scripts[0]] + scripts[1..];
      InsertPermutes(s, scripts[1..]);
    }
  }

  lemma {:induction false} InsertSorts(s: Script, scripts: seq<Script>)
    requires NonDescending(scripts)
    ensures NonDescending(Insert(s, scripts))
    decreases |scripts|
  {
    if scripts != [] && s.version >= scripts[0].version {
      InsertSorts(s, scripts[1..]);
      assert scripts[0].version <= Insert(s, scripts[1..])[0].version;
    }
  }

  lemma {:induction false} SortSorts(scripts: seq<Script>)
    ensures NonDescending(SortByVersion(scripts)) && multiset(SortByVersion(scripts)) == multiset(scripts)
    decreases |scripts|
  {
    if scripts != [] {
      var init := scripts[..|scripts| - 1];
      assert scripts == init + [scripts[|scripts| - 1]];
      SortSorts(init);
      InsertSorts(scripts[|scripts| - 1], SortByVersion(init));
      InsertPermutes(scripts[|scripts| - 1], SortByVersion(init));
    }
  }

  /** In a sorted list, equal versions anywhere show up next to each other. */
  lemma {:induction false} AdjacentDecides(scripts: seq<Script>)
    requires NonDescending(scripts)
    ensures HasAdjacentDuplicate(scripts) <==> !Ascending(scripts)
  {
    if HasAdjacentDuplicate(scripts) {
      var i: nat :| i < |scripts| && RepeatsAt(scripts, i);
      assert !(scripts[i - 1].version < scripts[i].version);
    } else {
      forall i, j | 0 <= i < j < |scripts| ensures scripts[i].version < scripts[j].version {
        assert !RepeatsAt(scripts, i + 1);
        assert scripts[i].version <= scripts[i + 1].version;
        assert i + 1 < j ==> scripts[i + 1].version <= scripts[j].version;
      }
    }
  }

  lemma {:induction false} BothOccur(scripts: seq<Script>, i: nat)
    requires i + 1 < |scripts|
    ensures multiset{scripts[i], scripts[i + 1]} <= multiset(scripts)
  {
    assert scripts == scripts[..i] + [scripts[i], scripts[i + 1]] + scripts[i + 2..];
  }

  /** Two of the scripts share a version. */
  ghost predicate SharesVersion(scripts: seq<Script>) {
    exists m: Script, n: Script :: multiset{m, n} <= multiset(scripts) && m.version == n.version
  }

  lemma {:induction false} RepeatShares(scripts: seq<Script>, sorted: seq<Script>)
    requires HasAdjacentDuplicate(sorted) && multiset(sorted) == multiset(scripts)
    ensures SharesVersion(scripts)
  {
    var i: nat :| i < |sorted| && RepeatsAt(sorted, i);
    BothOccur(sorted, i - 1);
    assert multiset{sorted[i - 1], sorted[i]} <= multiset(scripts);
  }

  lemma {:induction false} OnceEach(scripts: seq<Script>, x: Script)
    requires Ascending(scripts)
    ensures multiset(scripts)[x] <= 1
    decreases |scripts|
  {
    if scripts != [] {
      var init, last := scripts[..|scripts| - 1], scripts[|scripts| - 1];
      assert scripts == init + [last];
      OnceEach(init, x);
      assert x == last ==> x !in init;
    }
  }

  lemma {:induction false} AscendingSharesNone(scripts: seq<Script>, m: Script, n: Script)
    requires Ascending(scripts) && multiset{m, n} <= multiset(scripts)
    ensures m.version != n.version
  {
    assert multiset{m, n}[m] > 0 && multiset{m, n}[n] > 0;
    assert m in multiset(scripts) && n in multiset(scripts);
    if m == n {
      assert multiset{m, n}[m] == 2;
      OnceEach(scripts, m);
    }
  }

  /** Discovery yields every collected script exactly once in strictly ascending
      order, and refuses exactly the directories in which two share a version. */
  lemma {:induction false} DiscoveryIsSound(entries: seq<DirEntry>)
    requires Collect(entries).Success?
    ensures Discover(entries).Failure? <==> SharesVersion(Collect(entries).value)
    ensures Discover(entries).Failure? ==> Discover(entries).error == MigrationFailed("duplicate migration version")
    ensures Discover(entries).Success? ==>
              Ascending(Discover(entries).value) && multiset(Discover(entries).value) == multiset(Collect(entries).value)
  {
    var collected := Collect(entries).value;
    var sorted := SortByVersion(collected);
    SortSorts(collected);
    AdjacentDecides(sorted);
    if HasAdjacentDuplicate(sorted) {
      RepeatShares(collected, sorted);
    } else if SharesVersion(collected) {
      var m: Script, n: Script :| multiset{m, n} <= multiset(collected) && m.version == n.version;
      AscendingSharesNone(sorted, m, n);
    }
  }

  // ------------------------------------------------------------------
  // The database, and one run.
  // ------------------------------------------------------------------

  /** `meta` is the version table's rows, `applied` the history of commits. */
  datatype Db<S> = Db(
    meta: Option<seq<int>>,
    schema: S,
    applied: seq<Script>,
    faults: seq<Option<SqlFault>>)

  /** What a script's SQL does to the schema when it succeeds. */
  type Effect<!S> = (string, S) -> S

  function Fault<S>(db: Db<S>): Option<SqlFault> {
    if db.faults == [] then None else db.faults[0]
  }

  function Called<S>(db: Db<S>): Db<S> {
    if db.faults == [] then db else db.(faults := db.faults[1..])
  }

  function Rows<S>(db: Db<S>): seq<int> {
    if db.meta.Some? then db.meta.value else []
  }

  /** The stored version; a database without one counts as version 0. */
  function Version<S>(db: Db<S>): int {
    if |Rows(db)| == 1 then Rows(db)[0] else 0
  }

  /** The error of a call outside a migration's statements. */
  function SetupError(context: string, fault: SqlFault): PersistenceError {
    match fault
    case Busy(text) => DatabaseLocked(context + ": " + text)
    case Locked(text) => DatabaseLocked(context + ": " + text)
    case OtherFault(text) => MigrationFailed(context + ": " + text)
  }

  function CorruptMeta(rows: nat): PersistenceError {
    MigrationFailed("_meta table is corrupt: expected 0 or 1 rows, found " + Decimal(rows))
  }

  /** An error of a migration's own statements. */
  function ScriptError(m: Script, step: string, fault: SqlFault): PersistenceError {
    MigrationFailed(m.fileName + ": " + (step + fault.text))
  }

  function EnsureMetaTable<S>(db: Db<S>): (Db<S>, Option<PersistenceError>) {
    if Fault(db).Some? then (Called(db), Some(SetupError("creating _meta table", Fault(db).value)))
    else
      var created := Called(db).(meta := Some(Rows(db)));
      var counted := Called(created);
      if Fault(created).Some? then (counted, Some(SetupError("reading _meta row count", Fault(created).value)))
      else if |Rows(db)| == 0 then
        (if Fault(counted).Some? then (Called(counted), Some(SetupError("seeding _meta row", Fault(counted).value)))
         else (Called(counted).(meta := Some([0])), None))
      else if |Rows(db)| == 1 then (counted, None)
      else (counted, Some(CorruptMeta(|Rows(db)|)))
  }

  /** Begin, execute, update the version, commit: a failure anywhere rolls back. */
  function ApplyMigration<S>(exec: Effect<S>, db: Db<S>, m: Script): (Db<S>, Option<PersistenceError>) {
    var begun := Called(db);
    var executed := Called(begun);
    var updated := Called(executed);
    if Fault(db).Some? then (begun, Some(SetupError("opening migration transaction", Fault(db).value)))
    else if Fault(begun).Some? then (executed, Some(ScriptError(m, "", Fault(begun).value)))
    else if Fault(executed).Some? then
      (updated, Some(ScriptError(m, "updating schema_version: ", Fault(executed).value)))
    else if Fault(updated).Some? then
      (Called(updated), Some(ScriptError(m, "committing migration: ", Fault(updated).value)))
    else (Called(updated).(meta := Some(seq(|Rows(db)|, _ => m.version)),
                           schema := exec(m.sql, db.schema),
                           applied := db.applied + [m]), None)
  }

  function ApplyAll<S>(exec: Effect<S>, db: Db<S>, scripts: seq<Script>): (Db<S>, Option<PersistenceError>)
    decreases |scripts|
  {
    if scripts == [] then (db, None)
    else
      var (next, error) := ApplyMigration(exec, db, scripts[0]);
      if error.Some? then (next, error) else ApplyAll(exec, next, scripts[1..])
  }

  function Pending(scripts: seq<Script>, current: int): seq<Script> {
    if scripts == [] then []
    else (if scripts[0].version > current then [scripts[0]] else []) + Pending(scripts[1..], current)
  }

  function Highest(scripts: seq<Script>): int {
    if scripts == [] then 0 else scripts[|scripts| - 1].version
  }

  /** The version read back, after checking that it is not newer than known. */
  function CheckedVersion<S>(scripts: seq<Script>, db: Db<S>): (Db<S>, Result<int, PersistenceError>) {
    var (ready, error) := EnsureMetaTable(db);
    if error.Some? then (ready, Failure(error.value))
    else if Fault(ready).Some? then (Called(ready), Failure(SetupError("reading schema_version", Fault(ready).value)))
    else
      var current := Version(ready);
      (Called(ready), if current > Highest(scripts) then Failure(SchemaVersionMismatch(current, Highest(scripts)))
                      else Success(current))
  }

  function RunOnce<S>(exec: Effect<S>, scripts: seq<Script>, db: Db<S>): (Db<S>, Option<PersistenceError>) {
    var (checked, current) := CheckedVersion(scripts, db);
    match current
    case Failure(e) => (checked, Some(e))
    case Success(version) => ApplyAll(exec, checked, Pending(scripts, version))
  }

  class Connection<S> {
    const exec: Effect<S>
    var meta: Option<seq<int>>
    var schema: S
    var faults: seq<Option<SqlFault>>
    ghost var applied: seq<Script>

    ghost function View(): Db<S>
      reads this
    {
      Db(meta, schema, applied, faults)
    }

    constructor (exec: Effect<S>, schema: S, faults: seq<Option<SqlFault>>)
      ensures this.exec == exec && View() == Db(None, schema, [], faults)
    {
      this.exec, this.schema, this.faults := exec, schema, faults;
      meta, applied := None, [];
    }

    method Call() returns (fault: Option<SqlFault>)
      modifies this`faults
      ensures fault == Fault(old(View())) && View() == Called(old(View()))
    {
      fault := None;
      if faults != [] {
        fault := faults[0];
        faults := faults[1..];
      }
    }

    method EnsureMeta() returns (error: Option<PersistenceError>)
      modifies this
      ensures (View(), error) == EnsureMetaTable(old(View()))
    {
      var fault := Call();
      if fault.Some? {
        return Some(SetupError("creating _meta table", fault.value));
      }
      if meta.None? {
        meta := Some([]);
      }
      fault := Call();
      if fault.Some? {
        return Some(SetupError("reading _meta row count", fault.value));
      }
      if |meta.value| == 0 {
        fault := Call();
        if fault.Some? {
          return Some(SetupError("seeding _meta row", fault.value));
        }
        meta := Some([0]);
      } else if |meta.value| > 1 {
        return Some(CorruptMeta(|meta.value|));
      }
      return None;
    }

    method Apply(m: Script) returns (error: Option<PersistenceError>)
      modifies this
      ensures (View(), error) == ApplyMigration(exec, old(View()), m)
    {
      var fault := Call();
      if fault.Some? {
        return Some(SetupError("opening migration transaction", fault.value));
      }
      fault := Call();
      if fault.Some? {
        return Some(ScriptError(m, "", fault.value));
      }
      var txSchema := exec(m.sql, schema);
      fault := Call();
      if fault.Some? {
        return Some(ScriptError(m, "updating schema_version: ", fault.value));
      }
      var txMeta := seq(if meta.Some? then |meta.value| else 0, _ => m.version);
      fault := Call();
      if fault.Some? {
        return Some(ScriptError(m, "committing migration: ", fault.value));
      }
      schema, meta := txSchema, Some(txMeta);
      applied := applied + [m];
      return None;
    }
  }

  class MigrationRunner<S> {
    const conn: Connection<S>
    const migrations: seq<Script>

    constructor (conn: Connection<S>, migrations: seq<Script>)
      ensures this.conn == conn && this.migrations == migrations
    {
      this.conn, this.migrations := conn, migrations;
    }

    method CurrentVersion() returns (r: Result<int, PersistenceError>)
      modifies conn
      ensures (conn.View(), r) == CheckedVersion(migrations, old(conn.View()))
    {
      var error := conn.EnsureMeta();
      if error.Some? {
        return Failure(error.value);
      }
      var fault := conn.Call();
      if fault.Some? {
        return Failure(SetupError("reading schema_version", fault.value));
      }
      var current := conn.meta.value[0];
      var highestKnown := if migrations == [] then 0 else migrations[|migrations| - 1].version;
      if current > highestKnown {
        return Failure(SchemaVersionMismatch(current, highestKnown));
      }
      return Success(current);
    }

    method Run() returns (error: Option<PersistenceError>)
      modifies conn
      ensures (conn.View(), error) == RunOnce(conn.exec, migrations, old(conn.View()))
    {
      var checked := CurrentVersion();
      if checked.Failure? {
        return Some(checked.error);
      }
      var current := checked.value;
      ghost var goal := ApplyAll(conn.exec, conn.View(), Pending(migrations, current));
      assert migrations[0..] == migrations;
      for i := 0 to |migrations|
        invariant ApplyAll(conn.exec, conn.View(), Pending(migrations[i..], current)) == goal
      {
        ghost var rest := Pending(migrations[i + 1..], current);
        assert migrations[i..][0] == migrations[i] && migrations[i..][1..] == migrations[i + 1..];
        if migrations[i].version > current {
          assert ([migrations[i]] + rest)[1..] == rest;
          error := conn.Apply(migrations[i]);
          if error.Some? {
            return;
          }
        } else {
          assert [] + rest == rest;
        }
      }
      return None;
    }

    method PendingMigrations() returns (r: Result<seq<(int, string)>, PersistenceError>)
      modifies conn
      ensures var (db, current) := CheckedVersion(migrations, old(conn.View()));
              && conn.View() == db
              && match current
                 case Failure(e) => r == Failure(e)
                 case Success(version) =>
                   var pending := Pending(migrations, version);
                   r == Success(seq(|pending|, i requires 0 <= i < |pending| => (pending[i].version, pending[i].fileName)))
    {
      var current := CurrentVersion();
      if current.Failure? {
        return Failure(current.error);
      }
      var pending := Pending(migrations, current.value);
      return Success(seq(|pending|, i requires 0 <= i < |pending| => (pending[i].version, pending[i].fileName)));
    }
  }

  // ------------------------------------------------------------------
  // Which call failed, and what its failure leaves behind.
  // ------------------------------------------------------------------

  /** The failure ahead of the call after `n` others. */
  function FaultAt<S>(db: Db<S>, n: nat): Option<SqlFault> {
    if n < |db.faults| then db.faults[n] else None
  }

  /** A busy or locked database is reported as such, anything else as a failed migration. */
  ghost predicate SetupFailed(error: PersistenceError, context: string, fault: SqlFault) {
    error == if fault.OtherFault? then MigrationFailed(context + ": " + fault.text)
             else DatabaseLocked(context + ": " + fault.text)
  }

  /** A migration is four calls, and the first that fails is reported. */
  lemma {:induction false} MigrationReports<S(!new)>(exec: Effect<S>, db: Db<S>, m: Script)
    ensures var error := ApplyMigration(exec, db, m).1;
            if FaultAt(db, 0).Some? then
              error.Some? && SetupFailed(error.value, "opening migration transaction", FaultAt(db, 0).value)
            else if FaultAt(db, 1).Some? then
              error == Some(MigrationFailed(m.fileName + ": " + FaultAt(db, 1).value.text))
            else if FaultAt(db, 2).Some? then
              error == Some(MigrationFailed(m.fileName + ": " + ("updating schema_version: " + FaultAt(db, 2).value.text)))
            else if FaultAt(db, 3).Some? then
              error == Some(MigrationFailed(m.fileName + ": " + ("committing migration: " + FaultAt(db, 3).value.text)))
            else error == None
  {
    FaultsInTurn(db);
    if FaultAt(db, 1).Some? {
      assert "" + FaultAt(db, 1).value.text == FaultAt(db, 1).value.text;
    }
  }

  /** A failure of any of them leaves the database as it was; when none fails, script,
      version and history are in. */
  lemma {:induction false} MigrationIsAtomic<S(!new)>(exec: Effect<S>, db: Db<S>, m: Script)
    ensures var (after, error) := ApplyMigration(exec, db, m);
            && (error.None? <==> forall n: nat :: n < 4 ==> FaultAt(db, n).None?)
            && (error.Some? ==> after == db.(faults := after.faults))
            && (error.None? ==> after.schema == exec(m.sql, db.schema) && after.applied == db.applied + [m]
                                && |Rows(after)| == |Rows(db)| && forall v <- Rows(after) :: v == m.version)
  {
    FaultsInTurn(db);
  }

  lemma FaultsInTurn<S>(db: Db<S>)
    ensures Fault(db) == FaultAt(db, 0) && Fault(Called(db)) == FaultAt(db, 1)
    ensures Fault(Called(Called(db))) == FaultAt(db, 2) && Fault(Called(Called(Called(db)))) == FaultAt(db, 3)
  {}

  /** Reading the version is three calls, four when the version table is still to be
      seeded; the first that fails is reported, and a table of several rows is too. */
  lemma {:induction false} VersionIsRead<S(!new)>(scripts: seq<Script>, db: Db<S>)
    ensures var (after, r) := CheckedVersion(scripts, db);
            var rows := |Rows(db)|;
            && after.schema == db.schema && after.applied == db.applied && Version(after) == Version(db)
            && if FaultAt(db, 0).Some? then r.Failure? && SetupFailed(r.error, "creating _meta table", FaultAt(db, 0).value)
               else if FaultAt(db, 1).Some? then
                 r.Failure? && SetupFailed(r.error, "reading _meta row count", FaultAt(db, 1).value)
               else if rows > 1 then
                 r == Failure(MigrationFailed("_meta table is corrupt: expected 0 or 1 rows, found " + Decimal(rows)))
               else if rows == 0 && FaultAt(db, 2).Some? then
                 r.Failure? && SetupFailed(r.error, "seeding _meta row", FaultAt(db, 2).value)
               else
                 var fault := FaultAt(db, 3 - rows);
                 if fault.Some? then r.Failure? && SetupFailed(r.error, "reading schema_version", fault.value)
                 else && Rows(after) == [Version(db)]
                      && (r == Success(Version(db)) || (r.Failure? && r.error.SchemaVersionMismatch?))
  {
    FaultsInTurn(db);
  }

  // ------------------------------------------------------------------
  // Any number of runs, any call failing.
  // ------------------------------------------------------------------

  /** The database after `n` runs, and how the last one ended. */
  function Runs<S>(exec: Effect<S>, scripts: seq<Script>, db: Db<S>, n: nat): (Db<S>, Option<PersistenceError>) {
    if n == 0 then (db, None) else RunOnce(exec, scripts, Runs(exec, scripts, db, n - 1).0)
  }

  function Fold<S>(exec: Effect<S>, schema: S, scripts: seq<Script>): S {
    if scripts == [] then schema
    else exec(scripts[|scripts| - 1].sql, Fold(exec, schema, scripts[..|scripts| - 1]))
  }

  /** `db` is `start` with exactly the first `k` pending scripts applied. */
  ghost predicate Advanced<S(!new)>(exec: Effect<S>, start: Db<S>, db: Db<S>, todo: seq<Script>, k: nat) {
    && k <= |todo|
    && db.applied == start.applied + todo[..k]
    && db.schema == Fold(exec, start.schema, todo[..k])
    && Version(db) == (if k == 0 then Version(start) else todo[k - 1].version)
    && (|Rows(start)| <= 1 ==> |Rows(db)| <= 1)
    && (|Rows(start)| > 1 ==> k == 0 && Rows(db) == Rows(start))
    && (k > 0 ==> |Rows(db)| == 1)
  }

  lemma {:induction false} PendingFrom(scripts: seq<Script>, current: int, i: nat)
    requires i <= |scripts|
    requires forall j :: 0 <= j < i ==> scripts[j].version <= current
    requires forall j :: i <= j < |scripts| ==> scripts[j].version > current
    ensures Pending(scripts, current) == scripts[i..]
    decreases |scripts|
  {
    if scripts != [] {
      var tail := scripts[1..];
      if i == 0 {
        PendingFrom(tail, current, 0);
        assert [scripts[0]] + tail[0..] == scripts[0..];
      } else {
        PendingFrom(tail, current, i - 1);
        assert [] + tail[i - 1..] == scripts[i..];
      }
    }
  }

  /** On a sorted directory the filter keeps a suffix. */
  lemma {:induction false} PendingIsSuffix(scripts: seq<Script>, current: int) returns (i: nat)
    requires Ascending(scripts)
    ensures i <= |scripts| && Pending(scripts, current) == scripts[i..]
    ensures forall j :: 0 <= j < i ==> scripts[j].version <= current
    ensures forall j :: i <= j < |scripts| ==> scripts[j].version > current
  {
    i := 0;
    while i < |scripts| && scripts[i].version <= current
      invariant i <= |scripts|
      invariant forall j :: 0 <= j < i ==> scripts[j].version <= current
    {
      i := i + 1;
    }
    PendingFrom(scripts, current, i);
  }

  /** What is pending from one of the pending versions on is what follows it. */
  lemma {:induction false} PendingResumes(scripts: seq<Script>, current: int, k: nat)
    requires Ascending(scripts) && 0 < k <= |Pending(scripts, current)|
    ensures Pending(scripts, Pending(scripts, current)[k - 1].version) == Pending(scripts, current)[k..]
  {
    var i := PendingIsSuffix(scripts, current);
    PendingFrom(scripts, scripts[i + k - 1].version, i + k);
    assert scripts[i..][k..] == scripts[i + k..];
  }

  /** After `k` pending scripts, the rest is pending and the version has not fallen. */
  lemma {:induction false} PendingFromThere(scripts: seq<Script>, current: int, k: nat)
    requires Ascending(scripts) && k <= |Pending(scripts, current)|
    ensures var todo := Pending(scripts, current);
            var there := if k == 0 then current else todo[k - 1].version;
            Pending(scripts, there) == todo[k..] && current <= there
  {
    var i := PendingIsSuffix(scripts, current);
    if k > 0 {
      PendingResumes(scripts, current, k);
    }
  }

  /** One migration moves one script further, or leaves everything in place. */
  lemma {:induction false} ApplyAdvances<S(!new)>(exec: Effect<S>, start: Db<S>, db: Db<S>, todo: seq<Script>, k: nat)
    requires Advanced(exec, start, db, todo, k) && |Rows(db)| == 1 && k < |todo|
    ensures var (next, error) := ApplyMigration(exec, db, todo[k]);
            |Rows(next)| == 1 && Advanced(exec, start, next, todo, if error.Some? then k else k + 1)
  {
    var (next, error) := ApplyMigration(exec, db, todo[k]);
    if error.None? {
      var done := todo[..k + 1];
      assert done[..|done| - 1] == todo[..k] && done == todo[..k] + [todo[k]];
      assert next.applied == start.applied + done;
      assert Rows(next) == [todo[k].version];
    }
  }

  lemma {:induction false} ApplyAllAdvances<S(!new)>(
    exec: Effect<S>, start: Db<S>, db: Db<S>, todo: seq<Script>, k: nat) returns (k': nat)
    requires Advanced(exec, start, db, todo, k) && |Rows(db)| == 1
    ensures var (after, error) := ApplyAll(exec, db, todo[k..]);
            && k <= k' && Advanced(exec, start, after, todo, k') && |Rows(after)| == 1
            && (error.None? <==> k' == |todo|)
    decreases |todo| - k
  {
    k' := k;
    if k < |todo| {
      ApplyAdvances(exec, start, db, todo, k);
      var (next, error) := ApplyMigration(exec, db, todo[k]);
      assert todo[k..][0] == todo[k] && todo[k..][1..] == todo[k + 1..];
      if error.None? {
        k' := ApplyAllAdvances(exec, start, next, todo, k + 1);
      }
    }
  }

  lemma {:induction false} CheckedAdvances<S(!new)>(
    exec: Effect<S>, scripts: seq<Script>, start: Db<S>, db: Db<S>, todo: seq<Script>, k: nat)
    requires Advanced(exec, start, db, todo, k)
    ensures var (checked, current) := CheckedVersion(scripts, db);
            && Advanced(exec, start, checked, todo, k)
            && (current.Success? ==>
                  |Rows(checked)| == 1 && current.value == Version(checked) && current.value <= Highest(scripts))
  {
    CheckedKeeps(scripts, db);
  }

  lemma CheckedKeeps<S(!new)>(scripts: seq<Script>, db: Db<S>)
    ensures var (checked, current) := CheckedVersion(scripts, db);
            && checked.schema == db.schema && checked.applied == db.applied && Version(checked) == Version(db)
            && (|Rows(db)| >= 1 ==> Rows(checked) == Rows(db)) && (|Rows(db)| <= 1 ==> |Rows(checked)| <= 1)
            && (current.Success? ==>
                  |Rows(checked)| == 1 && current.value == Version(checked) && current.value <= Highest(scripts))
  {}

  /** One more run only ever moves forward along the pending scripts; it succeeds
      only by reaching their end, and then only if the start was not too new. */
  lemma {:induction false} RunAdvances<S(!new)>(
    exec: Effect<S>, scripts: seq<Script>, start: Db<S>, db: Db<S>, k: nat) returns (k': nat)
    requires Ascending(scripts) && Advanced(exec, start, db, Pending(scripts, Version(start)), k)
    ensures var todo := Pending(scripts, Version(start));
            var (after, error) := RunOnce(exec, scripts, db);
            && k <= k' && Advanced(exec, start, after, todo, k')
            && (error.None? ==> k' == |todo| && |Rows(after)| == 1 && Version(start) <= Highest(scripts))
  {
    var todo := Pending(scripts, Version(start));
    var (checked, current) := CheckedVersion(scripts, db);
    CheckedAdvances(exec, scripts, start, db, todo, k);
    if current.Failure? {
      k' := k;
    } else {
      PendingFromThere(scripts, Version(start), k);
      k' := ApplyAllAdvances(exec, start, checked, todo, k);
    }
  }

  /** Over any number of runs, whatever fails: the scripts applied are a prefix of
      those pending at the start, the schema is the result of that prefix, and the
      stored version is the last one applied. */
  lemma {:induction false} RunsApplyAPrefix<S(!new)>(
    exec: Effect<S>, scripts: seq<Script>, start: Db<S>, n: nat) returns (k: nat)
    requires Ascending(scripts)
    ensures Advanced(exec, start, Runs(exec, scripts, start, n).0, Pending(scripts, Version(start)), k)
    decreases n
  {
    var todo := Pending(scripts, Version(start));
    if n == 0 {
      k := 0;
      assert todo[..0] == [] && start.applied + [] == start.applied;
    } else {
      var i := RunsApplyAPrefix(exec, scripts, start, n - 1);
      k := RunAdvances(exec, scripts, start, Runs(exec, scripts, start, n - 1).0, i);
    }
  }

  /** Over any run sequence the scripts applied since the start are in strictly
      ascending version order - so none twice - and all above the start version;
      a further run never lowers the stored version. */
  lemma {:induction false} AppliedAscends<S(!new)>(exec: Effect<S>, scripts: seq<Script>, start: Db<S>, n: nat)
    requires Ascending(scripts) && start.applied == []
    ensures AscendsFrom(Version(start), Runs(exec, scripts, start, n).0)
    ensures Version(Runs(exec, scripts, start, n).0) <= Version(Runs(exec, scripts, start, n + 1).0)
  {
    var todo := Pending(scripts, Version(start));
    var db := Runs(exec, scripts, start, n).0;
    var k := RunsApplyAPrefix(exec, scripts, start, n);
    var k' := RunAdvances(exec, scripts, start, db, k);
    assert start.applied + todo[..k] == todo[..k];
    PrefixAscends(scripts, Version(start), k, k');
    PrefixIsTheHistory(start, db, todo, k);
  }

  /** The history is in strictly ascending version order and above `from`, and the
      stored version is that of the last script in it. */
  ghost predicate AscendsFrom<S>(from: int, db: Db<S>) {
    && Ascending(db.applied)
    && (forall m <- db.applied :: m.version > from)
    && Version(db) == (if db.applied == [] then from else db.applied[|db.applied| - 1].version)
  }

  lemma PrefixIsTheHistory<S>(start: Db<S>, db: Db<S>, todo: seq<Script>, k: nat)
    requires k <= |todo| && db.applied == todo[..k] && Ascending(todo[..k])
    requires forall m <- todo[..k] :: m.version > Version(start)
    requires Version(db) == if k == 0 then Version(start) else todo[k - 1].version
    ensures AscendsFrom(Version(start), db)
  {}

  lemma {:induction false} PrefixAscends(scripts: seq<Script>, current: int, k: nat, k': nat)
    requires Ascending(scripts) && k <= k' <= |Pending(scripts, current)|
    ensures var todo := Pending(scripts, current);
            && Ascending(todo[..k]) && (forall m <- todo[..k] :: m.version > current)
            && (if k == 0 then current else todo[k - 1].version) <= (if k' == 0 then current else todo[k' - 1].version)
  {
    var i := PendingIsSuffix(scripts, current);
    var todo := scripts[i..];
    assert forall j :: 0 <= j < |todo| ==> todo[j] == scripts[i + j] && todo[j].version > current;
  }

  /** Above every known version, and above 0 when none is known. */
  ghost predicate TooNew(scripts: seq<Script>, version: int) {
    if scripts == [] then version > 0 else forall m <- scripts :: m.version < version
  }

  lemma {:induction false} TooNewIs(scripts: seq<Script>, version: int)
    requires Ascending(scripts)
    ensures TooNew(scripts, version) <==> version > Highest(scripts)
  {
    if scripts != [] {
      assert scripts[|scripts| - 1] in scripts;
    }
  }

  /** A run without failing calls succeeds exactly when the version table has at
      most one row and the stored version is not too new. */
  lemma {:induction false} UndisturbedRun<S(!new)>(exec: Effect<S>, scripts: seq<Script>, start: Db<S>)
    requires Ascending(scripts) && start.faults == []
    ensures var todo := Pending(scripts, Version(start));
            var (after, error) := RunOnce(exec, scripts, start);
            && (error.None? <==> |Rows(start)| <= 1 && !TooNew(scripts, Version(start)))
            && (error.None? ==> Advanced(exec, start, after, todo, |todo|) && |Rows(after)| == 1)
  {
    var todo := Pending(scripts, Version(start));
    TooNewIs(scripts, Version(start));
    assert todo[..0] == [] && start.applied + [] == start.applied && todo[0..] == todo;
    var (checked, current) := CheckedVersion(scripts, start);
    if current.Success? {
      AppliesUndisturbed(exec, checked, todo);
      var k := ApplyAllAdvances(exec, start, checked, todo, 0);
    }
  }

  lemma {:induction false} AppliesUndisturbed<S(!new)>(exec: Effect<S>, db: Db<S>, scripts: seq<Script>)
    requires db.faults == []
    ensures ApplyAll(exec, db, scripts).1 == None
    decreases |scripts|
  {
    if scripts != [] {
      AppliesUndisturbed(exec, ApplyMigration(exec, db, scripts[0]).0, scripts[1..]);
    }
  }

  lemma {:induction false} EndIsUnique<S(!new)>(exec: Effect<S>, start: Db<S>, a: Db<S>, b: Db<S>, todo: seq<Script>)
    requires Advanced(exec, start, a, todo, |todo|) && Advanced(exec, start, b, todo, |todo|)
    requires |Rows(a)| == 1 && |Rows(b)| == 1
    ensures a.(faults := []) == b.(faults := [])
  {
    assert Rows(a) == [Version(a)] && Rows(b) == [Version(b)];
    assert a.meta == Some(Rows(a)) && b.meta == Some(Rows(b));
  }

  lemma {:induction false} SuccessIsOneRun<S(!new)>(
    exec: Effect<S>, scripts: seq<Script>, start: Db<S>, db: Db<S>, k: nat)
    requires Ascending(scripts) && Advanced(exec, start, db, Pending(scripts, Version(start)), k)
    requires RunOnce(exec, scripts, db).1.None?
    ensures var (once, error) := RunOnce(exec, scripts, start.(faults := []));
            error.None? && RunOnce(exec, scripts, db).0.(faults := []) == once.(faults := [])
  {
    var clean := start.(faults := []);
    var k' := RunAdvances(exec, scripts, start, db, k);
    TooNewIs(scripts, Version(start));
    UndisturbedRun(exec, scripts, clean);
    EndIsUnique(exec, start, RunOnce(exec, scripts, db).0, RunOnce(exec, scripts, clean).0,
                Pending(scripts, Version(start)));
  }

  /** A run without failing calls is refused exactly when the stored version is above
      every script's - above 0, with no scripts - and otherwise applies the scripts
      above it, in order. */
  lemma {:induction false} RefusedExactlyWhen<S(!new)>(exec: Effect<S>, scripts: seq<Script>, start: Db<S>, stored: int)
    returns (i: nat)
    requires Ascending(scripts) && start.faults == []
    requires start.meta == Some([stored]) || (start.meta in {None, Some([])} && stored == 0)
    ensures SplitsAt(scripts, stored, i)
    ensures var (after, error) := RunOnce(exec, scripts, start);
            && (error.Some? <==> TooNew(scripts, stored))
            && (error.Some? ==> Refuses(error.value, scripts, stored) && after.applied == start.applied)
            && (error.None? ==> Applied(exec, start, after, scripts[i..], stored))
  {
    i := PendingIsSuffix(scripts, stored);
    UndisturbedRun(exec, scripts, start);
    TooNewIs(scripts, stored);
    if scripts != [] {
      LastIsHighest(scripts);
    }
    RefusalIs(exec, scripts, start);
    if RunOnce(exec, scripts, start).1.None? {
      AdvancedIsApplied(exec, start, RunOnce(exec, scripts, start).0, scripts[i..], stored);
    }
  }

  lemma LastIsHighest(scripts: seq<Script>)
    requires Ascending(scripts) && scripts != []
    ensures (exists m <- scripts :: m.version == Highest(scripts)) && forall m <- scripts :: m.version <= Highest(scripts)
  {
    assert scripts[|scripts| - 1] in scripts;
  }

  lemma RefusalIs<S(!new)>(exec: Effect<S>, scripts: seq<Script>, start: Db<S>)
    requires start.faults == [] && |Rows(start)| <= 1
    ensures var (after, error) := RunOnce(exec, scripts, start);
            Version(start) > Highest(scripts) ==>
              error == Some(SchemaVersionMismatch(Version(start), Highest(scripts))) && after.applied == start.applied
  {}

  lemma AdvancedIsApplied<S(!new)>(exec: Effect<S>, start: Db<S>, after: Db<S>, todo: seq<Script>, stored: int)
    requires Advanced(exec, start, after, todo, |todo|) && |Rows(after)| == 1 && Version(start) == stored
    ensures Applied(exec, start, after, todo, stored)
  {
    assert todo[..|todo|] == todo && Rows(after) == [Version(after)];
  }

  /** The refusal names the stored version and a largest version, 0 without scripts. */
  ghost predicate Refuses(error: PersistenceError, scripts: seq<Script>, stored: int) {
    && error.SchemaVersionMismatch? && error.current == stored
    && (if scripts == [] then error.highest == 0
        else (exists m <- scripts :: m.version == error.highest) && forall m <- scripts :: m.version <= error.highest)
  }

  ghost predicate SplitsAt(scripts: seq<Script>, stored: int, i: nat) {
    && i <= |scripts|
    && (forall j :: 0 <= j < i ==> scripts[j].version <= stored)
    && (forall j :: i <= j < |scripts| ==> scripts[j].version > stored)
  }

  /** `todo` was applied in order, and the version table holds the last one's version. */
  ghost predicate Applied<S(!new)>(exec: Effect<S>, start: Db<S>, after: Db<S>, todo: seq<Script>, stored: int) {
    && after.applied == start.applied + todo
    && after.schema == Fold(exec, start.schema, todo)
    && after.meta == Some([if todo == [] then stored else todo[|todo| - 1].version])
  }

  /** However many runs failed before it and wherever, the first run to succeed
      leaves the database that one uninterrupted run would have left. */
  lemma {:induction false} FirstSuccessIsOneRun<S(!new)>(exec: Effect<S>, scripts: seq<Script>, start: Db<S>, n: nat)
    requires Ascending(scripts) && n > 0 && Runs(exec, scripts, start, n).1.None?
    ensures var (after, _) := Runs(exec, scripts, start, n);
            var (once, error) := RunOnce(exec, scripts, start.(faults := []));
            error.None? && after.(faults := []) == once.(faults := [])
  {
    var k := RunsApplyAPrefix(exec, scripts, start, n - 1);
    SuccessIsOneRun(exec, scripts, start, Runs(exec, scripts, start, n - 1).0, k);
  }

  /** Running again after a success changes nothing. */
  lemma {:induction false} RunIsIdempotent<S(!new)>(exec: Effect<S>, scripts: seq<Script>, start: Db<S>)
    requires Ascending(scripts) && start.faults == [] && RunOnce(exec, scripts, start).1.None?
    ensures var after := RunOnce(exec, scripts, start).0;
            RunOnce(exec, scripts, after) == (after, None)
  {
    var todo := Pending(scripts, Version(start));
    UndisturbedRun(exec, scripts, start);
    var after := RunOnce(exec, scripts, start).0;
    KeepsFaultFree(exec, scripts, start);
    var i := PendingIsSuffix(scripts, Version(start));
    if todo != [] {
      PendingResumes(scripts, Version(start), |todo|);
      assert todo[|todo|..] == [];
    }
    TooNewIs(scripts, Version(start));
    assert Pending(scripts, Version(after)) == [];
    assert Version(after) <= Highest(scripts);
  }

  lemma {:induction false} KeepsFaultFree<S(!new)>(exec: Effect<S>, scripts: seq<Script>, start: Db<S>)
    requires start.faults == []
    ensures RunOnce(exec, scripts, start).0.faults == []
  {
    var (checked, current) := CheckedVersion(scripts, start);
    if current.Success? {
      ApplyAllFaultFree(exec, checked, Pending(scripts, current.value));
    }
  }

  lemma {:induction false} ApplyAllFaultFree<S(!new)>(exec: Effect<S>, db: Db<S>, scripts: seq<Script>)
    requires db.faults == []
    ensures ApplyAll(exec, db, scripts).0.faults == []
    decreases |scripts|
  {
    if scripts != [] {
      ApplyAllFaultFree(exec, ApplyMigration(exec, db, scripts[0]).0, scripts[1..]);
    }
  }

  /** Negative and zero versions: a fresh database is refused exactly by a directory
      whose versions are all negative; any other is a success that applies just
      the scripts of positive version and passes over the rest in silence. */
  lemma {:induction false} FreshDatabase<S(!new)>(exec: Effect<S>, scripts: seq<Script>, start: Db<S>)
    requires Ascending(scripts) && start.meta == None && start.faults == []
    ensures var (after, error) := RunOnce(exec, scripts, start);
            && (error.Some? <==> scripts != [] && forall m <- scripts :: m.version < 0)
            && (error.Some? ==> Refuses(error.value, scripts, 0) && after.applied == start.applied)
            && (error.None? ==> after.applied == start.applied + Pending(scripts, 0))
    ensures forall m :: m in Pending(scripts, 0) <==> m in scripts && m.version > 0
  {
    var i := RefusedExactlyWhen(exec, scripts, start, 0);
    PendingFrom(scripts, 0, i);
    PendingAre(scripts, 0);
  }

  lemma {:induction false} PendingAre(scripts: seq<Script>, current: int)
    ensures forall m :: m in Pending(scripts, current) <==> m in scripts && m.version > current
    decreases |scripts|
  {
    if scripts != [] {
      PendingAre(scripts[1..], current);
      assert scripts == [scripts[0]] + scripts[1..];
    }
  }
}
