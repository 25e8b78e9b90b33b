/**
 * The selective migration runner's life cycle: look the source company
 * up, give the new organisation a fresh id, build the transformation
 * views, check the source data, stop here on a dry run, migrate the
 * requested tables in dependency order, check the target, and drop the
 * views on every way out.  The databases and the id generator are an
 * `Environment` value saying what each of them answers; the runner
 * records what it asks of them as a list of `Action`s.
 */
module MigrationRunner {

  import opened Wrappers
  import opened Seqs
  import opened SqlLiterals
  import opened MigrationArgs

  // ---------------------------------------------------------------------
  // Validation of the source and of the target
  // ---------------------------------------------------------------------

  /** A row of `migration_validation` or of the target integrity query. */
  datatype ValidationRow = ValidationRow(issue: string, count: nat)

  const SourceCompanyExists: string := "source_company_exists"

  predicate IsPositive(r: ValidationRow) {
    r.issue == SourceCompanyExists && r.count > 0
  }

  predicate IsDataIssue(r: ValidationRow) {
    r.issue != SourceCompanyExists && r.count > 0
  }

  predicate IsCritical(r: ValidationRow) {
    r.issue == SourceCompanyExists && r.count == 0
  }

  predicate HasRecords(r: ValidationRow) {
    r.count > 0
  }

  /** The three filters of `validateSourceData`. */
  datatype SourceReport = SourceReport(positives: seq<ValidationRow>, issues: seq<ValidationRow>, critical: seq<ValidationRow>)

  /** Why a run stops with an error. */
  datatype RunError =
    | CompanyNotFound(companyId: string)
    | ViewSetupFailed
    | CriticalSourceIssues
    | TableFailed(table: string)
    | MissingOrgId
    | IntegrityFailed(issues: seq<ValidationRow>)

  /**
   * `validateSourceData`: data-quality issues are only reported; a
   * `source_company_exists` row with count 0 stops the run.
   */
  function ValidateSourceData(rows: seq<ValidationRow>): (r: Result<SourceReport, RunError>)
    ensures r.Err? <==> exists i :: 0 <= i < |rows| && IsCritical(rows[i])
    ensures r.Err? ==> r.error == CriticalSourceIssues
    ensures r.Ok? ==> r.value.issues == Filter(rows, IsDataIssue) && r.value.positives == Filter(rows, IsPositive)
  {
    var report := SourceReport(Filter(rows, IsPositive), Filter(rows, IsDataIssue), Filter(rows, IsCritical));
    if |report.critical| > 0 then
      assert report.critical[0] in rows;
      Err(CriticalSourceIssues)
    else Ok(report)
  }

  /**
   * `validateTargetData`: no organisation id is an error, and so is any
   * integrity row counting orphaned records.
   */
  function ValidateTargetData(orgId: Option<string>, integrity: seq<ValidationRow>): (r: Result<(), RunError>)
    ensures orgId.None? || orgId == Some("") ==> r == Err(MissingOrgId)
    ensures orgId.Some? && orgId.value != "" ==>
      (r.Ok? <==> forall i :: 0 <= i < |integrity| ==> integrity[i].count == 0)
    ensures r.Err? && r.error.IntegrityFailed? ==>
      r.error.issues == Filter(integrity, HasRecords) && |r.error.issues| > 0
  {
    if orgId.None? || orgId.value == "" then Err(MissingOrgId)
    else
      var issues := Filter(integrity, HasRecords);
      if |issues| > 0 then
        assert issues[0] in integrity;
        Err(IntegrityFailed(issues))
      else Ok(())
  }

  // ---------------------------------------------------------------------
  // The run
  // ---------------------------------------------------------------------

  datatype Company = Company(name: string, active: bool)

  /** What the databases, the SQL files and the id generator answer during one run. */
  datatype Environment = Environment(
    companies: seq<Company>,
    newOrgId: string,
    transformationSql: string,
    customFieldsSql: string,
    transformationRejected: bool,
    customFieldsRejected: bool,
    sourceValidation: seq<ValidationRow>,
    failingTable: Option<string>,
    integrity: seq<ValidationRow>)

  /** What the runner asks of the databases, in order. */
  datatype Action =
    | LookUpCompany(companyId: string)
    | RunCleanupScript
    | CreateViews(sql: string)
    | ReadSourceValidation
    | ReadStats
    | MigrateTable(table: string)
    | ReadTargetValidation(orgId: string)

  datatype Outcome = DryRunStopped | Migrated(orgId: string)

  datatype Trace = Trace(actions: seq<Action>, result: Result<Outcome, RunError>)

  /** A stage's trace after the actions that came before it. */
  function After(before: seq<Action>, t: Trace): Trace {
    Trace(before + t.actions, t.result)
  }

  /** The tables `executeMigration` visits, stopping at the first that fails. */
  datatype Migrations = Migrations(actions: seq<Action>, failed: Option<string>)

  function TableMigrations(tables: seq<string>, failing: Option<string>): Migrations {
    if |tables| == 0 then Migrations([], None)
    else if Some(tables[0]) == failing then Migrations([MigrateTable(tables[0])], Some(tables[0]))
    else
      var rest := TableMigrations(tables[1..], failing);
      Migrations([MigrateTable(tables[0])] + rest.actions, rest.failed)
  }

  /** Table migrations after the ones already done. */
  function AfterTables(done: seq<Action>, m: Migrations): Migrations {
    Migrations(done + m.actions, m.failed)
  }

  /** One step of `TableMigrations` from position `i`. */
  lemma TableMigrationsStep(tables: seq<string>, i: nat, failing: Option<string>)
    requires i < |tables|
    ensures TableMigrations(tables[i..], failing) ==
      if Some(tables[i]) == failing then Migrations([MigrateTable(tables[i])], Some(tables[i]))
      else AfterTables([MigrateTable(tables[i])], TableMigrations(tables[i + 1..], failing))
  {
    assert tables[i..][1..] == tables[i + 1..];
  }

  /** The loop invariant of `executeMigration` carried past table `i`. */
  lemma TableMigrationsAdvance(tables: seq<string>, i: nat, failing: Option<string>, done: seq<Action>)
    requires i < |tables|
    requires TableMigrations(tables, failing) == AfterTables(done, TableMigrations(tables[i..], failing))
    ensures Some(tables[i]) == failing ==>
      TableMigrations(tables, failing) == Migrations(done + [MigrateTable(tables[i])], Some(tables[i]))
    ensures Some(tables[i]) != failing ==>
      TableMigrations(tables, failing)
        == AfterTables(done + [MigrateTable(tables[i])], TableMigrations(tables[i + 1..], failing))
  {
    TableMigrationsStep(tables, i, failing);
    var rest := TableMigrations(tables[i + 1..], failing);
    assert done + ([MigrateTable(tables[i])] + rest.actions) == (done + [MigrateTable(tables[i])]) + rest.actions;
  }

  /**
   * The body of the `try` block of `runMigration`: the company must exist.
   * `ordered` is the list `executeMigration` derives from the options.
   */
  function RunBody(o: MigrationOptions, ordered: seq<string>, env: Environment): Trace {
    if |env.companies| == 0 then Trace([LookUpCompany(o.sourceCompanyId)], Err(CompanyNotFound(o.sourceCompanyId)))
    else After([LookUpCompany(o.sourceCompanyId)], SetupStage(o, ordered, env))
  }

  /** `setupTransformationViews` with the new organisation id, then the rest of the run. */
  function SetupStage(o: MigrationOptions, ordered: seq<string>, env: Environment): Trace {
    var first := [RunCleanupScript, CreateViews(Parameterize(env.transformationSql, o.sourceCompanyId, env.newOrgId))];
    if env.transformationRejected then Trace(first, Err(ViewSetupFailed))
    else
      var both := first + [CreateViews(Parameterize(env.customFieldsSql, o.sourceCompanyId, env.newOrgId))];
      if env.customFieldsRejected then Trace(both, Err(ViewSetupFailed))
      else After(both, ValidationStage(o, ordered, env))
  }

  /** `validateSourceData`, the statistics, and the dry-run stop. */
  function ValidationStage(o: MigrationOptions, ordered: seq<string>, env: Environment): Trace {
    match ValidateSourceData(env.sourceValidation)
    case Err(e) => Trace([ReadSourceValidation], Err(e))
    case Ok(_) =>
      if o.dryRun then Trace([ReadSourceValidation, ReadStats], Ok(DryRunStopped))
      else After([ReadSourceValidation, ReadStats], MigrationStage(ordered, env))
  }

  /** `executeMigration`, then `validateTargetData` when every table went through. */
  function MigrationStage(ordered: seq<string>, env: Environment): Trace {
    var m := TableMigrations(ordered, env.failingTable);
    if m.failed.Some? then Trace(m.actions, Err(TableFailed(m.failed.value)))
    else After(m.actions, TargetStage(Some(env.newOrgId), env.integrity))
  }

  /** `validateTargetData`: the id is checked before the target is queried. */
  function TargetStage(orgId: Option<string>, integrity: seq<ValidationRow>): Trace {
    if orgId.None? || orgId.value == "" then Trace([], Err(MissingOrgId))
    else
      match ValidateTargetData(orgId, integrity)
      case Err(e) => Trace([ReadTargetValidation(orgId.value)], Err(e))
      case Ok(_) => Trace([ReadTargetValidation(orgId.value)], Ok(Migrated(orgId.value)))
  }

  /** `runMigration`: the body, then the `finally` clause's cleanup on every path. */
  function RunTrace(o: MigrationOptions, ordered: seq<string>, env: Environment): Trace {
    var body := RunBody(o, ordered, env);
    Trace(body.actions + [RunCleanupScript], body.result)
  }

  /** `runMigration` on the tables the options select. */
  function RunMigrationSpec(o: MigrationOptions, env: Environment): Trace {
    RunTrace(o, OrderedTables(o.tables), env)
  }

  /** Whether a run gets as far as `executeMigration`. */
  predicate ReachesMigration(o: MigrationOptions, env: Environment) {
    && |env.companies| > 0
    && !env.transformationRejected && !env.customFieldsRejected
    && ValidateSourceData(env.sourceValidation).Ok?
    && !o.dryRun
  }

  /** The tables a list of actions migrates, in order. */
  function MigratedTables(actions: seq<Action>): seq<string> {
    if |actions| == 0 then []
    else (if actions[0].MigrateTable? then [actions[0].table] else []) + MigratedTables(actions[1..])
  }

  lemma {:induction false} MigratedTablesAppend(a: seq<Action>, b: seq<Action>)
    ensures MigratedTables(a + b) == MigratedTables(a) + MigratedTables(b)
  {
    if |a| == 0 {
      assert a + b == b;
    } else {
      assert (a + b)[1..] == a[1..] + b;
      MigratedTablesAppend(a[1..], b);
    }
  }

  /** Action forms that migrate nothing. */
  predicate NotMigration(a: Action) {
    !a.MigrateTable?
  }

  lemma {:induction false} NoTablesWithoutMigrations(actions: seq<Action>)
    requires forall i :: 0 <= i < |actions| ==> NotMigration(actions[i])
    ensures MigratedTables(actions) == []
  {
    if |actions| > 0 {
      NoTablesWithoutMigrations(actions[1..]);
    }
  }

  lemma AfterSetupActions(before: seq<Action>, t: Trace)
    requires forall i :: 0 <= i < |before| ==> NotMigration(before[i])
    ensures MigratedTables(After(before, t).actions) == MigratedTables(t.actions)
  {
    NoTablesWithoutMigrations(before);
    MigratedTablesAppend(before, t.actions);
  }

  /**
   * The tables a run migrates: the tables `executeMigration` reached when
   * the run gets that far, and none otherwise.
   */
  lemma RunTables(o: MigrationOptions, ordered: seq<string>, env: Environment)
    ensures MigratedTables(RunTrace(o, ordered, env).actions) ==
      if ReachesMigration(o, env)
      then MigratedTables(TableMigrations(ordered, env.failingTable).actions)
      else []
  {
    var body := RunBody(o, ordered, env);
    MigratedTablesAppend(body.actions, [RunCleanupScript]);
    NoTablesWithoutMigrations([RunCleanupScript]);
    if |env.companies| == 0 {
      NoTablesWithoutMigrations(body.actions);
    } else {
      AfterSetupActions([LookUpCompany(o.sourceCompanyId)], SetupStage(o, ordered, env));
      SetupTables(o, ordered, env);
    }
  }

  lemma SetupTables(o: MigrationOptions, ordered: seq<string>, env: Environment)
    ensures MigratedTables(SetupStage(o, ordered, env).actions) ==
      if !env.transformationRejected && !env.customFieldsRejected
        && ValidateSourceData(env.sourceValidation).Ok? && !o.dryRun
      then MigratedTables(TableMigrations(ordered, env.failingTable).actions)
      else []
  {
    var first := [RunCleanupScript, CreateViews(Parameterize(env.transformationSql, o.sourceCompanyId, env.newOrgId))];
    var both := first + [CreateViews(Parameterize(env.customFieldsSql, o.sourceCompanyId, env.newOrgId))];
    if env.transformationRejected {
      assert SetupStage(o, ordered, env).actions == first;
      NoTablesWithoutMigrations(first);
    } else if env.customFieldsRejected {
      assert SetupStage(o, ordered, env).actions == both;
      NoTablesWithoutMigrations(both);
    } else {
      assert SetupStage(o, ordered, env) == After(both, ValidationStage(o, ordered, env));
      AfterSetupActions(both, ValidationStage(o, ordered, env));
      ValidationTables(o, ordered, env);
    }
  }

  lemma ValidationTables(o: MigrationOptions, ordered: seq<string>, env: Environment)
    ensures MigratedTables(ValidationStage(o, ordered, env).actions) ==
      if ValidateSourceData(env.sourceValidation).Ok? && !o.dryRun
      then MigratedTables(TableMigrations(ordered, env.failingTable).actions)
      else []
  {
    if ValidateSourceData(env.sourceValidation).Err? {
      NoTablesWithoutMigrations([ReadSourceValidation]);
    } else if o.dryRun {
      NoTablesWithoutMigrations([ReadSourceValidation, ReadStats]);
    } else {
      AfterSetupActions([ReadSourceValidation, ReadStats], MigrationStage(ordered, env));
      MigrationTables(ordered, env);
    }
  }

  lemma MigrationTables(ordered: seq<string>, env: Environment)
    ensures MigratedTables(MigrationStage(ordered, env).actions) ==
      MigratedTables(TableMigrations(ordered, env.failingTable).actions)
  {
    var m := TableMigrations(ordered, env.failingTable);
    if m.failed.None? {
      var t := TargetStage(Some(env.newOrgId), env.integrity);
      NoTablesWithoutMigrations(t.actions);
      MigratedTablesAppend(m.actions, t.actions);
    }
  }

  /** The result of a run that reaches `executeMigration`. */
  lemma MigrationResult(o: MigrationOptions, ordered: seq<string>, env: Environment)
    requires ReachesMigration(o, env)
    ensures RunTrace(o, ordered, env).result == MigrationStage(ordered, env).result
  {
  }

  /** With no failing table among them, every table is migrated, in order. */
  lemma {:induction false} TableMigrationsComplete(tables: seq<string>, failing: Option<string>)
    requires failing.None? || failing.value !in tables
    ensures TableMigrations(tables, failing).failed.None?
    ensures MigratedTables(TableMigrations(tables, failing).actions) == tables
  {
    if |tables| > 0 {
      TableMigrationsComplete(tables[1..], failing);
      var rest := TableMigrations(tables[1..], failing).actions;
      MigratedTablesAppend([MigrateTable(tables[0])], rest);
    }
  }

  /** A failing table is the last one attempted: the tables up to and including it were attempted, in order. */
  lemma {:induction false} TableMigrationsStop(tables: seq<string>, failing: Option<string>)
    requires TableMigrations(tables, failing).failed.Some?
    ensures var t := TableMigrations(tables, failing).failed.value;
      && Some(t) == failing && t in tables
      && MigratedTables(TableMigrations(tables, failing).actions) == tables[..Position(tables, t) + 1]
  {
    if Some(tables[0]) != failing {
      TableMigrationsStop(tables[1..], failing);
      var rest := TableMigrations(tables[1..], failing).actions;
      MigratedTablesAppend([MigrateTable(tables[0])], rest);
    }
  }

  lemma {:induction false} TableMigrationsFailsOnMember(tables: seq<string>, t: string)
    requires t in tables
    ensures TableMigrations(tables, Some(t)).failed == Some(t)
  {
    if tables[0] != t {
      TableMigrationsFailsOnMember(tables[1..], t);
    }
  }

  /** Cleanup is the last thing every run does, whatever happened before. */
  lemma CleanupRunsLast(o: MigrationOptions, env: Environment)
    ensures |RunMigrationSpec(o, env).actions| > 0
    ensures RunMigrationSpec(o, env).actions[|RunMigrationSpec(o, env).actions| - 1] == RunCleanupScript
  {
  }

  /** A dry run migrates nothing and stops, when it gets that far, with `DryRunStopped`. */
  lemma DryRunNeverMigrates(o: MigrationOptions, env: Environment)
    requires o.dryRun
    ensures MigratedTables(RunMigrationSpec(o, env).actions) == []
    ensures RunMigrationSpec(o, env).result.Ok? ==> RunMigrationSpec(o, env).result.value == DryRunStopped
  {
    RunTables(o, OrderedTables(o.tables), env);
  }

  /** A `source_company_exists` row with count 0 stops the run before any write. */
  lemma CriticalRowAborts(o: MigrationOptions, env: Environment)
    requires |env.companies| > 0 && !env.transformationRejected && !env.customFieldsRejected
    requires exists i :: 0 <= i < |env.sourceValidation| && IsCritical(env.sourceValidation[i])
    ensures RunMigrationSpec(o, env).result == Err(CriticalSourceIssues)
    ensures MigratedTables(RunMigrationSpec(o, env).actions) == []
  {
    RunTables(o, OrderedTables(o.tables), env);
  }

  /** An orphaned lead or conversion in the target fails a run that migrated everything. */
  lemma OrphanAborts(o: MigrationOptions, env: Environment)
    requires ReachesMigration(o, env) && env.newOrgId != ""
    requires env.failingTable.None?
    requires exists i :: 0 <= i < |env.integrity| && env.integrity[i].count > 0
    ensures RunMigrationSpec(o, env).result == Err(IntegrityFailed(Filter(env.integrity, HasRecords)))
    ensures MigratedTables(RunMigrationSpec(o, env).actions) == OrderedTables(o.tables)
  {
    OrphanAbortsOn(o, OrderedTables(o.tables), env);
  }

  lemma OrphanAbortsOn(o: MigrationOptions, ordered: seq<string>, env: Environment)
    requires ReachesMigration(o, env) && env.newOrgId != ""
    requires env.failingTable.None?
    requires exists i :: 0 <= i < |env.integrity| && env.integrity[i].count > 0
    ensures RunTrace(o, ordered, env).result == Err(IntegrityFailed(Filter(env.integrity, HasRecords)))
    ensures MigratedTables(RunTrace(o, ordered, env).actions) == ordered
  {
    TableMigrationsComplete(ordered, env.failingTable);
    RunTables(o, ordered, env);
    MigrationResult(o, ordered, env);
  }

  /**
   * A run that reports success migrated exactly the requested tables, in
   * dependency order, under the freshly generated organisation id, and
   * found neither critical source rows nor orphans.
   */
  lemma SuccessfulRunMigratesRequestedTables(o: MigrationOptions, env: Environment)
    requires RunMigrationSpec(o, env).result.Ok? && !o.dryRun
    ensures RunMigrationSpec(o, env).result.value == Migrated(env.newOrgId)
    ensures MigratedTables(RunMigrationSpec(o, env).actions) == OrderedTables(o.tables)
    ensures forall i :: 0 <= i < |env.sourceValidation| ==> !IsCritical(env.sourceValidation[i])
    ensures forall i :: 0 <= i < |env.integrity| ==> env.integrity[i].count == 0
  {
    SuccessfulRunOn(o, OrderedTables(o.tables), env);
  }

  lemma SuccessfulRunOn(o: MigrationOptions, ordered: seq<string>, env: Environment)
    requires RunTrace(o, ordered, env).result.Ok? && !o.dryRun
    ensures RunTrace(o, ordered, env).result.value == Migrated(env.newOrgId)
    ensures MigratedTables(RunTrace(o, ordered, env).actions) == ordered
    ensures forall i :: 0 <= i < |env.sourceValidation| ==> !IsCritical(env.sourceValidation[i])
    ensures forall i :: 0 <= i < |env.integrity| ==> env.integrity[i].count == 0
  {
    assert ReachesMigration(o, env);
    MigrationResult(o, ordered, env);
    if env.failingTable.Some? && env.failingTable.value in ordered {
      TableMigrationsFailsOnMember(ordered, env.failingTable.value);
    }
    TableMigrationsComplete(ordered, env.failingTable);
    RunTables(o, ordered, env);
  }

  /**
   * The runner object: the organisation id it generated and the actions it
   * has asked of the databases so far.
   */
  class SelectiveMigrationRunner {
    var currentOrgId: Option<string>
    var actions: seq<Action>

    /** The `DATABASE_URL` check that makes the constructor throw is the missing-target outcome of `MigrationArgs.LaunchFor`. */
    constructor()
      ensures currentOrgId == None && actions == []
    {
      currentOrgId := None;
      actions := [];
    }

    /** `runMigration`: the `try` body, then cleanup whatever it returned. */
    method RunMigration(o: MigrationOptions, env: Environment) returns (result: Result<Outcome, RunError>)
      modifies this
      ensures actions == old(actions) + RunMigrationSpec(o, env).actions
      ensures result == RunMigrationSpec(o, env).result
      ensures currentOrgId == if |env.companies| > 0 then Some(env.newOrgId) else old(currentOrgId)
    {
      var ordered := OrderedTables(o.tables);
      ghost var start := actions;
      result := RunSteps(o, ordered, env);
      ghost var body := RunBody(o, ordered, env);
      Cleanup();
      assert actions == start + (body.actions + [RunCleanupScript]);
    }

    method RunSteps(o: MigrationOptions, ordered: seq<string>, env: Environment) returns (result: Result<Outcome, RunError>)
      modifies this
      ensures actions == old(actions) + RunBody(o, ordered, env).actions
      ensures result == RunBody(o, ordered, env).result
      ensures currentOrgId == if |env.companies| > 0 then Some(env.newOrgId) else old(currentOrgId)
    {
      actions := actions + [LookUpCompany(o.sourceCompanyId)];
      if |env.companies| == 0 {
        return Err(CompanyNotFound(o.sourceCompanyId));
      }
      currentOrgId := Some(env.newOrgId);
      result := SetupAndValidate(o, ordered, env);
    }

    /** `setupTransformationViews` and `validateSourceData`, then the migration proper. */
    method SetupAndValidate(o: MigrationOptions, ordered: seq<string>, env: Environment) returns (result: Result<Outcome, RunError>)
      requires currentOrgId == Some(env.newOrgId)
      modifies this
      ensures actions == old(actions) + SetupStage(o, ordered, env).actions
      ensures result == SetupStage(o, ordered, env).result
      ensures currentOrgId == old(currentOrgId)
    {
      var orgId := env.newOrgId;
      var first := [RunCleanupScript, CreateViews(Parameterize(env.transformationSql, o.sourceCompanyId, orgId))];
      if env.transformationRejected {
        actions := actions + first;
        return Err(ViewSetupFailed);
      }
      var both := first + [CreateViews(Parameterize(env.customFieldsSql, o.sourceCompanyId, orgId))];
      actions := actions + both;
      if env.customFieldsRejected {
        return Err(ViewSetupFailed);
      }
      var validation := ValidateSourceData(env.sourceValidation);
      if validation.Err? {
        actions := actions + [ReadSourceValidation];
        return Err(validation.error);
      }
      actions := actions + [ReadSourceValidation, ReadStats];
      if o.dryRun {
        return Ok(DryRunStopped);
      }
      ghost var before := actions;
      result := MigrateAndCheck(ordered, env);
      assert actions == before + MigrationStage(ordered, env).actions;
    }

    /** `executeMigration`, then `validateTargetData` when no table failed. */
    method MigrateAndCheck(ordered: seq<string>, env: Environment) returns (result: Result<Outcome, RunError>)
      requires currentOrgId == Some(env.newOrgId)
      modifies this
      ensures actions == old(actions) + MigrationStage(ordered, env).actions
      ensures result == MigrationStage(ordered, env).result
      ensures currentOrgId == old(currentOrgId)
    {
      var failed := ExecuteMigration(ordered, env.failingTable);
      if failed.Some? {
        return Err(TableFailed(failed.value));
      }
      result := ValidateTarget(env.integrity);
    }

    /** `validateTargetData` against the stored organisation id. */
    method ValidateTarget(integrity: seq<ValidationRow>) returns (result: Result<Outcome, RunError>)
      modifies this
      ensures actions == old(actions) + TargetStage(currentOrgId, integrity).actions
      ensures result == TargetStage(currentOrgId, integrity).result
      ensures currentOrgId == old(currentOrgId)
    {
      if currentOrgId.None? || currentOrgId.value == "" {
        return Err(MissingOrgId);
      }
      actions := actions + [ReadTargetValidation(currentOrgId.value)];
      var target := ValidateTargetData(currentOrgId, integrity);
      if target.Err? {
        return Err(target.error);
      }
      result := Ok(Migrated(currentOrgId.value));
    }

    /**
     * The loop of `executeMigration` over the selected tables, in order,
     * stopping at the first whose migration throws.
     */
    method ExecuteMigration(ordered: seq<string>, failing: Option<string>) returns (failed: Option<string>)
      modifies this
      ensures actions == old(actions) + TableMigrations(ordered, failing).actions
      ensures failed == TableMigrations(ordered, failing).failed
      ensures currentOrgId == old(currentOrgId)
    {
      var done: seq<Action> := [];
      var i := 0;
      while i < |ordered|
        invariant 0 <= i <= |ordered|
        invariant actions == old(actions) + done
        invariant currentOrgId == old(currentOrgId)
        invariant TableMigrations(ordered, failing) == AfterTables(done, TableMigrations(ordered[i..], failing))
      {
        var table := ordered[i];
        TableMigrationsAdvance(ordered, i, failing, done);
        assert old(actions) + (done + [MigrateTable(table)]) == actions + [MigrateTable(table)];
        done := done + [MigrateTable(table)];
        actions := actions + [MigrateTable(table)];
        if Some(table) == failing {
          return Some(table);
        }
        i := i + 1;
      }
      assert ordered[i..] == [];
      failed := None;
    }

    /** `cleanup`: drops the views; its own errors are only logged. */
    method Cleanup()
      modifies this
      ensures actions == old(actions) + [RunCleanupScript]
      ensures currentOrgId == old(currentOrgId)
    {
      actions := actions + [RunCleanupScript];
    }
  }
}
