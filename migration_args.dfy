/**
 * The migration runner's command line and table selection: which tables a
 * request names, the order they run in, and how `--source-company=` and
 * `--tables=` are read and validated.
 */
module MigrationArgs {

  import opened Wrappers
  import opened Strings
  import opened Seqs

  /** The tables the runner can migrate, in dependency order. */
  const AvailableTables: seq<string> := [
    "organizations",
    "leads_custom_fields_definitions",
    "leads",
    "leads_custom_fields",
    "conversions",
    "segments",
    "webhooks"
  ]

  lemma AvailableTablesDistinct()
    ensures Distinct(AvailableTables)
    ensures "all" !in AvailableTables
  {
  }

  predicate Wanted(table: string, requested: seq<string>) {
    table in requested || "all" in requested
  }

  /** The tables of `xs` that a request wants, in the order of `xs`. */
  function SelectWanted(xs: seq<string>, requested: seq<string>): seq<string> {
    if |xs| == 0 then []
    else (if Wanted(xs[0], requested) then [xs[0]] else []) + SelectWanted(xs[1..], requested)
  }

  /** `SelectWanted` is `xs.filter(t => Wanted(t, requested))`. */
  lemma {:induction false} SelectWantedIsFilter(xs: seq<string>, requested: seq<string>)
    ensures SelectWanted(xs, requested) == Filter(xs, t => Wanted(t, requested))
  {
    if |xs| > 0 {
      SelectWantedIsFilter(xs[1..], requested);
    }
  }

  /**
   * `AVAILABLE_TABLES.filter(t => tables.includes(t) || tables.includes('all'))`:
   * the tables `executeMigration` visits, in this order.
   */
  function OrderedTables(requested: seq<string>): seq<string> {
    SelectWanted(AvailableTables, requested)
  }

  /**
   * The tables migrated are exactly the requested available ones (all of
   * them when "all" is requested), in dependency order and each once.
   */
  lemma OrderedTablesSpec(requested: seq<string>)
    ensures forall t :: t in OrderedTables(requested) <==>
      t in AvailableTables && (t in requested || "all" in requested)
    ensures forall i, j :: 0 <= i < j < |OrderedTables(requested)| ==>
      Position(AvailableTables, OrderedTables(requested)[i]) <
      Position(AvailableTables, OrderedTables(requested)[j])
    ensures Distinct(OrderedTables(requested))
  {
    var r := OrderedTables(requested);
    SelectWantedIsFilter(AvailableTables, requested);
    AvailableTablesDistinct();
    FilterKeepsOrder(AvailableTables, t => Wanted(t, requested));
    forall t | t in r ensures t in AvailableTables && Wanted(t, requested) {
      var i :| 0 <= i < |r| && r[i] == t;
    }
    forall t | t in AvailableTables && Wanted(t, requested) ensures t in r {
      var i :| 0 <= i < |AvailableTables| && AvailableTables[i] == t;
    }
  }

  /** Requesting "all" migrates every table. */
  lemma AllSelectsEverything(requested: seq<string>)
    requires "all" in requested
    ensures OrderedTables(requested) == AvailableTables
  {
    SelectWantedIsFilter(AvailableTables, requested);
    FilterCongruent(AvailableTables, t => Wanted(t, requested), t => true);
    KeepEverything(AvailableTables);
  }

  lemma {:induction false} KeepEverything(xs: seq<string>)
    ensures Filter(xs, t => true) == xs
  {
    if |xs| > 0 {
      KeepEverything(xs[1..]);
    }
  }

  /** Neither the order of the request nor repeated names change what runs. */
  lemma RequestOrderIrrelevant(a: seq<string>, b: seq<string>)
    requires forall t :: t in a <==> t in b
    ensures OrderedTables(a) == OrderedTables(b)
  {
    SelectWantedIsFilter(AvailableTables, a);
    SelectWantedIsFilter(AvailableTables, b);
    SameWantedSameFilter(AvailableTables, a, b);
  }

  lemma SameWantedSameFilter(xs: seq<string>, a: seq<string>, b: seq<string>)
    requires forall t :: t in a <==> t in b
    ensures Filter(xs, t => Wanted(t, a)) == Filter(xs, t => Wanted(t, b))
  {
    FilterCongruent(xs, t => Wanted(t, a), t => Wanted(t, b));
  }

  // ---------------------------------------------------------------------
  // Command line
  // ---------------------------------------------------------------------

  const SourceCompanyFlag: string := "--source-company="
  const TablesFlag: string := "--tables="
  const DryRunFlag: string := "--dry-run"

  /** `args.find(arg => arg.startsWith(prefix))`: the first argument with the prefix. */
  function FindArg(args: seq<string>, prefix: string): (r: Option<string>)
    ensures r.None? <==> forall i :: 0 <= i < |args| ==> !StartsWith(args[i], prefix)
    ensures r.Some? ==> exists i :: (0 <= i < |args| && args[i] == r.value &&
      StartsWith(args[i], prefix) && forall j :: 0 <= j < i ==> !StartsWith(args[j], prefix))
  {
    if |args| == 0 then None
    else if StartsWith(args[0], prefix) then Some(args[0])
    else
      var r := FindArg(args[1..], prefix);
      assert forall i :: 0 <= i < |args[1..]| ==> args[1..][i] == args[i + 1];
      r
  }

  /**
   * `arg.split('=')[1]` for an argument that starts with a flag whose only
   * `=` is its last character: the text after the flag up to the next `=`.
   */
  function FlagValue(arg: string, flag: string): string
    requires StartsWith(arg, flag)
  {
    BeforeFirst(arg[|flag|..], '=')
  }

  /** The value of the first argument carrying `flag`, if any. */
  function FindFlagValue(args: seq<string>, flag: string): Option<string> {
    match FindArg(args, flag)
    case None => None
    case Some(arg) => Some(FlagValue(arg, flag))
  }

  datatype MigrationOptions = MigrationOptions(sourceCompanyId: string, tables: seq<string>, dryRun: bool)

  /** Why `parseArgs` prints usage and exits with status 1. */
  datatype ArgError = MissingSourceCompany | InvalidTables(names: seq<string>)

  predicate ValidTableName(t: string) {
    t in AvailableTables || t == "all"
  }

  /** `tablesArg.split(',').map(t => t.trim())`. */
  function TableList(tablesArg: string): (r: seq<string>)
    ensures |r| == |Split(tablesArg, ',')|
    ensures forall i :: 0 <= i < |r| ==> r[i] == Trim(Split(tablesArg, ',')[i])
  {
    var parts := Split(tablesArg, ',');
    seq(|parts|, i requires 0 <= i < |parts| => Trim(parts[i]))
  }

  /** The requested tables: the `--tables=` list when non-empty, else every table. */
  function RequestedTables(args: seq<string>): seq<string> {
    match FindFlagValue(args, TablesFlag)
    case Some(v) => if v != "" then TableList(v) else AvailableTables
    case None => AvailableTables
  }

  /** `parseArgs`: the options, or the reason the process exits with status 1. */
  function ParseArgs(args: seq<string>): Result<MigrationOptions, ArgError> {
    var source := FindFlagValue(args, SourceCompanyFlag);
    if source.None? || source.value == "" then Err(MissingSourceCompany)
    else
      var tables := RequestedTables(args);
      var invalid := Filter(tables, t => !ValidTableName(t));
      if |invalid| > 0 then Err(InvalidTables(invalid))
      else Ok(MigrationOptions(source.value, tables, DryRunFlag in args))
  }

  /** A missing or empty `--source-company=` value stops the run. */
  lemma ParseArgsNeedsSource(args: seq<string>)
    ensures ParseArgs(args) == Err(MissingSourceCompany) <==>
      (FindFlagValue(args, SourceCompanyFlag).None? || FindFlagValue(args, SourceCompanyFlag) == Some(""))
  {
  }

  /**
   * A run is only built from valid options: a non-empty company id, table
   * names drawn from the available tables and "all" (every table when no
   * list is given), and dry-run mode exactly when `--dry-run` is present.
   */
  lemma ParseArgsOk(args: seq<string>)
    requires ParseArgs(args).Ok?
    ensures Some(ParseArgs(args).value.sourceCompanyId) == FindFlagValue(args, SourceCompanyFlag)
    ensures ParseArgs(args).value.sourceCompanyId != ""
    ensures ParseArgs(args).value.tables == RequestedTables(args)
    ensures forall i :: 0 <= i < |RequestedTables(args)| ==> ValidTableName(RequestedTables(args)[i])
    ensures ParseArgs(args).value.dryRun <==> DryRunFlag in args
  {
    FilterEmpty(RequestedTables(args), t => !ValidTableName(t));
  }

  /** Every invalid table name is reported, and only those, in request order. */
  lemma ParseArgsInvalid(args: seq<string>)
    requires ParseArgs(args).Err? && ParseArgs(args).error.InvalidTables?
    ensures ParseArgs(args).error.names == Filter(RequestedTables(args), t => !ValidTableName(t))
    ensures |ParseArgs(args).error.names| > 0
    ensures forall i :: 0 <= i < |RequestedTables(args)| && !ValidTableName(RequestedTables(args)[i]) ==>
      RequestedTables(args)[i] in ParseArgs(args).error.names
  {
  }

  /** Without a `--tables=` list every available table is migrated. */
  lemma NoTablesFlagMeansAll(args: seq<string>)
    requires FindFlagValue(args, TablesFlag).None? || FindFlagValue(args, TablesFlag) == Some("")
    requires ParseArgs(args).Ok?
    ensures ParseArgs(args).value.tables == AvailableTables
    ensures OrderedTables(ParseArgs(args).value.tables) == AvailableTables
  {
    SelectWantedIsFilter(AvailableTables, AvailableTables);
    SelfRequestKeepsAll(AvailableTables);
  }

  lemma SelfRequestKeepsAll(xs: seq<string>)
    ensures Filter(xs, t => Wanted(t, xs)) == xs
  {
    FilterCongruent(xs, t => Wanted(t, xs), t => true);
    KeepEverything(xs);
  }

  /**
   * What `main` does with the arguments: show the help, end the process on
   * a parse error, end it because the runner's constructor threw
   * `DATABASE_URL environment variable is required` (the variable unset or
   * empty), or run.
   */
  datatype Launch =
    | ShowHelp
    | ExitWithUsage(error: ArgError)
    | MissingTargetUrl
    | Run(options: MigrationOptions, targetUrl: string)

  /**
   * `main`: `--help` or `-h` wins over everything; otherwise the arguments
   * are parsed, then the runner is built, which needs a non-empty
   * `DATABASE_URL`, and the parsed options run.
   */
  function LaunchFor(args: seq<string>, databaseUrl: Option<string>): (r: Launch)
    ensures r.ShowHelp? <==> "--help" in args || "-h" in args
    ensures r.ExitWithUsage? ==> ParseArgs(args) == Err(r.error)
    ensures r.MissingTargetUrl? <==>
      !("--help" in args || "-h" in args) && ParseArgs(args).Ok?
      && (databaseUrl.None? || databaseUrl.value == "")
    ensures r.Run? <==>
      !("--help" in args || "-h" in args) && ParseArgs(args).Ok?
      && databaseUrl.Some? && databaseUrl.value != ""
    ensures r.Run? ==> ParseArgs(args) == Ok(r.options) && Some(r.targetUrl) == databaseUrl
  {
    if "--help" in args || "-h" in args then ShowHelp
    else
      match ParseArgs(args)
      case Err(e) => ExitWithUsage(e)
      case Ok(o) =>
        if databaseUrl.None? || databaseUrl.value == "" then MissingTargetUrl
        else Run(o, databaseUrl.value)
  }
}
