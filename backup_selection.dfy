/**
 * How the origin-database analysis picks its input: the PostgreSQL major
 * version read from a dump's file name, and the newest `.dump` file of
 * the backup directory, by the timestamp in its name or else by its
 * modification time.  The directory listing is a parameter.
 */
module BackupSelection {

  import opened Wrappers
  import opened Strings
  import opened Seqs

  const BackupDir: string := "data/db-dumps"
  const DefaultPgVersion: string := "16"

  // ---------------------------------------------------------------------
  // detectPgVersion
  // ---------------------------------------------------------------------

  /** `/pg(\d+)/` can start matching at position `i`. */
  predicate PgAt(s: string, i: nat) {
    i + 3 <= |s| && s[i] == 'p' && s[i + 1] == 'g' && IsDigit(s[i + 2])
  }

  /** The leftmost position from `from` on where `/pg(\d+)/` matches. */
  function FirstPg(s: string, from: nat): (r: Option<nat>)
    ensures r.Some? ==> (from <= r.value && PgAt(s, r.value) &&
      forall j :: from <= j < r.value ==> !PgAt(s, j))
    ensures r.None? ==> forall j :: from <= j ==> !PgAt(s, j)
    decreases |s| - from
  {
    if from + 3 > |s| then None
    else if PgAt(s, from) then Some(from)
    else FirstPg(s, from + 1)
  }

  /** `detectPgVersion`: the first group of `/pg(\d+)/`, or "16" without a match. */
  function DetectPgVersion(fileName: string): string {
    match FirstPg(fileName, 0)
    case Some(i) => DigitPrefix(fileName[i + 2..])
    case None => DefaultPgVersion
  }

  /**
   * The version is a non-empty run of digits: the whole digit run that
   * follows the leftmost `pg<digit>` of the name, or "16" when the name
   * has none.
   */
  lemma DetectPgVersionSpec(fileName: string)
    ensures var v := DetectPgVersion(fileName);
      && |v| > 0 && (forall k :: 0 <= k < |v| ==> IsDigit(v[k]))
      && ((exists i: nat :: PgAt(fileName, i)) ==> exists i: nat ::
            && PgAt(fileName, i) && (forall j: nat :: j < i ==> !PgAt(fileName, j))
            && OccursAt(fileName, "pg" + v, i)
            && (i + 2 + |v| == |fileName| || !IsDigit(fileName[i + 2 + |v|])))
      && ((forall i: nat :: !PgAt(fileName, i)) ==> v == DefaultPgVersion)
  {
    match FirstPg(fileName, 0)
    case Some(i) =>
      var v := DigitPrefix(fileName[i + 2..]);
      assert |v| > 0 by {
        assert v[0] == fileName[i + 2];
      }
      PgVersionAt(fileName, i, v);
      assert DetectPgVersion(fileName) == v;
      assert PgAt(fileName, i) && forall j: nat :: j < i ==> !PgAt(fileName, j);
    case None =>
      assert DetectPgVersion(fileName) == DefaultPgVersion;
  }

  /** The digit run after a `pg` at `i` follows the `pg` and stops at a non-digit or the end. */
  lemma PgVersionAt(fileName: string, i: nat, v: string)
    requires PgAt(fileName, i) && v == DigitPrefix(fileName[i + 2..])
    ensures OccursAt(fileName, "pg" + v, i)
    ensures i + 2 + |v| == |fileName| || !IsDigit(fileName[i + 2 + |v|])
  {
    assert fileName[i + 2..][..|v|] == v;
    assert fileName[i..i + 2 + |v|] == "pg" + v;
    if i + 2 + |v| < |fileName| {
      assert fileName[i + 2 + |v|] == fileName[i + 2..][|v|];
    }
  }

  lemma PgVersionExample()
    ensures DetectPgVersion("pg15.dump") == "15"
    ensures DetectPgVersion("x.dump") == "16"
  {
    assert "pg15.dump"[2..][..2] == "15";
    assert DigitPrefix("pg15.dump"[2..]) == "15";
  }

  // ---------------------------------------------------------------------
  // The date in a dump's name
  // ---------------------------------------------------------------------

  /** The shape of `/\d{4}-\d{2}-\d{2}T\d{2}-\d{2}-\d{2}/`: `d` stands for a digit. */
  const DateShape: string := "dddd-dd-ddTdd-dd-dd"

  predicate FitsShape(c: char, shape: char) {
    if shape == 'd' then IsDigit(c) else c == shape
  }

  /** A timestamp of the form `2025-08-25T23-00-00` starts at position `i`. */
  predicate DateAt(s: string, i: nat) {
    i + |DateShape| <= |s| && forall k :: 0 <= k < |DateShape| ==> FitsShape(s[i + k], DateShape[k])
  }

  function FirstDate(s: string, from: nat): (r: Option<nat>)
    ensures r.Some? ==> (from <= r.value && DateAt(s, r.value) &&
      forall j :: from <= j < r.value ==> !DateAt(s, j))
    ensures r.None? ==> forall j :: from <= j ==> !DateAt(s, j)
    decreases |s| - from
  {
    if from + |DateShape| > |s| then None
    else if DateAt(s, from) then Some(from)
    else FirstDate(s, from + 1)
  }

  /** `dateFromName`: the leftmost timestamp in the name, or "" when there is none. */
  function DateFromName(name: string): (r: string)
    ensures r == "" <==> forall i: nat :: !DateAt(name, i)
    ensures r != "" ==> exists i: nat :: (DateAt(name, i) && (forall j: nat :: j < i ==> !DateAt(name, j))
      && OccursAt(name, r, i))
    ensures r != "" ==> |r| == |DateShape| && forall k :: 0 <= k < |r| ==> FitsShape(r[k], DateShape[k])
  {
    match FirstDate(name, 0)
    case Some(i) => name[i..i + |DateShape|]
    case None => ""
  }

  // ---------------------------------------------------------------------
  // findLatestBackup
  // ---------------------------------------------------------------------

  /** A directory entry: its name and its modification time in milliseconds. */
  datatype DirEntry = DirEntry(name: string, mtime: int)

  /** An element of the list `findLatestBackup` sorts. */
  datatype Backup = Backup(name: string, path: string, mtime: int, dateFromName: string)

  datatype BackupError = NoBackupDirectory | NoDumpFiles

  predicate IsDump(e: DirEntry) {
    EndsWith(e.name, ".dump")
  }

  function ToBackup(e: DirEntry): (b: Backup)
    ensures b.name == e.name && b.mtime == e.mtime
  {
    Backup(e.name, BackupDir + "/" + e.name, e.mtime, DateFromName(e.name))
  }

  function ToBackups(es: seq<DirEntry>): (r: seq<Backup>)
    ensures |r| == |es| && forall i :: 0 <= i < |es| ==> r[i] == ToBackup(es[i])
  {
    seq(|es|, i requires 0 <= i < |es| => ToBackup(es[i]))
  }

  /**
   * The sort comparator: `a` goes before `b` when both carry a date and
   * `a`'s is later, or, when either has none, when `a` was modified later.
   * Dates compare by code unit; for strings of the timestamp shape this is
   * the order `localeCompare` gives them.
   */
  predicate SortsBefore(a: Backup, b: Backup) {
    if a.dateFromName != "" && b.dateFromName != "" then LexLess(b.dateFromName, a.dateFromName)
    else a.mtime > b.mtime
  }

  /**
   * A left-to-right scan keeping the current pick unless a later entry
   * sorts strictly before it.  When the comparator is a consistent order
   * (all names dated, or none) this is the head of the stable sort; with
   * dated and undated names mixed the comparator can cycle, no entry need
   * sort before all others, and the scan's pick is just this one.
   */
  function Head(best: Backup, rest: seq<Backup>): (r: Backup)
    ensures r == best || r in rest
    decreases |rest|
  {
    if |rest| == 0 then best
    else Head(if SortsBefore(rest[0], best) then rest[0] else best, rest[1..])
  }

  /** `findLatestBackup`: the path of the chosen dump, or why there is none. */
  function FindLatestBackup(listing: Option<seq<DirEntry>>): Result<string, BackupError> {
    match listing
    case None => Err(NoBackupDirectory)
    case Some(entries) =>
      var files := ToBackups(Filter(entries, IsDump));
      if |files| == 0 then Err(NoDumpFiles)
      else Ok(Head(files[0], files[1..]).path)
  }

  predicate Dated(b: Backup) {
    b.dateFromName != ""
  }

  /** "Not before" in code-unit order is transitive. */
  lemma NotBeforeTransitive(a: string, b: string, c: string)
    requires !LexLess(a, b) && !LexLess(b, c)
    ensures !LexLess(a, c)
  {
    LexLessTotal(a, b);
    if LexLess(b, a) && LexLess(a, c) {
      LexLessTransitive(b, a, c);
    }
  }

  /** Among dated entries the head carries the greatest date. */
  lemma {:induction false} HeadOfDated(best: Backup, rest: seq<Backup>)
    requires Dated(best) && forall i :: 0 <= i < |rest| ==> Dated(rest[i])
    ensures !LexLess(Head(best, rest).dateFromName, best.dateFromName)
    ensures forall i :: 0 <= i < |rest| ==> !LexLess(Head(best, rest).dateFromName, rest[i].dateFromName)
    decreases |rest|
  {
    if |rest| == 0 {
      LexLessIrreflexive(best.dateFromName);
    } else {
      var next := if SortsBefore(rest[0], best) then rest[0] else best;
      HeadOfDated(next, rest[1..]);
      var r := Head(best, rest).dateFromName;
      LexLessIrreflexive(next.dateFromName);
      LexLessTotal(best.dateFromName, next.dateFromName);
      NotBeforeTransitive(r, next.dateFromName, best.dateFromName);
      NotBeforeTransitive(r, next.dateFromName, rest[0].dateFromName);
      forall i | 1 <= i < |rest|
        ensures !LexLess(r, rest[i].dateFromName)
      {
        assert rest[i] == rest[1..][i - 1];
      }
    }
  }

  /** Without any dated entry the head was modified last. */
  lemma {:induction false} HeadOfUndated(best: Backup, rest: seq<Backup>)
    requires !Dated(best) && forall i :: 0 <= i < |rest| ==> !Dated(rest[i])
    ensures Head(best, rest).mtime >= best.mtime
    ensures forall i :: 0 <= i < |rest| ==> Head(best, rest).mtime >= rest[i].mtime
    decreases |rest|
  {
    if |rest| > 0 {
      var next := if SortsBefore(rest[0], best) then rest[0] else best;
      HeadOfUndated(next, rest[1..]);
      forall i | 1 <= i < |rest|
        ensures Head(best, rest).mtime >= rest[i].mtime
      {
        assert rest[i] == rest[1..][i - 1];
      }
    }
  }

  /** The head of a non-empty list of dated backups has the greatest date. */
  lemma LatestOfDated(files: seq<Backup>)
    requires |files| > 0 && forall i :: 0 <= i < |files| ==> Dated(files[i])
    ensures forall i :: 0 <= i < |files| ==> !LexLess(Head(files[0], files[1..]).dateFromName, files[i].dateFromName)
  {
    HeadOfDated(files[0], files[1..]);
    forall i | 1 <= i < |files|
      ensures !LexLess(Head(files[0], files[1..]).dateFromName, files[i].dateFromName)
    {
      assert files[i] == files[1..][i - 1];
    }
  }

  /** The head of a non-empty list of undated backups has the greatest mtime. */
  lemma LatestOfUndated(files: seq<Backup>)
    requires |files| > 0 && forall i :: 0 <= i < |files| ==> !Dated(files[i])
    ensures forall i :: 0 <= i < |files| ==> Head(files[0], files[1..]).mtime >= files[i].mtime
  {
    HeadOfUndated(files[0], files[1..]);
    forall i | 1 <= i < |files|
      ensures Head(files[0], files[1..]).mtime >= files[i].mtime
    {
      assert files[i] == files[1..][i - 1];
    }
  }

  /** A missing directory or a directory without dumps is an error, and only then. */
  lemma FindLatestBackupErrors(listing: Option<seq<DirEntry>>)
    ensures FindLatestBackup(listing) == Err(NoBackupDirectory) <==> listing.None?
    ensures FindLatestBackup(listing) == Err(NoDumpFiles) <==>
      listing.Some? && forall i :: 0 <= i < |listing.value| ==> !IsDump(listing.value[i])
  {
    if listing.Some? {
      var dumps := Filter(listing.value, IsDump);
      if |dumps| > 0 {
        assert dumps[0] in listing.value;
      }
    }
  }

  /** The chosen path is that of a `.dump` entry of the directory. */
  lemma FindLatestBackupIsDump(entries: seq<DirEntry>)
    requires FindLatestBackup(Some(entries)).Ok?
    ensures exists e :: e in entries && IsDump(e) && FindLatestBackup(Some(entries)).value == BackupDir + "/" + e.name
  {
    var files := ToBackups(Filter(entries, IsDump));
    var h := Head(files[0], files[1..]);
    assert h in files;
    var k :| 0 <= k < |files| && files[k] == h;
    assert Filter(entries, IsDump)[k] in entries;
  }

  /** The dump entry whose backup heads the sorted list, for a directory with dumps. */
  lemma ChosenEntry(entries: seq<DirEntry>) returns (k: nat)
    requires |Filter(entries, IsDump)| > 0
    ensures k < |Filter(entries, IsDump)|
    ensures Head(ToBackups(Filter(entries, IsDump))[0], ToBackups(Filter(entries, IsDump))[1..])
      == ToBackups(Filter(entries, IsDump))[k]
    ensures Filter(entries, IsDump)[k] in entries && IsDump(Filter(entries, IsDump)[k])
    ensures FindLatestBackup(Some(entries)) == Ok(BackupDir + "/" + Filter(entries, IsDump)[k].name)
  {
    var files := ToBackups(Filter(entries, IsDump));
    var h := Head(files[0], files[1..]);
    assert h in files;
    k :| 0 <= k < |files| && files[k] == h;
  }

  /**
   * When every dump carries a timestamp in its name, the chosen one has the
   * latest: no dump's timestamp sorts after it.
   */
  lemma AllDatedPicksLatestDate(entries: seq<DirEntry>)
    requires FindLatestBackup(Some(entries)).Ok?
    requires forall i :: 0 <= i < |entries| && IsDump(entries[i]) ==> DateFromName(entries[i].name) != ""
    ensures exists e :: (e in entries && IsDump(e) && FindLatestBackup(Some(entries)).value == BackupDir + "/" + e.name &&
      forall i :: 0 <= i < |entries| && IsDump(entries[i]) ==> !LexLess(DateFromName(e.name), DateFromName(entries[i].name)))
  {
    var dumps := Filter(entries, IsDump);
    var files := ToBackups(dumps);
    forall i | 0 <= i < |files| ensures Dated(files[i]) {
      var j := EntryOfFile(entries, i);
    }
    LatestOfDated(files);
    var k := ChosenEntry(entries);
    var latest := DateFromName(dumps[k].name);
    assert files[k].dateFromName == latest;
    forall i | 0 <= i < |entries| && IsDump(entries[i])
      ensures !LexLess(latest, DateFromName(entries[i].name))
    {
      var j := FileOfEntry(entries, i);
    }
  }

  /** Every dump among the entries has its backup in the list. */
  lemma FileOfEntry(entries: seq<DirEntry>, i: nat) returns (j: nat)
    requires i < |entries| && IsDump(entries[i])
    ensures j < |ToBackups(Filter(entries, IsDump))| && ToBackups(Filter(entries, IsDump))[j] == ToBackup(entries[i])
  {
    var dumps := Filter(entries, IsDump);
    assert entries[i] in dumps;
    j :| 0 <= j < |dumps| && dumps[j] == entries[i];
  }

  /** Every backup in the list comes from a dump among the entries. */
  lemma EntryOfFile(entries: seq<DirEntry>, j: nat) returns (i: nat)
    requires j < |Filter(entries, IsDump)|
    ensures i < |entries| && IsDump(entries[i]) && ToBackups(Filter(entries, IsDump))[j] == ToBackup(entries[i])
  {
    var dumps := Filter(entries, IsDump);
    assert dumps[j] in entries;
    i :| 0 <= i < |entries| && entries[i] == dumps[j];
  }

  /** When no dump carries a timestamp, the chosen one was modified last. */
  lemma NoneDatedPicksNewestMtime(entries: seq<DirEntry>)
    requires FindLatestBackup(Some(entries)).Ok?
    requires forall i :: 0 <= i < |entries| && IsDump(entries[i]) ==> DateFromName(entries[i].name) == ""
    ensures exists e :: (e in entries && IsDump(e) && FindLatestBackup(Some(entries)).value == BackupDir + "/" + e.name &&
      forall i :: 0 <= i < |entries| && IsDump(entries[i]) ==> e.mtime >= entries[i].mtime)
  {
    var dumps := Filter(entries, IsDump);
    var files := ToBackups(dumps);
    forall i | 0 <= i < |files| ensures !Dated(files[i]) {
      var j := EntryOfFile(entries, i);
    }
    LatestOfUndated(files);
    var k := ChosenEntry(entries);
    forall i | 0 <= i < |entries| && IsDump(entries[i])
      ensures dumps[k].mtime >= entries[i].mtime
    {
      var j := FileOfEntry(entries, i);
    }
  }
}
