/**
 * How the migration runner walks a transformed view in pieces: the
 * conversion insert slices the rows into batches of 200, and the custom
 * field migration pages through the view with LIMIT/OFFSET in pages of
 * 1000, committing page by page.
 */
module MigrationBatches {

  import opened Wrappers
  import opened Seqs

  const ConversionBatchSize: nat := 200
  const CustomFieldsBatchSize: nat := 1000

  /** `rows.slice(from, from + size)`: clamped at the end of the rows. */
  function Slice<T>(rows: seq<T>, from: nat, size: nat): (r: seq<T>)
    ensures from >= |rows| ==> r == []
    ensures from < |rows| && size > 0 ==> 0 < |r| <= size
  {
    if from >= |rows| then []
    else if from + size <= |rows| then rows[from..from + size]
    else rows[from..]
  }

  /** The consecutive slices of `size` rows, the last one possibly shorter. */
  function Batches<T>(rows: seq<T>, size: nat): seq<seq<T>>
    requires size > 0
    decreases |rows|
  {
    if |rows| == 0 then []
    else if |rows| <= size then [rows]
    else [rows[..size]] + Batches(rows[size..], size)
  }

  /**
   * The batches cover the rows exactly and in order, every batch holds
   * between 1 and `size` rows, and there are ⌈n/size⌉ of them: enough to
   * hold every row, and one fewer would not be.
   */
  lemma {:induction false} BatchesSpec<T>(rows: seq<T>, size: nat)
    requires size > 0
    ensures Flatten(Batches(rows, size)) == rows
    ensures forall k :: 0 <= k < |Batches(rows, size)| ==> 0 < |Batches(rows, size)[k]| <= size
    ensures (|Batches(rows, size)| - 1) * size < |rows| <= |Batches(rows, size)| * size
    decreases |rows|
  {
    var bs := Batches(rows, size);
    if |rows| == 0 {
    } else if |rows| <= size {
      assert Flatten(bs) == rows + Flatten(bs[1..]);
    } else {
      var rest := Batches(rows[size..], size);
      BatchesSpec(rows[size..], size);
      assert bs[1..] == rest;
      assert rows == rows[..size] + rows[size..];
      assert |bs| * size == |rest| * size + size;
      assert (|bs| - 1) * size == (|rest| - 1) * size + size;
    }
  }

  /** With the conversion batch size: `Math.ceil(n / 200)` batches. */
  lemma {:induction false} ConversionBatchCount<T>(rows: seq<T>)
    ensures |Batches(rows, ConversionBatchSize)| == (|rows| + 199) / 200
    decreases |rows|
  {
    if |rows| > ConversionBatchSize {
      ConversionBatchCount(rows[ConversionBatchSize..]);
    }
  }

  function Min(a: int, b: int): int {
    if a <= b then a else b
  }

  /**
   * The conversion loop of `migrateTable`: `for (i = 0; i < n; i += size)`
   * takes `rows.slice(i, i + size)` as the next batch.
   */
  method SplitIntoBatches<T>(rows: seq<T>, size: nat) returns (batches: seq<seq<T>>)
    requires size > 0
    ensures batches == Batches(rows, size)
  {
    batches := [];
    var i := 0;
    while i < |rows|
      invariant batches + Batches(rows[Min(i, |rows|)..], size) == Batches(rows, size)
      decreases |rows| - i
    {
      var batch := Slice(rows, i, size);
      var rest := rows[i..];
      if i + size < |rows| {
        assert batch == rest[..size];
        assert rest[size..] == rows[i + size..];
        assert Batches(rest, size) == [batch] + Batches(rows[i + size..], size);
      } else {
        assert batch == rest;
        assert rows[|rows|..] == [];
        assert Batches(rest, size) == [batch];
      }
      batches := batches + [batch];
      i := i + size;
    }
  }

  /** Why a custom-field page was rolled back: the offset it started at. */
  datatype PageFailure = PageFailure(offset: nat)

  /** What a run of pages commits and how it ends. */
  datatype PageRunResult<T> = PageRunResult(committed: seq<seq<T>>, outcome: Result<nat, PageFailure>)

  /** Adds the rows committed before to a run's reported total. */
  function AddTotal(outcome: Result<nat, PageFailure>, before: nat): Result<nat, PageFailure> {
    match outcome
    case Ok(total) => Ok(total + before)
    case Err(e) => Err(e)
  }

  /**
   * What `migrateCustomFields` commits, page by page from `offset`: each
   * page is `LIMIT size OFFSET offset` over the view; an empty page ends the
   * loop; a failing insert rolls its page back and stops with the offset.
   */
  function PageRun<T>(view: seq<T>, size: nat, offset: nat, fails: nat -> bool): PageRunResult<T>
    requires size > 0
    decreases |view| - offset
  {
    var page := Slice(view, offset, size);
    if |page| == 0 then PageRunResult([], Ok(0))
    else if fails(offset) then PageRunResult([], Err(PageFailure(offset)))
    else
      var rest := PageRun(view, size, offset + size, fails);
      PageRunResult([page] + rest.committed, AddTotal(rest.outcome, |page|))
  }

  /** A run preceded by the pages already committed and the rows already counted. */
  function Resumed<T>(committed: seq<seq<T>>, total: nat, run: PageRunResult<T>): PageRunResult<T> {
    PageRunResult(committed + run.committed, AddTotal(run.outcome, total))
  }

  /** A page that holds rows and does not fail moves from the run to the committed pages. */
  lemma ResumeStep<T>(view: seq<T>, size: nat, offset: nat, fails: nat -> bool, committed: seq<seq<T>>, total: nat)
    requires size > 0 && |Slice(view, offset, size)| > 0 && !fails(offset)
    ensures Resumed(committed, total, PageRun(view, size, offset, fails))
      == Resumed(committed + [Slice(view, offset, size)], total + |Slice(view, offset, size)|,
                 PageRun(view, size, offset + size, fails))
  {
    var page := Slice(view, offset, size);
    var rest := PageRun(view, size, offset + size, fails);
    assert PageRun(view, size, offset, fails) == PageRunResult([page] + rest.committed, AddTotal(rest.outcome, |page|));
    assert committed + ([page] + rest.committed) == (committed + [page]) + rest.committed;
  }

  /**
   * `migrateCustomFields`: the pages the target commits and the count it
   * reports; `fails(o)` says whether the insert of the page at offset `o`
   * throws.
   */
  method MigrateCustomFields<T>(view: seq<T>, fails: nat -> bool) returns (committed: seq<seq<T>>, outcome: Result<nat, PageFailure>)
    ensures PageRunResult(committed, outcome) == PageRun(view, CustomFieldsBatchSize, 0, fails)
  {
    var size := CustomFieldsBatchSize;
    var offset: nat := 0;
    var totalMigrated: nat := 0;
    committed := [];
    assert Resumed(committed, totalMigrated, PageRun(view, size, offset, fails)) == PageRun(view, size, 0, fails) by {
      var run := PageRun(view, size, 0, fails);
      assert [] + run.committed == run.committed;
      assert AddTotal(run.outcome, 0) == run.outcome;
    }
    while true
      invariant Resumed(committed, totalMigrated, PageRun(view, size, offset, fails)) == PageRun(view, size, 0, fails)
      decreases if offset <= |view| then |view| - offset + 1 else 0
    {
      var batch := Slice(view, offset, size);
      if |batch| == 0 {
        assert PageRun(view, size, offset, fails) == PageRunResult([], Ok(0));
        assert committed + [] == committed;
        break;
      }
      if fails(offset) {
        assert PageRun(view, size, offset, fails) == PageRunResult([], Err(PageFailure(offset)));
        assert committed + [] == committed;
        return committed, Err(PageFailure(offset));
      }
      ResumeStep(view, size, offset, fails, committed, totalMigrated);
      committed := committed + [batch];
      totalMigrated := totalMigrated + |batch|;
      offset := offset + size;
    }
    outcome := Ok(totalMigrated);
  }

  /**
   * When no page fails, the committed pages are exactly the batches of the
   * view, so every row is migrated once and in order, and the reported
   * total is the number of rows.
   */
  lemma {:induction false} PageRunWithoutFailures<T>(view: seq<T>, size: nat, offset: nat, fails: nat -> bool)
    requires size > 0
    requires forall o :: o >= offset ==> !fails(o)
    ensures offset <= |view| ==> PageRun(view, size, offset, fails).committed == Batches(view[offset..], size)
    ensures PageRun(view, size, offset, fails).outcome == Ok(if offset <= |view| then |view| - offset else 0)
    decreases |view| - offset
  {
    if offset < |view| {
      PageRunWithoutFailures(view, size, offset + size, fails);
      var page := Slice(view, offset, size);
      if offset + size < |view| {
        assert view[offset..][..size] == page;
        assert view[offset..][size..] == view[offset + size..];
      } else if offset + size == |view| {
        assert view[offset + size..] == [];
        assert view[offset..] == page;
      } else {
        assert view[offset..] == page;
      }
    }
  }

  /** A failing page stops the loop: nothing from it or after it is committed. */
  lemma {:induction false} PageRunFailure<T>(view: seq<T>, size: nat, offset: nat, fails: nat -> bool)
    requires size > 0
    requires PageRun(view, size, offset, fails).outcome.Err?
    ensures var o := PageRun(view, size, offset, fails).outcome.error.offset;
      && fails(o) && offset <= o < |view|
      && Flatten(PageRun(view, size, offset, fails).committed) == view[offset..o]
    decreases |view| - offset
  {
    var page := Slice(view, offset, size);
    if |page| > 0 && !fails(offset) {
      PageRunFailure(view, size, offset + size, fails);
      var rest := PageRun(view, size, offset + size, fails).committed;
      var o := PageRun(view, size, offset + size, fails).outcome.error.offset;
      assert page == view[offset..offset + size];
      assert Flatten([page] + rest) == page + Flatten(rest);
      assert view[offset..o] == view[offset..offset + size] + view[offset + size..o];
    }
  }
}
