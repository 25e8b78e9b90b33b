/**
 * Turning validation failures into what the forms display: issues reported
 * by the schema library become (path, message, code) records, and the
 * issues carried by a remote call's error body become a dictionary from
 * field path to message.
 */
module ValidationErrors {

  import opened Wrappers
  import opened Strings
  import opened JsonValues

  /**
   * An issue as the schema library reports it.  A path segment is a JSON
   * value: an object with a `key` property names the field by that key,
   * anything else by its own text.
   */
  datatype ValidationIssue = ValidationIssue(path: Option<seq<Json>>, message: Option<string>, kind: Option<string>)

  datatype StructuredValidationError = StructuredValidationError(path: string, message: string, code: string)

  /** `String(segment.key)` for a keyed segment, `String(segment)` otherwise. */
  function SegmentText(segment: Json): string {
    if segment.JObj? && HasKey(segment.members, "key") then
      ToJsString(Lookup(segment.members, "key").value)
    else
      ToJsString(segment)
  }

  /** The field path of an issue: only the first segment counts. */
  function IssuePath(issue: ValidationIssue): (r: string)
    ensures issue.path.None? || |issue.path.value| == 0 ==> r == ""
    ensures issue.path.Some? && |issue.path.value| > 0 ==> r == SegmentText(issue.path.value[0])
  {
    var fieldPath := "";
    if issue.path.Some? && |issue.path.value| > 0 then SegmentText(issue.path.value[0]) else fieldPath
  }

  /** One issue as a structured error; the message is never empty. */
  function FormatIssue(issue: ValidationIssue): (r: StructuredValidationError)
    ensures r.path == IssuePath(issue)
    ensures r.message != ""
    ensures issue.message.Some? && issue.message.value != "" ==> r.message == issue.message.value
    ensures issue.message.None? || issue.message.value == "" ==> r.message == "Validation error"
    ensures issue.kind.Some? ==> r.code == issue.kind.value
    ensures issue.kind.None? ==> r.code == "validation_error"
  {
    StructuredValidationError(
      IssuePath(issue),
      if issue.message.Some? && issue.message.value != "" then issue.message.value else "Validation error",
      match issue.kind case Some(k) => k case None => "validation_error")
  }

  /** `formatValidationErrors`: one structured error per issue, in the same order. */
  function FormatValidationErrors(issues: seq<ValidationIssue>): (r: seq<StructuredValidationError>)
    ensures |r| == |issues|
    ensures forall i :: 0 <= i < |issues| ==> r[i] == FormatIssue(issues[i])
    ensures forall i :: 0 <= i < |r| ==> r[i].message != "" && r[i].path == IssuePath(issues[i])
  {
    seq(|issues|, i requires 0 <= i < |issues| => FormatIssue(issues[i]))
  }

  /** A keyed first segment names the field by its key. */
  lemma KeyedSegmentPath(issue: ValidationIssue, key: string)
    requires issue.path.Some? && |issue.path.value| > 0
    requires issue.path.value[0] == JObj([("key", JStr(key))])
    ensures FormatIssue(issue).path == key
  {
    assert HasKey(issue.path.value[0].members, "key") by {
      assert issue.path.value[0].members[0].0 == "key";
    }
  }

  // ---------------------------------------------------------------------
  // parseRemoteValidationErrors
  // ---------------------------------------------------------------------

  /** `error.body.issues` when the error carries an issues array. */
  function BodyIssues(error: Json): (r: Option<seq<Json>>)
    ensures r.Some? <==>
      error.JObj? && HasKey(error.members, "body")
      && Lookup(error.members, "body").value.JObj?
      && HasKey(Lookup(error.members, "body").value.members, "issues")
      && Lookup(Lookup(error.members, "body").value.members, "issues").value.JArr?
    ensures r.Some? ==> r.value == Lookup(Lookup(error.members, "body").value.members, "issues").value.items
  {
    if error.JObj? && HasKey(error.members, "body") then
      var body := Lookup(error.members, "body").value;
      if body.JObj? && HasKey(body.members, "issues") && Lookup(body.members, "issues").value.JArr? then
        Some(Lookup(body.members, "issues").value.items)
      else None
    else None
  }

  /** An issue that contributes: an object whose `path` and `message` are strings. */
  predicate Contributes(issue: Json) {
    issue.JObj?
    && Lookup(issue.members, "path").Some? && Lookup(issue.members, "path").value.JStr?
    && Lookup(issue.members, "message").Some? && Lookup(issue.members, "message").value.JStr?
  }

  function IssueKey(issue: Json): string
    requires Contributes(issue)
  {
    Lookup(issue.members, "path").value.s
  }

  function IssueMessage(issue: Json): string
    requires Contributes(issue)
  {
    Lookup(issue.members, "message").value.s
  }

  /** The dictionary after visiting `issues` in order; a later issue overwrites an earlier one. */
  function Collected(issues: seq<Json>): map<string, string>
  {
    if |issues| == 0 then map[]
    else
      var acc := Collected(issues[..|issues| - 1]);
      var issue := issues[|issues| - 1];
      if Contributes(issue) then acc[IssueKey(issue) := IssueMessage(issue)] else acc
  }

  /** `parseRemoteValidationErrors`, as a specification. */
  function ParseRemoteValidationErrorsSpec(error: Json): map<string, string> {
    match BodyIssues(error)
    case None => map[]
    case Some(issues) => Collected(issues)
  }

  /** `parseRemoteValidationErrors`: fills the dictionary while walking the issues. */
  method ParseRemoteValidationErrors(error: Json) returns (errors: map<string, string>)
    ensures errors == ParseRemoteValidationErrorsSpec(error)
  {
    errors := map[];
    var body := BodyIssues(error);
    if body.Some? {
      var issues := body.value;
      var i := 0;
      while i < |issues|
        invariant 0 <= i <= |issues|
        invariant errors == Collected(issues[..i])
      {
        assert issues[..i + 1][..i] == issues[..i];
        var issue := issues[i];
        if Contributes(issue) {
          errors := errors[IssueKey(issue) := IssueMessage(issue)];
        }
        i := i + 1;
      }
      assert issues[..|issues|] == issues;
    }
  }

  /** The dictionary has an entry for a path exactly when some contributing issue names it. */
  lemma {:induction false} CollectedKeys(issues: seq<Json>, k: string)
    ensures k in Collected(issues) <==> exists i :: 0 <= i < |issues| && Contributes(issues[i]) && IssueKey(issues[i]) == k
  {
    if |issues| > 0 {
      var init := issues[..|issues| - 1];
      CollectedKeys(init, k);
      if k in Collected(init) {
        var i :| 0 <= i < |init| && Contributes(init[i]) && IssueKey(init[i]) == k;
        assert issues[i] == init[i];
      }
      if exists i :: 0 <= i < |issues| && Contributes(issues[i]) && IssueKey(issues[i]) == k {
        var i :| 0 <= i < |issues| && Contributes(issues[i]) && IssueKey(issues[i]) == k;
        if i < |init| {
          assert init[i] == issues[i];
        }
      }
    }
  }

  /** The message kept for a path is that of the last contributing issue naming it. */
  lemma {:induction false} CollectedLastWins(issues: seq<Json>, i: nat)
    requires i < |issues| && Contributes(issues[i])
    requires forall j :: i < j < |issues| && Contributes(issues[j]) ==> IssueKey(issues[j]) != IssueKey(issues[i])
    ensures IssueKey(issues[i]) in Collected(issues)
    ensures Collected(issues)[IssueKey(issues[i])] == IssueMessage(issues[i])
  {
    var init := issues[..|issues| - 1];
    if i < |issues| - 1 {
      assert init[i] == issues[i];
      forall j | i < j < |init| && Contributes(init[j])
        ensures IssueKey(init[j]) != IssueKey(init[i])
      {
        assert init[j] == issues[j];
      }
      CollectedLastWins(init, i);
    }
  }

  /** Without an issues array in the error body, nothing is reported. */
  lemma NoIssuesNoErrors(error: Json)
    requires BodyIssues(error).None?
    ensures ParseRemoteValidationErrorsSpec(error) == map[]
  {
  }
}
