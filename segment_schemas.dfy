/**
 * The segment schemas: the create and update forms, the remote
 * functions' listing, lookup, create, update and delete parameters, and
 * the preview and lead queries.  The rules travel as an unchecked value
 * in the forms and the remote create and update (the `rules` key must
 * still be present), and as JSON text in the queries.
 */
module SegmentSchemas {

  import opened Wrappers
  import opened JsonValues
  import opened SchemaFields

  const NameNotText := "Nome deve ser um texto"
  const NameRequired := "Nome é obrigatório"

  /** A form's value, the rules as given. */
  datatype FormInput = FormInput(name: string, description: string, rules: Json)

  /** `createSegmentFormSchema`: a name of at least two characters. */
  function ParseCreateForm(o: Props): Result<FormInput, seq<Issue>> {
    Validated(
      MinLengthIssues(o, "name", Some(NameNotText), 2, NameRequired)
      + Expect(OptStrOk(o, "description"), "description", None)
      + KeyIssues(o, "rules"),
      FormInput(Text(o, "name"), OrElse(StrAt(o, "description"), ""), ValueAt(o, "rules")))
  }

  /** `updateSegmentFormSchema`: a name of at least one character. */
  function ParseUpdateForm(o: Props): Result<FormInput, seq<Issue>> {
    Validated(
      MinLengthIssues(o, "name", Some(NameNotText), 1, NameRequired)
      + Expect(OptStrOk(o, "description"), "description", None)
      + KeyIssues(o, "rules"),
      FormInput(Text(o, "name"), OrElse(StrAt(o, "description"), ""), ValueAt(o, "rules")))
  }

  datatype FetchParams = FetchParams(
    organizationId: string,
    page: Option<int>,
    pageSize: Option<int>,
    search: Option<string>,
    includeCount: Option<bool>,
    columns: Option<seq<string>>)

  /** `fetchSegmentsSchema`. */
  function ParseFetch(o: Props): Result<FetchParams, seq<Issue>> {
    Validated(
      Expect(StrAt(o, "organizationId").Some?, "organizationId", None)
      + Expect(OptNumOk(o, "page"), "page", None)
      + Expect(OptNumOk(o, "pageSize"), "pageSize", None)
      + Expect(OptStrOk(o, "search"), "search", None)
      + Expect(OptBoolOk(o, "includeCount"), "includeCount", None)
      + Expect(OptStrArrayOk(o, "columns"), "columns", None),
      FetchParams(Text(o, "organizationId"), NumAt(o, "page"), NumAt(o, "pageSize"), StrAt(o, "search"),
        BoolAt(o, "includeCount"), StrArrayAt(o, "columns")))
  }

  /** The two ids of the lookup and the delete. */
  function IdIssues(o: Props): seq<Issue> {
    Expect(StrAt(o, "segmentId").Some?, "segmentId", None) + Expect(StrAt(o, "organizationId").Some?, "organizationId", None)
  }

  /** `fetchSegmentByIdSchema`. */
  function ParseFetchById(o: Props): Result<(string, string), seq<Issue>> {
    Validated(IdIssues(o), (Text(o, "segmentId"), Text(o, "organizationId")))
  }

  /** `deleteSegmentSchema`. */
  function ParseDelete(o: Props): Result<(string, string), seq<Issue>> {
    Validated(IdIssues(o), (Text(o, "segmentId"), Text(o, "organizationId")))
  }

  datatype RemoteInput = RemoteInput(organizationId: string, name: string, description: Option<string>, rules: Json)

  /** The segment entries of the remote create and update. */
  function RemoteSegmentIssues(o: Props): seq<Issue> {
    MinLengthIssues(o, "name", None, 1, NameRequired)
    + Expect(OptStrOk(o, "description"), "description", None)
    + KeyIssues(o, "rules")
  }

  function RemoteValue(o: Props): RemoteInput {
    RemoteInput(Text(o, "organizationId"), Text(o, "name"), StrAt(o, "description"), ValueAt(o, "rules"))
  }

  /** `createSegmentRemoteSchema`. */
  function ParseCreateRemote(o: Props): Result<RemoteInput, seq<Issue>> {
    Validated(Expect(StrAt(o, "organizationId").Some?, "organizationId", None) + RemoteSegmentIssues(o), RemoteValue(o))
  }

  /** `updateSegmentRemoteSchema`. */
  function ParseUpdateRemote(o: Props): Result<(string, RemoteInput), seq<Issue>> {
    Validated(IdIssues(o) + RemoteSegmentIssues(o), (Text(o, "segmentId"), RemoteValue(o)))
  }

  /** `previewSegmentCountSchema`: the organisation and the rules as JSON text. */
  function ParsePreview(o: Props): Result<(string, string), seq<Issue>> {
    Validated(
      Expect(StrAt(o, "organizationId").Some?, "organizationId", None) + Expect(StrAt(o, "rules").Some?, "rules", None),
      (Text(o, "organizationId"), Text(o, "rules")))
  }

  datatype LeadsQuery = LeadsQuery(organizationId: string, rules: string, limit: Option<int>, offset: Option<int>, orderBy: Option<string>)

  /** `fetchSegmentLeadsSchema`. */
  function ParseLeadsQuery(o: Props): Result<LeadsQuery, seq<Issue>> {
    Validated(
      Expect(StrAt(o, "organizationId").Some?, "organizationId", None)
      + Expect(StrAt(o, "rules").Some?, "rules", None)
      + Expect(OptNumOk(o, "limit"), "limit", None)
      + Expect(OptNumOk(o, "offset"), "offset", None)
      + Expect(OptStrOk(o, "orderBy"), "orderBy", None),
      LeadsQuery(Text(o, "organizationId"), Text(o, "rules"), NumAt(o, "limit"), NumAt(o, "offset"), StrAt(o, "orderBy")))
  }

  /**
   * The create form needs a name of at least two characters and the
   * update form one of at least one; in both the description defaults
   * to `''`, and the `rules` key must be present, its value passed on
   * whatever it is.
   */
  lemma FormsAccept(o: Props)
    ensures ParseCreateForm(o).Ok? <==>
      StrAt(o, "name").Some? && |StrAt(o, "name").value| >= 2 && OptStrOk(o, "description") && !Absent(o, "rules")
    ensures ParseUpdateForm(o).Ok? <==>
      StrAt(o, "name").Some? && |StrAt(o, "name").value| >= 1 && OptStrOk(o, "description") && !Absent(o, "rules")
    ensures ParseUpdateForm(o).Ok? && Absent(o, "description") ==> ParseUpdateForm(o).value.description == ""
    ensures ParseUpdateForm(o).Ok? ==> Lookup(o, "rules") == Some(ParseUpdateForm(o).value.rules)
    ensures Absent(o, "rules") ==> ParseCreateForm(o).Err? && Issue("rules", None) in ParseCreateForm(o).error
  {
    if Absent(o, "rules") {
      var issues := MinLengthIssues(o, "name", Some(NameNotText), 2, NameRequired)
        + Expect(OptStrOk(o, "description"), "description", None)
        + KeyIssues(o, "rules");
      assert issues[|issues| - 1] == Issue("rules", None);
    }
  }

  /**
   * Every input the create form accepts the update form accepts too,
   * with the same value; a one-character name is where they part.
   */
  lemma CreateFormStricter(o: Props)
    ensures ParseCreateForm(o).Ok? ==> ParseUpdateForm(o) == ParseCreateForm(o)
    ensures StrAt(o, "name").Some? && |StrAt(o, "name").value| == 1 && OptStrOk(o, "description") && !Absent(o, "rules") ==>
      ParseUpdateForm(o).Ok? && ParseCreateForm(o) == Err([Issue("name", Some(NameRequired))])
  {
    if StrAt(o, "name").Some? && |StrAt(o, "name").value| == 1 && OptStrOk(o, "description") && !Absent(o, "rules") {
      var issues := MinLengthIssues(o, "name", Some(NameNotText), 2, NameRequired)
        + Expect(OptStrOk(o, "description"), "description", None)
        + KeyIssues(o, "rules");
      assert MinLengthIssues(o, "name", Some(NameNotText), 2, NameRequired) == [Issue("name", Some(NameRequired))];
      assert Expect(OptStrOk(o, "description"), "description", None) == [];
      assert KeyIssues(o, "rules") == [];
      assert issues == [Issue("name", Some(NameRequired))];
      assert ParseCreateForm(o) == Err(issues);
      assert ParseUpdateForm(o).Ok?;
    }
  }

  /**
   * The rules are unconstrained but required: whatever value `rules`
   * holds, the remote create and update decide on the other properties
   * alone and hand the value on, and without the key both refuse with
   * the missing-key issue.
   */
  lemma RulesUnconstrained(o: Props, r1: Json, r2: Json)
    requires !HasKey(o, "rules")
    ensures ParseCreateRemote(o + [("rules", r1)]).Ok? <==> ParseCreateRemote(o + [("rules", r2)]).Ok?
    ensures ParseCreateRemote(o + [("rules", r1)]).Ok? ==> ParseCreateRemote(o + [("rules", r1)]).value.rules == r1
    ensures ParseUpdateRemote(o + [("rules", r1)]).Ok? <==> ParseUpdateRemote(o + [("rules", r2)]).Ok?
    ensures ParseCreateRemote(o).Err? && Issue("rules", None) in ParseCreateRemote(o).error
    ensures ParseUpdateRemote(o).Err? && Issue("rules", None) in ParseUpdateRemote(o).error
  {
    var e1, e2 := [("rules", r1)], [("rules", r2)];
    assert forall k :: HasKey(e1, k) ==> k == "rules";
    assert forall k :: HasKey(e2, k) ==> k == "rules";
    ExtraPropsUnread(o, e1, "organizationId");
    ExtraPropsUnread(o, e1, "segmentId");
    ExtraPropsUnread(o, e1, "name");
    ExtraPropsUnread(o, e1, "description");
    ExtraPropsUnread(o, e2, "organizationId");
    ExtraPropsUnread(o, e2, "segmentId");
    ExtraPropsUnread(o, e2, "name");
    ExtraPropsUnread(o, e2, "description");
    assert e1[0].0 == "rules" && e2[0].0 == "rules";
    assert HasKey(e1, "rules") && HasKey(e2, "rules");
    LookupAppend(o, e1, "rules");
    LookupAppend(o, e2, "rules");
    assert Lookup(e1, "rules") == Some(r1);
    var seg := RemoteSegmentIssues(o);
    assert seg[|seg| - 1] == Issue("rules", None);
    var create := Expect(StrAt(o, "organizationId").Some?, "organizationId", None) + seg;
    assert create[|create| - 1] == Issue("rules", None);
    var update := IdIssues(o) + seg;
    assert update[|update| - 1] == Issue("rules", None);
  }

  /**
   * The remote create needs the organisation id, a name of at least one
   * character and the `rules` key; the remote update also needs the
   * segment id.
   */
  lemma RemoteAccepts(o: Props)
    ensures ParseCreateRemote(o).Ok? <==>
      StrAt(o, "organizationId").Some? && StrAt(o, "name").Some? && |StrAt(o, "name").value| >= 1
      && OptStrOk(o, "description") && !Absent(o, "rules")
    ensures ParseUpdateRemote(o).Ok? <==> StrAt(o, "segmentId").Some? && ParseCreateRemote(o).Ok?
    ensures ParseUpdateRemote(o).Ok? ==> ParseUpdateRemote(o).value == (StrAt(o, "segmentId").value, ParseCreateRemote(o).value)
    ensures ParseCreateRemote(o).Ok? ==> Lookup(o, "rules") == Some(ParseCreateRemote(o).value.rules)
  {
  }

  /** Lookup and delete need exactly the segment id and the organisation id. */
  lemma IdsAccepted(o: Props)
    ensures ParseDelete(o).Ok? <==> StrAt(o, "segmentId").Some? && StrAt(o, "organizationId").Some?
    ensures ParseFetchById(o) == ParseDelete(o)
  {
  }

  /**
   * The preview and the lead query need the organisation id and the
   * rules as a string; the lead query's limit, offset and order may be
   * absent.
   */
  lemma QueriesAccept(o: Props)
    ensures ParsePreview(o).Ok? <==> StrAt(o, "organizationId").Some? && StrAt(o, "rules").Some?
    ensures ParseLeadsQuery(o).Ok? <==>
      ParsePreview(o).Ok? && OptNumOk(o, "limit") && OptNumOk(o, "offset") && OptStrOk(o, "orderBy")
    ensures ParseLeadsQuery(o).Ok? ==> ParseLeadsQuery(o).value.rules == StrAt(o, "rules").value
  {
  }

  /** The listing needs only the organisation id. */
  lemma FetchAccepts(o: Props)
    ensures ParseFetch(o).Ok? <==>
      StrAt(o, "organizationId").Some? && OptNumOk(o, "page") && OptNumOk(o, "pageSize")
      && OptStrOk(o, "search") && OptBoolOk(o, "includeCount") && OptStrArrayOk(o, "columns")
  {
  }
}
