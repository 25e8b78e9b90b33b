/**
 * The webhook schemas: the create and update forms, the remote
 * functions' listing, lookup, create, update, delete and secret rotation
 * parameters, the saving of field mappings and the capture-next switch.
 */
module WebhookSchemas {

  import opened Wrappers
  import opened JsonValues
  import opened SchemaFields

  const NameNotText := "Nome deve ser um texto"
  const NameRequired := "Nome é obrigatório"
  const ActiveNotBoolean := "Estado ativo deve ser verdadeiro ou falso"

  datatype CreateFormInput = CreateFormInput(name: string, description: string)

  /** `createWebhookFormSchema`: a name of at least two characters. */
  function ParseCreateForm(o: Props): Result<CreateFormInput, seq<Issue>> {
    Validated(
      MinLengthIssues(o, "name", Some(NameNotText), 2, NameRequired)
      + Expect(OptStrOk(o, "description"), "description", None),
      CreateFormInput(Text(o, "name"), OrElse(StrAt(o, "description"), "")))
  }

  datatype UpdateFormInput = UpdateFormInput(name: string, description: string, isActive: bool)

  /** `updateWebhookFormSchema`: a name of at least one character, `isActive` defaulting to false. */
  function ParseUpdateForm(o: Props): Result<UpdateFormInput, seq<Issue>> {
    Validated(
      MinLengthIssues(o, "name", Some(NameNotText), 1, NameRequired)
      + Expect(OptStrOk(o, "description"), "description", None)
      + Expect(OptBoolOk(o, "isActive"), "isActive", Some(ActiveNotBoolean)),
      UpdateFormInput(Text(o, "name"), OrElse(StrAt(o, "description"), ""), OrElse(BoolAt(o, "isActive"), false)))
  }

  datatype FetchParams = FetchParams(
    organizationId: string,
    page: Option<int>,
    pageSize: Option<int>,
    search: Option<string>,
    includeCount: Option<bool>,
    columns: Option<seq<string>>)

  /** `fetchWebhooksSchema`. */
  function ParseFetch(o: Props): Result<FetchParams, seq<Issue>> {
    Validated(
      Expect(StrAt(o, "organizationId").Some?, "organizationId", None)
      + Expect(OptNumOk(o, "page"), "page", None)
      + Expect(OptNumOk(o, "pageSize"), "pageSize", None)
      + Expect(OptStrOk(o, "search"), "search", None)
      + Expect(OptBoolOk(o, "includeCount"), "includeCount", None)
      + Expect(OptStrArrayOk(o, "columns"), "columns", None),
      FetchParams(Text(o, "organizationId"), NumAt(o, "page"), NumAt(o, "pageSize"), StrAt(o, "search"),
        BoolAt(o, "includeCount"), StrArrayAt(o, "columns")))
  }

  /** The webhook id and the organisation id, read first by every per-webhook schema. */
  function IdIssues(o: Props): seq<Issue> {
    Expect(StrAt(o, "webhookId").Some?, "webhookId", None) + Expect(StrAt(o, "organizationId").Some?, "organizationId", None)
  }

  /** `fetchWebhookByIdSchema`. */
  function ParseFetchById(o: Props): Result<(string, string), seq<Issue>> {
    Validated(IdIssues(o), (Text(o, "webhookId"), Text(o, "organizationId")))
  }

  /** `deleteWebhookSchema`. */
  function ParseDelete(o: Props): Result<(string, string), seq<Issue>> {
    Validated(IdIssues(o), (Text(o, "webhookId"), Text(o, "organizationId")))
  }

  /** `rotateSecretKeySchema`. */
  function ParseRotateSecret(o: Props): Result<(string, string), seq<Issue>> {
    Validated(IdIssues(o), (Text(o, "webhookId"), Text(o, "organizationId")))
  }

  datatype CreateRemoteInput = CreateRemoteInput(organizationId: string, name: string, description: Option<string>, isActive: bool)

  /** `createWebhookRemoteSchema`: a name of any length, `is_active` defaulting to false. */
  function ParseCreateRemote(o: Props): Result<CreateRemoteInput, seq<Issue>> {
    Validated(
      Expect(StrAt(o, "organizationId").Some?, "organizationId", None)
      + Expect(StrAt(o, "name").Some?, "name", None)
      + Expect(OptStrOk(o, "description"), "description", None)
      + Expect(OptBoolOk(o, "is_active"), "is_active", None),
      CreateRemoteInput(Text(o, "organizationId"), Text(o, "name"), StrAt(o, "description"), OrElse(BoolAt(o, "is_active"), false)))
  }

  datatype UpdateRemoteInput = UpdateRemoteInput(webhookId: string, organizationId: string, name: string, description: Option<string>, isActive: bool)

  /** `updateWebhookRemoteSchema`: `is_active` is required. */
  function ParseUpdateRemote(o: Props): Result<UpdateRemoteInput, seq<Issue>> {
    Validated(
      IdIssues(o)
      + Expect(StrAt(o, "name").Some?, "name", None)
      + Expect(OptStrOk(o, "description"), "description", None)
      + Expect(BoolAt(o, "is_active").Some?, "is_active", None),
      UpdateRemoteInput(Text(o, "webhookId"), Text(o, "organizationId"), Text(o, "name"), StrAt(o, "description"),
        OrElse(BoolAt(o, "is_active"), false)))
  }

  datatype MappingsInput = MappingsInput(webhookId: string, organizationId: string, mappings: Json, samplePayload: Option<Json>)

  /**
   * `updateWebhookMappingsSchema`: the mappings and the sample payload
   * are not checked, but the `mappings` key must be present.
   */
  function ParseMappings(o: Props): Result<MappingsInput, seq<Issue>> {
    Validated(
      IdIssues(o) + KeyIssues(o, "mappings"),
      MappingsInput(Text(o, "webhookId"), Text(o, "organizationId"), ValueAt(o, "mappings"), Lookup(o, "samplePayload")))
  }

  /** `updateCaptureNextSchema`. */
  function ParseCaptureNext(o: Props): Result<(string, string, bool), seq<Issue>> {
    Validated(
      IdIssues(o) + Expect(BoolAt(o, "captureNext").Some?, "captureNext", None),
      (Text(o, "webhookId"), Text(o, "organizationId"), OrElse(BoolAt(o, "captureNext"), false)))
  }

  /**
   * The create form needs a name of at least two characters and the
   * update form one of at least one; the update form's `isActive` may
   * be absent, and is then false, but is otherwise a boolean.
   */
  lemma FormsAccept(o: Props)
    ensures ParseCreateForm(o).Ok? <==> StrAt(o, "name").Some? && |StrAt(o, "name").value| >= 2 && OptStrOk(o, "description")
    ensures ParseUpdateForm(o).Ok? <==>
      StrAt(o, "name").Some? && |StrAt(o, "name").value| >= 1 && OptStrOk(o, "description") && OptBoolOk(o, "isActive")
    ensures ParseUpdateForm(o).Ok? ==>
      ParseUpdateForm(o).value.isActive == (BoolAt(o, "isActive") == Some(true))
      && ParseUpdateForm(o).value.name == StrAt(o, "name").value
  {
  }

  /** An `isActive` that is present but not a boolean is reported with the form's own message. */
  lemma IsActiveMessage(o: Props)
    requires !OptBoolOk(o, "isActive")
    ensures ParseUpdateForm(o).Err?
    ensures Issue("isActive", Some(ActiveNotBoolean)) in ParseUpdateForm(o).error
  {
    var issues := MinLengthIssues(o, "name", Some(NameNotText), 1, NameRequired)
      + Expect(OptStrOk(o, "description"), "description", None)
      + Expect(OptBoolOk(o, "isActive"), "isActive", Some(ActiveNotBoolean));
    assert issues[|issues| - 1] == Issue("isActive", Some(ActiveNotBoolean));
  }

  /**
   * Both the update form's `isActive` and the remote create's
   * `is_active` are false when absent; the remote update refuses an
   * input without a boolean `is_active`.
   */
  lemma ActiveDefaults(o: Props)
    ensures ParseUpdateForm(o).Ok? && Absent(o, "isActive") ==> !ParseUpdateForm(o).value.isActive
    ensures ParseCreateRemote(o).Ok? && Absent(o, "is_active") ==> !ParseCreateRemote(o).value.isActive
    ensures ParseCreateRemote(o).Ok? && !Absent(o, "is_active") ==> ParseCreateRemote(o).value.isActive == BoolAt(o, "is_active").value
    ensures BoolAt(o, "is_active").None? ==> ParseUpdateRemote(o).Err? && Issue("is_active", None) in ParseUpdateRemote(o).error
    ensures ParseUpdateRemote(o).Ok? ==> ParseUpdateRemote(o).value.isActive == BoolAt(o, "is_active").value
  {
    var issues := IdIssues(o)
      + Expect(StrAt(o, "name").Some?, "name", None)
      + Expect(OptStrOk(o, "description"), "description", None)
      + Expect(BoolAt(o, "is_active").Some?, "is_active", None);
    if BoolAt(o, "is_active").None? {
      assert issues[|issues| - 1] == Issue("is_active", None);
    }
  }

  /** The remote create needs the organisation id and a name of any length. */
  lemma CreateRemoteAccepts(o: Props)
    ensures ParseCreateRemote(o).Ok? <==>
      StrAt(o, "organizationId").Some? && StrAt(o, "name").Some? && OptStrOk(o, "description") && OptBoolOk(o, "is_active")
  {
  }

  /**
   * Saving mappings needs the two ids and a `mappings` key: the mappings
   * and the sample payload pass through unchecked, and only the sample
   * payload may be absent.
   */
  lemma MappingsAccepts(o: Props)
    ensures ParseMappings(o).Ok? <==>
      StrAt(o, "webhookId").Some? && StrAt(o, "organizationId").Some? && !Absent(o, "mappings")
    ensures ParseMappings(o).Ok? ==>
      Lookup(o, "mappings") == Some(ParseMappings(o).value.mappings)
      && ParseMappings(o).value.samplePayload == Lookup(o, "samplePayload")
    ensures Absent(o, "mappings") ==> ParseMappings(o).Err? && Issue("mappings", None) in ParseMappings(o).error
  {
    var issues := IdIssues(o) + KeyIssues(o, "mappings");
    if Absent(o, "mappings") {
      assert issues[|issues| - 1] == Issue("mappings", None);
    }
  }

  /** The capture-next switch needs the two ids and a boolean `captureNext`, which it hands on. */
  lemma CaptureNextAccepts(o: Props)
    ensures ParseCaptureNext(o).Ok? <==>
      StrAt(o, "webhookId").Some? && StrAt(o, "organizationId").Some? && BoolAt(o, "captureNext").Some?
    ensures ParseCaptureNext(o).Ok? ==> ParseCaptureNext(o).value.2 == BoolAt(o, "captureNext").value
  {
  }

  /** Lookup, delete and secret rotation need exactly the webhook id and the organisation id. */
  lemma IdsAccepted(o: Props)
    ensures ParseDelete(o).Ok? <==> StrAt(o, "webhookId").Some? && StrAt(o, "organizationId").Some?
    ensures ParseFetchById(o) == ParseDelete(o) && ParseRotateSecret(o) == ParseDelete(o)
  {
  }

  /** The listing needs only the organisation id. */
  lemma FetchAccepts(o: Props)
    ensures ParseFetch(o).Ok? <==>
      StrAt(o, "organizationId").Some? && OptNumOk(o, "page") && OptNumOk(o, "pageSize")
      && OptStrOk(o, "search") && OptBoolOk(o, "includeCount") && OptStrArrayOk(o, "columns")
  {
  }
}
