/**
 * The schemas of the custom-field remote functions: listing the
 * definitions, creating one (a label, a key of lower-case letters,
 * digits and underscores, and one of four types), updating its label,
 * description and required flag, and deleting it.
 */
module CustomFieldSchemas {

  import opened Wrappers
  import opened JsonValues
  import opened SchemaFields

  const LabelRequired := "Título é obrigatório"
  const KeyRequired := "Chave do campo é obrigatória"
  const KeyPattern := "Chave deve conter apenas letras minúsculas, números e underscore"
  const TypeMessage := "Tipo deve ser text, number, date ou boolean"

  /** A character of `[a-z_]`. */
  predicate IsKeyStart(c: char) {
    'a' <= c <= 'z' || c == '_'
  }

  /** A character of `[a-z0-9_]`. */
  predicate IsKeyChar(c: char) {
    IsKeyStart(c) || '0' <= c <= '9'
  }

  /** `s` matches `^[a-z_][a-z0-9_]*$`. */
  predicate IsFieldKey(s: string) {
    |s| > 0 && IsKeyStart(s[0]) && forall i :: 1 <= i < |s| ==> IsKeyChar(s[i])
  }

  /** `s` matches `^(text|number|date|boolean)$`. */
  predicate IsFieldType(s: string) {
    s == "text" || s == "number" || s == "date" || s == "boolean"
  }

  datatype FetchParams = FetchParams(
    organizationId: string,
    columns: Option<seq<string>>,
    search: Option<string>,
    page: Option<int>,
    pageSize: Option<int>,
    includeCount: Option<bool>)

  /** `fetchCustomFieldsDefinitionsSchema`. */
  function FetchIssues(o: Props): seq<Issue> {
    Expect(StrAt(o, "organizationId").Some?, "organizationId", None)
    + Expect(OptStrArrayOk(o, "columns"), "columns", None)
    + Expect(OptStrOk(o, "search"), "search", None)
    + Expect(OptNumOk(o, "page"), "page", None)
    + Expect(OptNumOk(o, "pageSize"), "pageSize", None)
    + Expect(OptBoolOk(o, "includeCount"), "includeCount", None)
  }

  function ParseFetch(o: Props): Result<FetchParams, seq<Issue>> {
    Validated(FetchIssues(o), FetchParams(
      Text(o, "organizationId"), StrArrayAt(o, "columns"), StrAt(o, "search"),
      NumAt(o, "page"), NumAt(o, "pageSize"), BoolAt(o, "includeCount")))
  }

  datatype CreateParams = CreateParams(
    organizationId: string,
    fieldLabel: string,
    fieldKey: string,
    description: Option<string>,
    fieldType: string,
    isRequired: bool)

  /** `pipe(string(), minLength(1, …), regex(…))` on `fieldKey`: both checks run. */
  function FieldKeyIssues(o: Props): seq<Issue> {
    match StrAt(o, "fieldKey")
    case None => [Issue("fieldKey", None)]
    case Some(s) => Expect(|s| >= 1, "fieldKey", Some(KeyRequired)) + Expect(IsFieldKey(s), "fieldKey", Some(KeyPattern))
  }

  function TypeIssues(o: Props): seq<Issue> {
    match StrAt(o, "type")
    case None => [Issue("type", None)]
    case Some(s) => Expect(IsFieldType(s), "type", Some(TypeMessage))
  }

  /** `createCustomFieldDefinitionSchema`. */
  function CreateIssues(o: Props): seq<Issue> {
    Expect(StrAt(o, "organizationId").Some?, "organizationId", None)
    + MinLengthIssues(o, "label", None, 1, LabelRequired)
    + FieldKeyIssues(o)
    + Expect(OptStrOk(o, "description"), "description", None)
    + TypeIssues(o)
    + Expect(BoolAt(o, "isRequired").Some?, "isRequired", None)
  }

  function ParseCreate(o: Props): Result<CreateParams, seq<Issue>> {
    Validated(CreateIssues(o), CreateParams(
      Text(o, "organizationId"), Text(o, "label"), Text(o, "fieldKey"), StrAt(o, "description"),
      Text(o, "type"), OrElse(BoolAt(o, "isRequired"), false)))
  }

  datatype UpdateParams = UpdateParams(
    fieldId: string,
    organizationId: string,
    fieldLabel: string,
    description: Option<string>,
    isRequired: bool)

  /** `updateCustomFieldDefinitionSchema`. */
  function UpdateIssues(o: Props): seq<Issue> {
    Expect(StrAt(o, "fieldId").Some?, "fieldId", None)
    + Expect(StrAt(o, "organizationId").Some?, "organizationId", None)
    + MinLengthIssues(o, "label", None, 1, LabelRequired)
    + Expect(OptStrOk(o, "description"), "description", None)
    + Expect(BoolAt(o, "isRequired").Some?, "isRequired", None)
  }

  function ParseUpdate(o: Props): Result<UpdateParams, seq<Issue>> {
    Validated(UpdateIssues(o), UpdateParams(
      Text(o, "fieldId"), Text(o, "organizationId"), Text(o, "label"), StrAt(o, "description"),
      OrElse(BoolAt(o, "isRequired"), false)))
  }

  /** `deleteCustomFieldDefinitionSchema`: the field and its organisation. */
  function ParseDelete(o: Props): Result<(string, string), seq<Issue>> {
    Validated(
      Expect(StrAt(o, "fieldId").Some?, "fieldId", None) + Expect(StrAt(o, "organizationId").Some?, "organizationId", None),
      (Text(o, "fieldId"), Text(o, "organizationId")))
  }

  /** The listing schema asks only for the organisation id; every other property may be absent. */
  lemma FetchAccepts(o: Props)
    ensures ParseFetch(o).Ok? <==>
      StrAt(o, "organizationId").Some? && OptStrArrayOk(o, "columns") && OptStrOk(o, "search")
      && OptNumOk(o, "page") && OptNumOk(o, "pageSize") && OptBoolOk(o, "includeCount")
    ensures ParseFetch(o).Ok? ==> ParseFetch(o).value.organizationId == StrAt(o, "organizationId").value
  {
  }

  /**
   * Creating a definition needs an organisation id, a non-empty label, a
   * key matching `^[a-z_][a-z0-9_]*$`, one of the four types and a
   * boolean `isRequired`; the description may be absent.  The parsed
   * value carries the input's own strings.
   */
  lemma CreateAccepts(o: Props)
    ensures ParseCreate(o).Ok? <==>
      StrAt(o, "organizationId").Some?
      && StrAt(o, "label").Some? && StrAt(o, "label").value != ""
      && StrAt(o, "fieldKey").Some? && IsFieldKey(StrAt(o, "fieldKey").value)
      && OptStrOk(o, "description")
      && StrAt(o, "type").Some? && IsFieldType(StrAt(o, "type").value)
      && BoolAt(o, "isRequired").Some?
    ensures ParseCreate(o).Ok? ==>
      ParseCreate(o).value.fieldLabel == StrAt(o, "label").value
      && ParseCreate(o).value.fieldKey == StrAt(o, "fieldKey").value
      && ParseCreate(o).value.fieldType == StrAt(o, "type").value
      && ParseCreate(o).value.isRequired == BoolAt(o, "isRequired").value
      && ParseCreate(o).value.description == StrAt(o, "description")
  {
  }

  /**
   * An empty key is reported twice, as missing and as not matching the
   * pattern; a non-empty key that does not match only once.
   */
  lemma EmptyKeyIssues(o: Props)
    requires StrAt(o, "fieldKey").Some?
    ensures StrAt(o, "fieldKey").value == "" ==>
      FieldKeyIssues(o) == [Issue("fieldKey", Some(KeyRequired)), Issue("fieldKey", Some(KeyPattern))]
    ensures StrAt(o, "fieldKey").value != "" ==>
      (FieldKeyIssues(o) == [] <==> IsFieldKey(StrAt(o, "fieldKey").value))
  {
  }

  /**
   * An accepted key never starts with a digit and holds only lower-case
   * letters, digits and underscores.
   */
  lemma AcceptedKeyShape(o: Props)
    requires ParseCreate(o).Ok?
    ensures ParseCreate(o).value.fieldKey != ""
    ensures !('0' <= ParseCreate(o).value.fieldKey[0] <= '9')
    ensures forall i :: 0 <= i < |ParseCreate(o).value.fieldKey| ==>
      ('a' <= ParseCreate(o).value.fieldKey[i] <= 'z' || '0' <= ParseCreate(o).value.fieldKey[i] <= '9'
       || ParseCreate(o).value.fieldKey[i] == '_')
  {
    CreateAccepts(o);
  }

  /** The keys the update schema reads. */
  const UpdateKeys := {"fieldId", "organizationId", "label", "description", "isRequired"}

  /**
   * The update schema has no `fieldKey` or `type` entry: properties it
   * does not read, appended to the input, change nothing, so a key and
   * a type cannot be changed through it.
   */
  lemma UpdateIgnoresOtherProps(o: Props, extra: Props)
    requires forall k :: k in UpdateKeys ==> !HasKey(extra, k)
    ensures ParseUpdate(o + extra) == ParseUpdate(o)
  {
    assert "fieldId" in UpdateKeys && "organizationId" in UpdateKeys && "label" in UpdateKeys;
    assert "description" in UpdateKeys && "isRequired" in UpdateKeys;
    ExtraPropsUnread(o, extra, "fieldId");
    ExtraPropsUnread(o, extra, "organizationId");
    ExtraPropsUnread(o, extra, "label");
    ExtraPropsUnread(o, extra, "description");
    ExtraPropsUnread(o, extra, "isRequired");
  }

  /** In particular a `fieldKey` or a `type` sent with an update is dropped. */
  lemma UpdateDropsKeyAndType(o: Props, key: Json, fieldType: Json)
    ensures ParseUpdate(o + [("fieldKey", key), ("type", fieldType)]) == ParseUpdate(o)
  {
    var extra := [("fieldKey", key), ("type", fieldType)];
    forall k | k in UpdateKeys
      ensures !HasKey(extra, k)
    {
      assert extra[0].0 == "fieldKey" && extra[1].0 == "type";
    }
    UpdateIgnoresOtherProps(o, extra);
  }

  /**
   * The update needs the field and organisation ids, a non-empty label
   * and a boolean `isRequired`; the description may be absent.
   */
  lemma UpdateAccepts(o: Props)
    ensures ParseUpdate(o).Ok? <==>
      StrAt(o, "fieldId").Some? && StrAt(o, "organizationId").Some?
      && StrAt(o, "label").Some? && StrAt(o, "label").value != ""
      && OptStrOk(o, "description") && BoolAt(o, "isRequired").Some?
  {
  }

  /** Deleting needs exactly the field id and the organisation id, as strings. */
  lemma DeleteAccepts(o: Props)
    ensures ParseDelete(o).Ok? <==> StrAt(o, "fieldId").Some? && StrAt(o, "organizationId").Some?
    ensures ParseDelete(o).Ok? ==> ParseDelete(o).value == (StrAt(o, "fieldId").value, StrAt(o, "organizationId").value)
  {
  }
}
