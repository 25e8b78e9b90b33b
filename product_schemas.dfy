/**
 * The product schemas: the create and update forms (a name of at most
 * 100 characters, a description and tags with defaults) and the remote
 * functions' listing, lookup, create, update and delete parameters.
 */
module ProductSchemas {

  import opened Wrappers
  import opened JsonValues
  import opened SchemaFields

  datatype FormInput = FormInput(name: string, description: string, tags: seq<string>)

  /** The entries of a product form, as both form schemas write them. */
  function CreateFormIssues(o: Props): seq<Issue> {
    BoundedIssues(o, "name", Some("Name must be text"), 100, "Name is required", "Name too long")
    + Expect(OptStrOk(o, "description"), "description", None)
    + Expect(OptStrArrayOk(o, "tags"), "tags", None)
  }

  /** `createProductFormSchema`: `description` defaults to `''` and `tags` to `[]`. */
  function ParseCreateForm(o: Props): Result<FormInput, seq<Issue>> {
    Validated(CreateFormIssues(o), FormInput(Text(o, "name"), OrElse(StrAt(o, "description"), ""), OrElse(StrArrayAt(o, "tags"), [])))
  }

  function UpdateFormIssues(o: Props): seq<Issue> {
    BoundedIssues(o, "name", Some("Name must be text"), 100, "Name is required", "Name too long")
    + Expect(OptStrOk(o, "description"), "description", None)
    + Expect(OptStrArrayOk(o, "tags"), "tags", None)
  }

  /** `updateProductFormSchema`. */
  function ParseUpdateForm(o: Props): Result<FormInput, seq<Issue>> {
    Validated(UpdateFormIssues(o), FormInput(Text(o, "name"), OrElse(StrAt(o, "description"), ""), OrElse(StrArrayAt(o, "tags"), [])))
  }

  datatype FetchParams = FetchParams(
    organizationId: string,
    page: Option<int>,
    pageSize: Option<int>,
    search: Option<string>,
    includeCount: Option<bool>)

  /** `fetchProductsSchema`. */
  function ParseFetch(o: Props): Result<FetchParams, seq<Issue>> {
    Validated(
      Expect(StrAt(o, "organizationId").Some?, "organizationId", None)
      + Expect(OptNumOk(o, "page"), "page", None)
      + Expect(OptNumOk(o, "pageSize"), "pageSize", None)
      + Expect(OptStrOk(o, "search"), "search", None)
      + Expect(OptBoolOk(o, "includeCount"), "includeCount", None),
      FetchParams(Text(o, "organizationId"), NumAt(o, "page"), NumAt(o, "pageSize"), StrAt(o, "search"), BoolAt(o, "includeCount")))
  }

  /** The two ids of `fetchProductByIdSchema` and `deleteProductSchema`. */
  function IdIssues(o: Props): seq<Issue> {
    Expect(StrAt(o, "productId").Some?, "productId", None) + Expect(StrAt(o, "organizationId").Some?, "organizationId", None)
  }

  /** `fetchProductByIdSchema`: the product and its organisation. */
  function ParseFetchById(o: Props): Result<(string, string), seq<Issue>> {
    Validated(IdIssues(o), (Text(o, "productId"), Text(o, "organizationId")))
  }

  /** `deleteProductSchema`: the product and its organisation. */
  function ParseDelete(o: Props): Result<(string, string), seq<Issue>> {
    Validated(IdIssues(o), (Text(o, "productId"), Text(o, "organizationId")))
  }

  datatype RemoteInput = RemoteInput(
    organizationId: string,
    name: string,
    description: Option<string>,
    tags: Option<seq<string>>,
    referenceImages: Option<seq<string>>)

  /** The product entries shared by the remote create and update: a name of any length. */
  function RemoteProductIssues(o: Props): seq<Issue> {
    Expect(StrAt(o, "name").Some?, "name", None)
    + Expect(OptStrOk(o, "description"), "description", None)
    + Expect(OptStrArrayOk(o, "tags"), "tags", None)
    + Expect(OptStrArrayOk(o, "referenceImages"), "referenceImages", None)
  }

  function RemoteValue(o: Props): RemoteInput {
    RemoteInput(Text(o, "organizationId"), Text(o, "name"), StrAt(o, "description"), StrArrayAt(o, "tags"), StrArrayAt(o, "referenceImages"))
  }

  /** `createProductRemoteSchema`. */
  function ParseCreateRemote(o: Props): Result<RemoteInput, seq<Issue>> {
    Validated(Expect(StrAt(o, "organizationId").Some?, "organizationId", None) + RemoteProductIssues(o), RemoteValue(o))
  }

  /** `updateProductRemoteSchema`: the product id, then the same entries. */
  function ParseUpdateRemote(o: Props): Result<(string, RemoteInput), seq<Issue>> {
    Validated(IdIssues(o) + RemoteProductIssues(o), (Text(o, "productId"), RemoteValue(o)))
  }

  /**
   * The create form needs a name of 1 to 100 characters; a missing
   * description becomes `''` and missing tags become `[]`, and present
   * ones must be a string and an array of strings.
   */
  lemma FormAccepts(o: Props)
    ensures ParseCreateForm(o).Ok? <==>
      StrAt(o, "name").Some? && 1 <= |StrAt(o, "name").value| <= 100
      && OptStrOk(o, "description") && OptStrArrayOk(o, "tags")
    ensures ParseCreateForm(o).Ok? ==> ParseCreateForm(o).value.name == StrAt(o, "name").value
    ensures ParseCreateForm(o).Ok? && Absent(o, "description") ==> ParseCreateForm(o).value.description == ""
    ensures ParseCreateForm(o).Ok? && !Absent(o, "description") ==> ParseCreateForm(o).value.description == StrAt(o, "description").value
    ensures ParseCreateForm(o).Ok? && Absent(o, "tags") ==> ParseCreateForm(o).value.tags == []
    ensures ParseCreateForm(o).Ok? && !Absent(o, "tags") ==> ParseCreateForm(o).value.tags == StrArrayAt(o, "tags").value
  {
  }

  /**
   * A name that is present but not a string is reported first with the
   * form's own message; an absent name is reported first by the object's
   * missing-key check, with the default message.
   */
  lemma FormNameNotText(o: Props)
    requires StrAt(o, "name").None?
    ensures ParseCreateForm(o).Err?
    ensures !Absent(o, "name") ==> ParseCreateForm(o).error[0] == Issue("name", Some("Name must be text"))
    ensures Absent(o, "name") ==> ParseCreateForm(o).error[0] == Issue("name", None)
  {
  }

  /** The create and update forms accept the same inputs, with the same values and the same issues. */
  lemma FormsAgree(o: Props)
    ensures ParseUpdateForm(o) == ParseCreateForm(o)
  {
  }

  /**
   * The remote create needs the organisation id and a name, which may be
   * empty or of any length; description, tags and reference images may
   * be absent.
   */
  lemma CreateRemoteAccepts(o: Props)
    ensures ParseCreateRemote(o).Ok? <==>
      StrAt(o, "organizationId").Some? && StrAt(o, "name").Some?
      && OptStrOk(o, "description") && OptStrArrayOk(o, "tags") && OptStrArrayOk(o, "referenceImages")
    ensures ParseCreateRemote(o).Ok? ==>
      ParseCreateRemote(o).value.name == StrAt(o, "name").value
      && ParseCreateRemote(o).value.tags == StrArrayAt(o, "tags")
      && ParseCreateRemote(o).value.referenceImages == StrArrayAt(o, "referenceImages")
  {
  }

  /**
   * The remote update additionally needs the product id, and otherwise
   * accepts exactly what the remote create accepts.
   */
  lemma UpdateRemoteAccepts(o: Props)
    ensures ParseUpdateRemote(o).Ok? <==> StrAt(o, "productId").Some? && ParseCreateRemote(o).Ok?
    ensures ParseUpdateRemote(o).Ok? ==> ParseUpdateRemote(o).value == (StrAt(o, "productId").value, ParseCreateRemote(o).value)
  {
  }

  /** Lookup and delete need exactly the product id and the organisation id. */
  lemma IdsAccepted(o: Props)
    ensures ParseDelete(o).Ok? <==> StrAt(o, "productId").Some? && StrAt(o, "organizationId").Some?
    ensures ParseFetchById(o) == ParseDelete(o)
    ensures ParseDelete(o).Ok? ==> ParseDelete(o).value == (StrAt(o, "productId").value, StrAt(o, "organizationId").value)
  {
  }

  /** The listing needs only the organisation id. */
  lemma FetchAccepts(o: Props)
    ensures ParseFetch(o).Ok? <==>
      StrAt(o, "organizationId").Some? && OptNumOk(o, "page") && OptNumOk(o, "pageSize")
      && OptStrOk(o, "search") && OptBoolOk(o, "includeCount")
  {
  }
}
