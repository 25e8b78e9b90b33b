/**
 * The organisation form of the onboarding, with its messages in
 * Portuguese: the same entries and checks as the organisation creation
 * schema.
 */
module OnboardingSchemas {

  import opened Wrappers
  import opened JsonValues
  import opened SchemaFields
  import OrganizationSchemas

  /** `createOrganizationSchema` of the onboarding. */
  function CreateIssues(o: Props): seq<Issue> {
    BoundedIssues(o, "organizationName", None, 50, "Nome da organização é obrigatório", "Nome da organização deve ter no máximo 50 caracteres")
    + MinLengthIssues(o, "industry", None, 1, "Setor é obrigatório")
    + BoundedIssues(o, "description", None, 140, "Descrição é obrigatória", "Descrição deve ter no máximo 140 caracteres")
    + NonEmptyListIssues(o, "brandVoice", "Selecione pelo menos um tom da marca")
    + MinLengthIssues(o, "logoPolicy", None, 1, "Política de logo é obrigatória")
  }

  function ParseCreate(o: Props): Result<OrganizationSchemas.CreateInput, seq<Issue>> {
    Validated(CreateIssues(o), OrganizationSchemas.CreateInput(
      Text(o, "organizationName"), Text(o, "industry"), Text(o, "description"),
      OrElse(StrArrayAt(o, "brandVoice"), []), Text(o, "logoPolicy")))
  }

  /** The properties the issues concern, in order. */
  function IssueFields(issues: seq<Issue>): (r: seq<string>)
    ensures |r| == |issues| && forall i :: 0 <= i < |issues| ==> r[i] == issues[i].field
  {
    seq(|issues|, i requires 0 <= i < |issues| => issues[i].field)
  }

  lemma IssueFieldsAppend(a: seq<Issue>, b: seq<Issue>)
    ensures IssueFields(a + b) == IssueFields(a) + IssueFields(b)
  {
  }

  /** A length-checked string entry concerns the same property whatever its messages. */
  lemma BoundedFieldsAgree(o: Props, k: string, max: nat, r1: string, t1: string, r2: string, t2: string)
    ensures IssueFields(BoundedIssues(o, k, None, max, r1, t1)) == IssueFields(BoundedIssues(o, k, None, max, r2, t2))
  {
  }

  lemma MinLengthFieldsAgree(o: Props, k: string, m1: string, m2: string)
    ensures IssueFields(MinLengthIssues(o, k, None, 1, m1)) == IssueFields(MinLengthIssues(o, k, None, 1, m2))
  {
  }

  lemma ListFieldsAgree(o: Props, k: string, m1: string, m2: string)
    ensures IssueFields(NonEmptyListIssues(o, k, m1)) == IssueFields(NonEmptyListIssues(o, k, m2))
  {
  }

  /** Five entries whose issue lists concern the same properties give joined lists that do too. */
  lemma JoinedFieldsAgree(a1: seq<Issue>, a2: seq<Issue>, a3: seq<Issue>, a4: seq<Issue>, a5: seq<Issue>,
                          b1: seq<Issue>, b2: seq<Issue>, b3: seq<Issue>, b4: seq<Issue>, b5: seq<Issue>)
    requires IssueFields(a1) == IssueFields(b1) && IssueFields(a2) == IssueFields(b2) && IssueFields(a3) == IssueFields(b3)
    requires IssueFields(a4) == IssueFields(b4) && IssueFields(a5) == IssueFields(b5)
    ensures IssueFields(a1 + a2 + a3 + a4 + a5) == IssueFields(b1 + b2 + b3 + b4 + b5)
  {
    IssueFieldsAppend(a1, a2);
    IssueFieldsAppend(a1 + a2, a3);
    IssueFieldsAppend(a1 + a2 + a3, a4);
    IssueFieldsAppend(a1 + a2 + a3 + a4, a5);
    IssueFieldsAppend(b1, b2);
    IssueFieldsAppend(b1 + b2, b3);
    IssueFieldsAppend(b1 + b2 + b3, b4);
    IssueFieldsAppend(b1 + b2 + b3 + b4, b5);
  }

  /** Both schemas report issues on the same properties, in the same order. */
  lemma SameIssueFields(o: Props)
    ensures IssueFields(CreateIssues(o)) == IssueFields(OrganizationSchemas.CreateIssues(o))
  {
    BoundedFieldsAgree(o, "organizationName", 50, "Nome da organização é obrigatório", "Nome da organização deve ter no máximo 50 caracteres",
      "Organization name is required", "Organization name must be at most 50 characters");
    MinLengthFieldsAgree(o, "industry", "Setor é obrigatório", "Industry is required");
    BoundedFieldsAgree(o, "description", 140, "Descrição é obrigatória", "Descrição deve ter no máximo 140 caracteres",
      "Description is required", "Description must be at most 140 characters");
    ListFieldsAgree(o, "brandVoice", "Selecione pelo menos um tom da marca", "Please select at least one brand voice");
    MinLengthFieldsAgree(o, "logoPolicy", "Política de logo é obrigatória", "Logo policy is required");
    JoinedFieldsAgree(
      BoundedIssues(o, "organizationName", None, 50, "Nome da organização é obrigatório", "Nome da organização deve ter no máximo 50 caracteres"),
      MinLengthIssues(o, "industry", None, 1, "Setor é obrigatório"),
      BoundedIssues(o, "description", None, 140, "Descrição é obrigatória", "Descrição deve ter no máximo 140 caracteres"),
      NonEmptyListIssues(o, "brandVoice", "Selecione pelo menos um tom da marca"),
      MinLengthIssues(o, "logoPolicy", None, 1, "Política de logo é obrigatória"),
      BoundedIssues(o, "organizationName", None, 50, "Organization name is required", "Organization name must be at most 50 characters"),
      MinLengthIssues(o, "industry", None, 1, "Industry is required"),
      BoundedIssues(o, "description", None, 140, "Description is required", "Description must be at most 140 characters"),
      NonEmptyListIssues(o, "brandVoice", "Please select at least one brand voice"),
      MinLengthIssues(o, "logoPolicy", None, 1, "Logo policy is required"));
  }

  /**
   * The onboarding schema accepts exactly the inputs the organisation
   * creation schema accepts, parses them to the same value, and on a
   * rejected input reports issues on the same properties in the same
   * order; only the messages differ.
   */
  lemma SameAsOrganizationSchema(o: Props)
    ensures ParseCreate(o).Ok? <==> OrganizationSchemas.ParseCreate(o).Ok?
    ensures ParseCreate(o).Ok? ==> ParseCreate(o).value == OrganizationSchemas.ParseCreate(o).value
    ensures IssueFields(CreateIssues(o)) == IssueFields(OrganizationSchemas.CreateIssues(o))
  {
    SameIssueFields(o);
    assert |CreateIssues(o)| == |OrganizationSchemas.CreateIssues(o)|;
  }

  /**
   * So the onboarding form needs a name of 1 to 50 characters, an
   * industry, a description of 1 to 140 characters, at least one brand
   * voice and a logo policy.
   */
  lemma CreateAccepts(o: Props)
    ensures ParseCreate(o).Ok? <==>
      StrAt(o, "organizationName").Some? && 1 <= |StrAt(o, "organizationName").value| <= 50
      && StrAt(o, "industry").Some? && StrAt(o, "industry").value != ""
      && StrAt(o, "description").Some? && 1 <= |StrAt(o, "description").value| <= 140
      && StrArrayAt(o, "brandVoice").Some? && |StrArrayAt(o, "brandVoice").value| >= 1
      && StrAt(o, "logoPolicy").Some? && StrAt(o, "logoPolicy").value != ""
  {
    SameAsOrganizationSchema(o);
    OrganizationSchemas.CreateAccepts(o);
  }
}
