/**
 * Creating a user's first organisation: the page is only for signed-in
 * users without one, and the form creates the organisation with the user
 * as admin, then a default dashboard, then opens the new organisation.
 */
module NewOrgPage {

  import opened Wrappers
  import opened Strings
  import opened Responses
  import opened AuthHooks

  const MaxNameLength := 50

  /** `load`. */
  function Load(user: Option<User>, memberships: seq<Membership>): (r: Outcome<User>)
    ensures user.None? ==> r == Redirect("/auth/login")
    ensures user.Some? && |memberships| > 0 ==> r == Redirect("/orgs")
    ensures r.Done? <==> user.Some? && |memberships| == 0
    ensures r.Done? ==> r.value == user.value
  {
    if user.None? then Redirect("/auth/login")
    else if |memberships| > 0 then Redirect("/orgs")
    else Done(user.value)
  }

  /** The arguments of the `create_organization_with_admin` procedure. */
  datatype CreateCall = CreateCall(orgName: string, userId: string)

  datatype PeriodSetting = PeriodSetting(kind: string, value: string)

  datatype DashboardRow = DashboardRow(
    name: string, description: string, organizationId: string, ownerId: string,
    isPrivate: bool, periodFilter: PeriodSetting)

  /** What the action did: its answer, and the calls it made to the database. */
  datatype CreateRun = CreateRun(outcome: Outcome<()>, call: Option<CreateCall>, dashboard: Option<DashboardRow>)

  /** The database's answers: the procedure's new organisation id or error, and whether the dashboard insert failed. */
  datatype Database = Database(create: Result<string, string>, dashboardFails: bool)

  function DefaultDashboard(orgId: string, ownerId: string): DashboardRow {
    DashboardRow("Relat\U{00F3}rio geral", "Seu primeiro relat\U{00F3}rio pronto para personalizar.",
      orgId, ownerId, false, PeriodSetting("relative", "thisMonth"))
  }

  /** The default action. */
  function Create(user: Option<User>, organizationName: Option<string>, db: Database): CreateRun {
    if user.None? then CreateRun(Fail(401, "Usu\U{00E1}rio n\U{00E3}o autenticado"), None, None)
    else if organizationName.None? || organizationName.value == "" || Trim(organizationName.value) == "" then
      CreateRun(Fail(400, "Nome da organiza\U{00E7}\U{00E3}o \U{00E9} obrigat\U{00F3}rio"), None, None)
    else if |Trim(organizationName.value)| > MaxNameLength then
      CreateRun(Fail(400, "Nome da organiza\U{00E7}\U{00E3}o deve ter no m\U{00E1}ximo 50 caracteres"), None, None)
    else
      var call := CreateCall(Trim(organizationName.value), user.value.id);
      match db.create
      case Err(_) => CreateRun(Fail(500, "Erro ao criar organiza\U{00E7}\U{00E3}o. Tente novamente."), Some(call), None)
      case Ok(orgId) =>
        var dashboard := DefaultDashboard(orgId, user.value.id);
        if db.dashboardFails then
          CreateRun(Fail(500, "Erro ao criar organiza\U{00E7}\U{00E3}o. Tente novamente."), Some(call), Some(dashboard))
        else CreateRun(Redirect("/orgs/" + orgId), Some(call), Some(dashboard))
  }

  /** A name is accepted when, trimmed, it is not empty and has at most 50 characters. */
  predicate NameAccepted(organizationName: Option<string>) {
    organizationName.Some? && 0 < |Trim(organizationName.value)| <= MaxNameLength
  }

  /**
   * The action's answers: 401 without a user, 400 exactly for a rejected
   * name, and otherwise the procedure is called with the trimmed name; any
   * database error is a 500, and success opens the new organisation.
   */
  lemma CreateOutcomes(user: Option<User>, organizationName: Option<string>, db: Database)
    ensures user.None? ==> Create(user, organizationName, db).outcome == Fail(401, "Usu\U{00E1}rio n\U{00E3}o autenticado")
    ensures user.Some? ==>
      (Create(user, organizationName, db).outcome.Fail? && Create(user, organizationName, db).outcome.status == 400
       <==> !NameAccepted(organizationName))
    ensures Create(user, organizationName, db).call.Some? <==> user.Some? && NameAccepted(organizationName)
    ensures Create(user, organizationName, db).call.Some? ==>
      Create(user, organizationName, db).call.value == CreateCall(Trim(organizationName.value), user.value.id)
    ensures Create(user, organizationName, db).outcome.Redirect? <==>
      user.Some? && NameAccepted(organizationName) && db.create.Ok? && !db.dashboardFails
    ensures Create(user, organizationName, db).outcome.Redirect? ==>
      Create(user, organizationName, db).outcome.location == "/orgs/" + db.create.value
    ensures user.Some? && NameAccepted(organizationName) && (db.create.Err? || db.dashboardFails) ==>
      Create(user, organizationName, db).outcome.Fail? && Create(user, organizationName, db).outcome.status == 500
  {
    if organizationName.Some? && organizationName.value == "" {
      assert Trim(organizationName.value) == "";
    }
  }

  /** The dashboard is created only for a created organisation, owned by the user and showing this month. */
  lemma DashboardFollowsOrganization(user: Option<User>, organizationName: Option<string>, db: Database)
    ensures Create(user, organizationName, db).dashboard.Some? ==>
      db.create.Ok? && user.Some?
      && Create(user, organizationName, db).dashboard.value.organizationId == db.create.value
      && Create(user, organizationName, db).dashboard.value.ownerId == user.value.id
      && Create(user, organizationName, db).dashboard.value.periodFilter == PeriodSetting("relative", "thisMonth")
  {
  }

  /** Fifty characters is still accepted; fifty-one is not. */
  lemma NameLimitBoundary(name: string)
    requires |name| > 0 && !IsJsWhitespace(name[0]) && !IsJsWhitespace(name[|name| - 1])
    ensures |name| == 50 ==> NameAccepted(Some(name))
    ensures |name| == 51 ==> !NameAccepted(Some(name))
  {
    TrimStartKeeps(name);
    assert Trim(name) == name;
  }
}
