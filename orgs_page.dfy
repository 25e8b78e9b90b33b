/** The organisation picker: where a signed-in user lands after login. */
module OrgsPage {

  import opened Wrappers
  import opened Strings
  import opened Responses
  import opened AuthHooks

  /** `load`: sign-in first, then setup for users without organisations, then the only organisation. */
  function Load(user: Option<User>, memberships: seq<Membership>): (r: Outcome<seq<Membership>>)
    ensures user.None? ==> r == Redirect("/auth/login")
    ensures user.Some? && |memberships| == 0 ==> r == Redirect("/setup")
    ensures user.Some? && |memberships| == 1 && memberships[0].organizations.Some? ==>
      r == Redirect("/orgs/" + memberships[0].organizations.value.id)
    ensures r.Done? <==> user.Some? && (|memberships| >= 2 || (|memberships| == 1 && memberships[0].organizations.None?))
    ensures r.Done? ==> r.value == memberships
    ensures !r.Fail?
  {
    if user.None? then Redirect("/auth/login")
    else if |memberships| == 0 then Redirect("/setup")
    else if |memberships| == 1 && memberships[0].organizations.Some? then
      Redirect("/orgs/" + memberships[0].organizations.value.id)
    else Done(memberships)
  }
}
