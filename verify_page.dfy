/**
 * The one-time-code page: reachable only with the e-mail cookie set by
 * the login page; the form checks the six-character code and the e-mail,
 * asks the auth service to verify them, and on success clears the cookie
 * and continues to organisation setup.
 */
module VerifyPage {

  import opened Wrappers
  import opened Strings
  import opened Responses

  /** `load`: the e-mail comes from the `auth_email` cookie. */
  function Load(authEmailCookie: Option<string>): (r: Outcome<string>)
    ensures authEmailCookie.None? || authEmailCookie.value == "" ==> r == Redirect("/auth/login")
    ensures authEmailCookie.Some? && authEmailCookie.value != "" ==> r == Done(authEmailCookie.value)
    ensures r.Redirect? || (r.Done? && r.value != "")
  {
    match authEmailCookie
    case Some(email) => if email == "" then Redirect("/auth/login") else Done(email)
    case None => Redirect("/auth/login")
  }

  /** How the auth service answered the verification request. */
  datatype VerifyAnswer = Verified | VerifyError(message: string) | VerifyThrew

  datatype VerifyRun = VerifyRun(outcome: Outcome<()>, request: Option<(string, string)>, cookie: Option<CookieWrite>)

  /** The default action; `request` is the (email, token) pair sent to the auth service. */
  function Verify(token: Option<string>, email: Option<string>, answer: VerifyAnswer): VerifyRun {
    if token.None? || token.value == "" then VerifyRun(Fail(400, "Code is required"), None, None)
    else if |token.value| != 6 then VerifyRun(Fail(400, "Code must be 6 digits"), None, None)
    else if email.None? || email.value == "" then VerifyRun(Fail(400, "Email not found"), None, None)
    else
      var request := Some((email.value, token.value));
      match answer
      case VerifyError(message) =>
        if Contains(message, "invalid") || Contains(message, "expired") then
          VerifyRun(Fail(400, "Invalid or expired code"), request, None)
        else VerifyRun(Fail(500, "Error verifying code"), request, None)
      case VerifyThrew => VerifyRun(Fail(500, "Internal server error"), request, None)
      case Verified => VerifyRun(Redirect("/new-org"), request, Some(CookieWrite("auth_email", "", 0, "/auth/verify", None, None, None)))
  }

  /**
   * The guard chain: code present, then of length six (any characters),
   * then an e-mail; only a request passing all three reaches the auth
   * service.
   */
  lemma VerifyGuards(token: Option<string>, email: Option<string>, answer: VerifyAnswer)
    ensures (token.None? || token.value == "") ==> Verify(token, email, answer).outcome == Fail(400, "Code is required")
    ensures token.Some? && token.value != "" && |token.value| != 6 ==>
      Verify(token, email, answer).outcome == Fail(400, "Code must be 6 digits")
    ensures token.Some? && |token.value| == 6 && (email.None? || email.value == "") ==>
      Verify(token, email, answer).outcome == Fail(400, "Email not found")
    ensures Verify(token, email, answer).request.Some? <==>
      token.Some? && |token.value| == 6 && email.Some? && email.value != ""
  {
  }

  /**
   * After the auth service is asked: an error naming an invalid or expired
   * code is the user's (400), any other failure the server's (500); only
   * success clears the cookie, and it then goes on to organisation setup.
   */
  lemma VerifyAnswers(token: string, email: string, answer: VerifyAnswer)
    requires |token| == 6 && email != ""
    ensures answer.VerifyError? && (Contains(answer.message, "invalid") || Contains(answer.message, "expired")) ==>
      Verify(Some(token), Some(email), answer).outcome == Fail(400, "Invalid or expired code")
    ensures answer.VerifyError? && !Contains(answer.message, "invalid") && !Contains(answer.message, "expired") ==>
      Verify(Some(token), Some(email), answer).outcome.Fail? && Verify(Some(token), Some(email), answer).outcome.status == 500
    ensures answer.VerifyThrew? ==> Verify(Some(token), Some(email), answer).outcome.status == 500
    ensures Verify(Some(token), Some(email), answer).cookie.Some? <==> answer.Verified?
    ensures answer.Verified? ==>
      Verify(Some(token), Some(email), answer).outcome == Redirect("/new-org")
      && Verify(Some(token), Some(email), answer).cookie.value.maxAge == 0
      && Verify(Some(token), Some(email), answer).cookie.value.name == "auth_email"
  {
    assert token != "";
  }
}
