/**
 * The login form: it checks the e-mail address against the pattern
 * `^[^\s@]+@[^\s@]+\.[^\s@]+$`, asks the auth service to send a one-time
 * code to the lower-cased address, remembers that address in the
 * `auth_email` cookie for the verify page, and continues there.
 */
module LoginPage {

  import opened Wrappers
  import opened Strings
  import opened Responses
  import VerifyPage

  /** A character of the class `[^\s@]`. */
  predicate PlainChar(c: char) {
    !IsJsWhitespace(c) && c != '@'
  }

  predicate AllPlain(s: string) {
    forall k :: 0 <= k < |s| ==> PlainChar(s[k])
  }

  /**
   * An '@' at `i` and a '.' at `j` cut `s` into the three non-empty runs
   * of `[^\s@]+` that the pattern asks for.
   */
  predicate EmailSplit(s: string, i: int, j: int) {
    0 < i && i + 1 < j && j + 1 < |s| && s[i] == '@' && s[j] == '.'
    && AllPlain(s[..i]) && AllPlain(s[i + 1..j]) && AllPlain(s[j + 1..])
  }

  /** `s` matches `^[^\s@]+@[^\s@]+\.[^\s@]+$`. */
  ghost predicate MatchesEmailPattern(s: string) {
    exists i, j :: EmailSplit(s, i, j)
  }

  /** The text after the '@' has a '.' that is neither its first nor its last character. */
  predicate HasInnerDot(t: string) {
    |t| >= 3 && '.' in t[1..|t| - 1]
  }

  /**
   * `emailRegex.test(email)`, decided directly: a non-empty local part
   * before the first '@', no whitespace and no second '@', and an inner
   * '.' in the domain.
   */
  function IsEmail(s: string): bool {
    match IndexOf(s, '@')
    case None => false
    case Some(i) => i > 0 && AllPlain(s[..i]) && AllPlain(s[i + 1..]) && HasInnerDot(s[i + 1..])
  }

  lemma AllPlainSlice(s: string, a: int, b: int)
    requires AllPlain(s) && 0 <= a <= b <= |s|
    ensures AllPlain(s[a..b])
  {
    assert forall k :: 0 <= k < b - a ==> s[a..b][k] == s[a + k];
  }

  lemma IsEmailSplits(s: string)
    requires IsEmail(s)
    ensures MatchesEmailPattern(s)
  {
    var i := IndexOf(s, '@').value;
    var t := s[i + 1..];
    var k :| 0 <= k < |t[1..|t| - 1]| && t[1..|t| - 1][k] == '.';
    var j := i + 2 + k;
    assert s[i + 1..j] == t[..k + 1];
    assert s[j + 1..] == t[k + 2..];
    AllPlainSlice(t, 0, k + 1);
    AllPlainSlice(t, k + 2, |t|);
    assert EmailSplit(s, i, j);
  }

  lemma SplitIsEmail(s: string, i: int, j: int)
    requires EmailSplit(s, i, j)
    ensures IsEmail(s)
  {
    assert forall k :: 0 <= k < i ==> s[..i][k] == s[k];
    assert IndexOf(s, '@') == Some(i);
    var t := s[i + 1..];
    assert t == s[i + 1..j] + ['.'] + s[j + 1..];
    assert t[1..|t| - 1][j - i - 2] == '.';
  }

  /** The direct test accepts exactly the strings the regular expression matches. */
  lemma IsEmailMatchesPattern(s: string)
    ensures IsEmail(s) <==> MatchesEmailPattern(s)
  {
    if IsEmail(s) {
      IsEmailSplits(s);
    }
    if MatchesEmailPattern(s) {
      var i, j :| EmailSplit(s, i, j);
      SplitIsEmail(s, i, j);
    }
  }

  /** An address the test accepts has no whitespace and exactly one '@'. */
  lemma EmailHasOneAt(s: string)
    requires IsEmail(s)
    ensures forall k :: 0 <= k < |s| ==> !IsJsWhitespace(s[k])
    ensures exists i :: 0 < i < |s| && s[i] == '@' && forall k :: 0 <= k < |s| && s[k] == '@' ==> k == i
  {
    var i := IndexOf(s, '@').value;
    assert forall k :: 0 <= k < i ==> s[..i][k] == s[k];
    assert forall k :: i < k < |s| ==> s[i + 1..][k - i - 1] == s[k];
  }

  /** How the auth service answered the request for a code. */
  datatype OtpAnswer = OtpSent | OtpError | OtpThrew

  /** One form submission: its outcome, the (email, emailRedirectTo) request made, and the cookie written. */
  datatype LoginRun = LoginRun(outcome: Outcome<()>, otpRequest: Option<(string, string)>, cookie: Option<CookieWrite>)

  /** The `auth_email` cookie written after the code is sent. */
  function AuthCookie(address: string, protocol: string): CookieWrite {
    CookieWrite("auth_email", address, 600, "/auth/verify", Some(true), Some(protocol == "https:"), Some("lax"))
  }

  /** The default action, given the form's `email`, the page URL's origin and protocol, and the service's answer. */
  function Login(email: Option<string>, origin: string, protocol: string, answer: OtpAnswer): LoginRun {
    if email.None? || email.value == "" then LoginRun(Fail(400, "Email is required"), None, None)
    else if !IsEmail(email.value) then LoginRun(Fail(400, "Invalid email"), None, None)
    else
      var address := ToLowerAscii(email.value);
      var request := Some((address, origin + "/auth/verify"));
      match answer
      case OtpError => LoginRun(Fail(500, "Error sending verification code"), request, None)
      case OtpThrew => LoginRun(Fail(500, "Internal server error"), request, None)
      case OtpSent => LoginRun(Redirect("/auth/verify"), request, Some(AuthCookie(address, protocol)))
  }

  /**
   * A missing e-mail and one the pattern rejects are refused with 400
   * before anything is sent; a code is requested exactly for addresses
   * the pattern matches.
   */
  lemma LoginGuards(email: Option<string>, origin: string, protocol: string, answer: OtpAnswer)
    ensures (email.None? || email.value == "") ==>
      Login(email, origin, protocol, answer).outcome == Fail(400, "Email is required")
    ensures email.Some? && email.value != "" && !MatchesEmailPattern(email.value) ==>
      Login(email, origin, protocol, answer).outcome == Fail(400, "Invalid email")
    ensures Login(email, origin, protocol, answer).otpRequest.Some? <==>
      email.Some? && MatchesEmailPattern(email.value)
  {
    if email.Some? {
      IsEmailMatchesPattern(email.value);
      if email.value == "" {
        assert !IsEmail(email.value);
      }
    }
  }

  /**
   * Once the address passes: the code request and the cookie both carry
   * the lower-cased address and the request sends the user back to
   * `/auth/verify`; an error from the service gives 500 and writes no
   * cookie; success writes a ten-minute, HTTP-only, same-site `lax`
   * cookie for `/auth/verify`, secure exactly over `https:`, and
   * redirects there.
   */
  lemma LoginAnswers(email: string, origin: string, protocol: string, answer: OtpAnswer)
    requires IsEmail(email)
    ensures Login(Some(email), origin, protocol, answer).otpRequest == Some((ToLowerAscii(email), origin + "/auth/verify"))
    ensures answer.OtpError? ==>
      Login(Some(email), origin, protocol, answer).outcome == Fail(500, "Error sending verification code")
    ensures answer.OtpThrew? ==> Login(Some(email), origin, protocol, answer).outcome == Fail(500, "Internal server error")
    ensures Login(Some(email), origin, protocol, answer).cookie.Some? <==> answer.OtpSent?
    ensures answer.OtpSent? ==>
      Login(Some(email), origin, protocol, answer).outcome == Redirect("/auth/verify")
      && Login(Some(email), origin, protocol, answer).cookie.value.value == ToLowerAscii(email)
      && Login(Some(email), origin, protocol, answer).cookie.value.maxAge == 600
      && Login(Some(email), origin, protocol, answer).cookie.value.path == "/auth/verify"
      && Login(Some(email), origin, protocol, answer).cookie.value.httpOnly == Some(true)
      && (Login(Some(email), origin, protocol, answer).cookie.value.secure == Some(true) <==> protocol == "https:")
  {
    assert email != "";
  }

  /**
   * The cookie a successful login writes is one the verify page accepts:
   * its `load` hands on exactly the lower-cased address.
   */
  lemma LoginFeedsVerify(email: string, origin: string, protocol: string)
    requires IsEmail(email)
    ensures Login(Some(email), origin, protocol, OtpSent).cookie.Some?
    ensures VerifyPage.Load(Some(Login(Some(email), origin, protocol, OtpSent).cookie.value.value))
      == Done(ToLowerAscii(email))
  {
    LoginAnswers(email, origin, protocol, OtpSent);
    assert |ToLowerAscii(email)| == |email| > 0;
  }
}
