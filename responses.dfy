/**
 * What a page's `load` function or form action hands back to the
 * framework: a redirect (always with status 303 in this application), a
 * failure with a status and an error message, or the page's data.
 */
module Responses {

  import opened Wrappers

  datatype Outcome<+T> =
    | Redirect(location: string)
    | Fail(status: nat, error: string)
    | Done(value: T)

  /**
   * A `cookies.set(name, value, options)` call; an option the handler
   * does not pass is `None` (the framework's default applies).
   */
  datatype CookieWrite = CookieWrite(
    name: string,
    value: string,
    maxAge: int,
    path: string,
    httpOnly: Option<bool>,
    secure: Option<bool>,
    sameSite: Option<string>)
}
