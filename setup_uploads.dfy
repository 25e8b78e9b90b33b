/**
 * What the two onboarding upload pages (logo, then first product) share:
 * the `load` guard, the organisation id taken from the form or else from
 * the URL, and the file extension used to name the stored object.
 */
module SetupUploads {

  import opened Wrappers
  import opened Strings
  import opened Responses
  import opened AuthHooks

  /** A `File` entry of the submitted form: its name and size in bytes. */
  datatype FormFile = FormFile(name: string, size: int)

  /**
   * `load` of both setup pages: signed-out users go to the login page, a
   * URL without an `org` parameter goes back to `/setup`, and otherwise
   * the page gets that organisation id.
   */
  function SetupLoad(user: Option<User>, urlOrg: Option<string>): (r: Outcome<string>)
    ensures user.None? ==> r == Redirect("/auth/login")
    ensures user.Some? && (urlOrg.None? || urlOrg.value == "") ==> r == Redirect("/setup")
    ensures r.Done? <==> user.Some? && urlOrg.Some? && urlOrg.value != ""
    ensures r.Done? ==> r.value == urlOrg.value
  {
    if user.None? then Redirect("/auth/login")
    else match urlOrg
      case None => Redirect("/setup")
      case Some(org) => if org == "" then Redirect("/setup") else Done(org)
  }

  /** `formData.get("orgId") || url.searchParams.get("org")`, where the empty string counts as absent. */
  function OrgIdOf(formOrg: Option<string>, urlOrg: Option<string>): (r: Option<string>)
    ensures r.Some? ==> r.value != ""
    ensures formOrg.Some? && formOrg.value != "" ==> r == formOrg
    ensures (formOrg.None? || formOrg.value == "") ==> (r.Some? <==> urlOrg.Some? && urlOrg.value != "")
    ensures (formOrg.None? || formOrg.value == "") && r.Some? ==> r == urlOrg
  {
    if formOrg.Some? && formOrg.value != "" then formOrg
    else if urlOrg.Some? && urlOrg.value != "" then urlOrg
    else None
  }

  /**
   * `name.split('.').pop()?.toLowerCase() || fallback`: the lower-cased
   * text after the last '.', the whole lower-cased name when it has no
   * '.', and `fallback` only when that text is empty.
   */
  function FileExtension(name: string, fallback: string): string {
    var last := ToLowerAscii(AfterLast(name, '.'));
    if last == "" then fallback else last
  }

  predicate NoUpperAscii(s: string) {
    forall k :: 0 <= k < |s| ==> !('A' <= s[k] <= 'Z')
  }

  /**
   * The extension never contains a '.' and is never empty when the
   * fallback is not, and it is lower-case unless it is the fallback.
   */
  lemma FileExtensionShape(name: string, fallback: string)
    requires fallback != "" && '.' !in fallback
    ensures FileExtension(name, fallback) != ""
    ensures '.' !in FileExtension(name, fallback)
    ensures FileExtension(name, fallback) != fallback ==> NoUpperAscii(FileExtension(name, fallback))
  {
    var last := AfterLast(name, '.');
    AfterLastSpec(name, '.');
    var e := ToLowerAscii(last);
    assert forall k :: 0 <= k < |e| ==> e[k] == LowerChar(last[k]) && last[k] != '.';
  }

  /** A name ending in '.' and a non-empty, lower-case, dot-free extension gives that extension back. */
  lemma FileExtensionReadBack(stem: string, ext: string, fallback: string)
    requires ext != "" && '.' !in ext && NoUpperAscii(ext)
    ensures FileExtension(stem + "." + ext, fallback) == ext
  {
    var name := stem + "." + ext;
    assert name[|stem|] == '.';
    assert forall j :: |stem| < j < |name| ==> name[j] == ext[j - |stem| - 1];
    LastIndexOfSpec(name, '.');
    var i := LastIndexOf(name, '.');
    assert i == Some(|stem|);
    assert AfterLast(name, '.') == ext;
    assert forall k :: 0 <= k < |ext| ==> LowerChar(ext[k]) == ext[k];
  }
}
