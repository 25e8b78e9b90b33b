/**
 * The first onboarding step after the organisation exists: the user may
 * upload a logo (with the colour palette the browser extracted from it)
 * or skip.  The action stores the logo under the organisation's `logos`
 * folder, records its storage path and the palette on the organisation,
 * and goes on to the product step.
 */
module LogoPage {

  import opened Wrappers
  import opened Strings
  import opened Responses
  import opened SetupUploads
  import opened UrlQuery
  import opened AuthHooks

  /** The product step of the onboarding for organisation `org`. */
  function ProductStep(org: string): string {
    "/setup/product?org=" + org
  }

  /** The `skip` action: on to the product step when the URL names an organisation, else to the list. */
  function Skip(urlOrg: Option<string>): (r: Outcome<()>)
    ensures urlOrg.Some? && urlOrg.value != "" ==> r == Redirect(ProductStep(urlOrg.value))
    ensures (urlOrg.None? || urlOrg.value == "") ==> r == Redirect("/orgs")
  {
    match urlOrg
    case Some(org) => if org != "" then Redirect(ProductStep(org)) else Redirect("/orgs")
    case None => Redirect("/orgs")
  }

  /** The `logo` entry of the form: absent, a text entry, or a file. */
  datatype LogoEntry = NoLogo | TextLogo(text: string) | FileLogo(file: FormFile)

  datatype LogoForm = LogoForm(orgId: Option<string>, logo: LogoEntry, colorPalette: seq<string>)

  /** How the storage service answered the upload. */
  datatype StorageAnswer = Stored | StorageError(message: string) | StorageThrew

  /** How the database answered the organisation update. */
  datatype UpdateAnswer = Updated | UpdateError | UpdateThrew

  /** What the outside world answers: the clock, `nanoid(8)`, the storage and the database. */
  datatype Services = Services(stamp: nat, id: string, upload: StorageAnswer, update: UpdateAnswer)

  /** A value of the `updateData` record: a string or a list of strings. */
  datatype UpdateValue = Text(text: string) | Texts(items: seq<string>)

  /** `update(data).eq("id", orgId)` on the `organizations` table. */
  datatype OrgUpdate = OrgUpdate(orgId: string, data: map<string, UpdateValue>)

  /** One submission: its outcome, the storage path uploaded to, and the update made. */
  datatype LogoRun = LogoRun(outcome: Outcome<()>, upload: Option<string>, update: Option<OrgUpdate>)

  /** The answer of the `catch` around the upload and the update. */
  const CaughtMessage := "An error occurred during logo upload"

  /**
   * `!logoFile || logoFile.size === 0`: no entry, the empty text entry,
   * or an empty file.  A non-empty text entry has no `size` and is not
   * skipped.
   */
  predicate SkipsUpload(e: LogoEntry) {
    e.NoLogo? || (e.TextLogo? && e.text == "") || (e.FileLogo? && e.file.size == 0)
  }

  /** `{org}/logos/logo-{timestamp}-{id}.{ext}`, the extension defaulting to `png`. */
  function LogoPath(org: string, stamp: nat, id: string, fileName: string): string {
    (org + "/logos/logo-") + (NatToString(stamp) + "-" + id) + ("." + FileExtension(fileName, "png"))
  }

  /** The record written to the organisation: the logo path, and the palette only when there is one. */
  function UpdateData(path: string, palette: seq<string>): map<string, UpdateValue> {
    if |palette| > 0 then map["logo" := Text(path), "color_palette" := Texts(palette)]
    else map["logo" := Text(path)]
  }

  /** The upload of a non-empty logo file and the update, for organisation `org`. */
  function UploadAndUpdateResult(org: string, file: FormFile, palette: seq<string>, svc: Services): LogoRun {
    var path := LogoPath(org, svc.stamp, svc.id, file.name);
    match svc.upload
    case StorageThrew => LogoRun(Fail(500, CaughtMessage), Some(path), None)
    case StorageError(message) => LogoRun(Fail(500, "Failed to upload logo: " + message), Some(path), None)
    case Stored =>
      var update := OrgUpdate(org, UpdateData(path, palette));
      match svc.update
      case Updated => LogoRun(Redirect(ProductStep(org)), Some(path), Some(update))
      case UpdateError => LogoRun(Fail(500, "Failed to save logo information"), Some(path), Some(update))
      case UpdateThrew => LogoRun(Fail(500, CaughtMessage), Some(path), Some(update))
  }

  /**
   * The `continue` action, as a function of the form, the URL's `org`
   * and the services' answers.  A non-empty text entry reaches
   * `logoFile.name.split`, which throws, and the `catch` answers.
   */
  function ContinueResult(form: LogoForm, urlOrg: Option<string>, svc: Services): LogoRun {
    match OrgIdOf(form.orgId, urlOrg)
    case None => LogoRun(Fail(400, "Organization ID is required"), None, None)
    case Some(org) =>
      if SkipsUpload(form.logo) then LogoRun(Redirect(ProductStep(org)), None, None)
      else if form.logo.TextLogo? then LogoRun(Fail(500, CaughtMessage), None, None)
      else UploadAndUpdateResult(org, form.logo.file, form.colorPalette, svc)
  }

  /** Builds `updateData`: the logo path first, then the palette when it is non-empty. */
  method BuildUpdateData(path: string, palette: seq<string>) returns (data: map<string, UpdateValue>)
    ensures data == UpdateData(path, palette)
  {
    data := map["logo" := Text(path)];
    if |palette| > 0 {
      data := data["color_palette" := Texts(palette)];
    }
  }

  /** The `continue` action: the checks, the upload, then the update. */
  method Continue(form: LogoForm, urlOrg: Option<string>, svc: Services) returns (run: LogoRun)
    ensures run == ContinueResult(form, urlOrg, svc)
  {
    var orgId := OrgIdOf(form.orgId, urlOrg);
    if orgId.None? {
      return LogoRun(Fail(400, "Organization ID is required"), None, None);
    }
    var org := orgId.value;
    if SkipsUpload(form.logo) {
      return LogoRun(Redirect(ProductStep(org)), None, None);
    }
    if form.logo.TextLogo? {
      return LogoRun(Fail(500, CaughtMessage), None, None);
    }
    var path := LogoPath(org, svc.stamp, svc.id, form.logo.file.name);
    if svc.upload.StorageThrew? {
      return LogoRun(Fail(500, CaughtMessage), Some(path), None);
    }
    if svc.upload.StorageError? {
      return LogoRun(Fail(500, "Failed to upload logo: " + svc.upload.message), Some(path), None);
    }
    var data := BuildUpdateData(path, form.colorPalette);
    var update := OrgUpdate(org, data);
    if svc.update.UpdateThrew? {
      return LogoRun(Fail(500, CaughtMessage), Some(path), Some(update));
    }
    if svc.update.UpdateError? {
      return LogoRun(Fail(500, "Failed to save logo information"), Some(path), Some(update));
    }
    return LogoRun(Redirect(ProductStep(org)), Some(path), Some(update));
  }

  /**
   * The update always records the logo path, records the palette
   * exactly when it is non-empty, and writes nothing else.
   */
  lemma UpdateDataShape(path: string, palette: seq<string>)
    ensures "logo" in UpdateData(path, palette) && UpdateData(path, palette)["logo"] == Text(path)
    ensures "color_palette" in UpdateData(path, palette) <==> |palette| > 0
    ensures "color_palette" in UpdateData(path, palette) ==> UpdateData(path, palette)["color_palette"] == Texts(palette)
    ensures forall k :: k in UpdateData(path, palette) ==> k == "logo" || k == "color_palette"
  {
    assert "logo" != "color_palette";
  }

  /**
   * Without an organisation id the action answers 400, and without a
   * logo (or with an empty one) it goes on to the product step; in both
   * cases nothing is uploaded and nothing is updated.
   */
  lemma ContinueGuards(form: LogoForm, urlOrg: Option<string>, svc: Services)
    ensures OrgIdOf(form.orgId, urlOrg).None? ==>
      ContinueResult(form, urlOrg, svc).outcome == Fail(400, "Organization ID is required")
    ensures OrgIdOf(form.orgId, urlOrg).Some? && SkipsUpload(form.logo) ==>
      ContinueResult(form, urlOrg, svc).outcome == Redirect(ProductStep(OrgIdOf(form.orgId, urlOrg).value))
    ensures OrgIdOf(form.orgId, urlOrg).None? || SkipsUpload(form.logo) ==>
      ContinueResult(form, urlOrg, svc).upload.None? && ContinueResult(form, urlOrg, svc).update.None?
  {
  }

  /**
   * A non-empty logo file is uploaded to its `logos` path; a storage
   * error answers 500 with the service's message and updates nothing.
   */
  lemma ContinueUpload(form: LogoForm, urlOrg: Option<string>, svc: Services)
    requires OrgIdOf(form.orgId, urlOrg).Some? && form.logo.FileLogo? && form.logo.file.size != 0
    ensures ContinueResult(form, urlOrg, svc).upload
      == Some(LogoPath(OrgIdOf(form.orgId, urlOrg).value, svc.stamp, svc.id, form.logo.file.name))
    ensures svc.upload.StorageError? ==>
      ContinueResult(form, urlOrg, svc).outcome == Fail(500, "Failed to upload logo: " + svc.upload.message)
    ensures svc.upload.StorageThrew? ==> ContinueResult(form, urlOrg, svc).outcome == Fail(500, CaughtMessage)
    ensures ContinueResult(form, urlOrg, svc).update.Some? <==> svc.upload.Stored?
  {
  }

  /**
   * After a successful upload the organisation named by the id is
   * updated with the uploaded path as its logo and the palette when
   * there is one; the user goes on to the product step unless the
   * update fails, which answers 500.
   */
  lemma ContinueUpdate(form: LogoForm, urlOrg: Option<string>, svc: Services)
    requires OrgIdOf(form.orgId, urlOrg).Some? && form.logo.FileLogo? && form.logo.file.size != 0
    requires svc.upload.Stored?
    ensures ContinueResult(form, urlOrg, svc).update.Some?
    ensures ContinueResult(form, urlOrg, svc).update.value.orgId == OrgIdOf(form.orgId, urlOrg).value
    ensures "logo" in ContinueResult(form, urlOrg, svc).update.value.data
    ensures Some(ContinueResult(form, urlOrg, svc).update.value.data["logo"].text) == ContinueResult(form, urlOrg, svc).upload
    ensures "color_palette" in ContinueResult(form, urlOrg, svc).update.value.data <==> |form.colorPalette| > 0
    ensures svc.update.Updated? ==>
      ContinueResult(form, urlOrg, svc).outcome == Redirect(ProductStep(OrgIdOf(form.orgId, urlOrg).value))
    ensures svc.update.UpdateError? ==>
      ContinueResult(form, urlOrg, svc).outcome == Fail(500, "Failed to save logo information")
  {
    var path := LogoPath(OrgIdOf(form.orgId, urlOrg).value, svc.stamp, svc.id, form.logo.file.name);
    UpdateDataShape(path, form.colorPalette);
  }

  /**
   * The action goes on to the product step exactly when there is an
   * organisation id and either there is no logo to upload or both the
   * upload and the update succeed; every other answer is a 400 or a 500.
   */
  lemma ContinueSucceeds(form: LogoForm, urlOrg: Option<string>, svc: Services)
    ensures ContinueResult(form, urlOrg, svc).outcome.Redirect? <==>
      OrgIdOf(form.orgId, urlOrg).Some?
      && (SkipsUpload(form.logo) || (form.logo.FileLogo? && svc.upload.Stored? && svc.update.Updated?))
    ensures ContinueResult(form, urlOrg, svc).outcome.Redirect? ==>
      ContinueResult(form, urlOrg, svc).outcome.location == ProductStep(OrgIdOf(form.orgId, urlOrg).value)
    ensures !ContinueResult(form, urlOrg, svc).outcome.Redirect? ==>
      ContinueResult(form, urlOrg, svc).outcome.Fail?
      && (ContinueResult(form, urlOrg, svc).outcome.status == 400 <==> OrgIdOf(form.orgId, urlOrg).None?)
      && ContinueResult(form, urlOrg, svc).outcome.status in {400, 500}
  {
  }

  /** A logo path sits in the organisation's `logos` folder and ends with the file's extension. */
  lemma LogoPathShape(org: string, stamp: nat, id: string, fileName: string)
    ensures StartsWith(LogoPath(org, stamp, id, fileName), org + "/logos/logo-")
    ensures EndsWith(LogoPath(org, stamp, id, fileName), "." + FileExtension(fileName, "png"))
    ensures '.' !in FileExtension(fileName, "png") && FileExtension(fileName, "png") != ""
  {
    var head := org + "/logos/logo-";
    var middle := NatToString(stamp) + "-" + id;
    var tail := "." + FileExtension(fileName, "png");
    ConcatParts(head, middle);
    StartsWithConcat(head + middle, tail, head);
    ConcatParts(head + middle, tail);
    FileExtensionShape(fileName, "png");
  }

  /** A file named `stem.ext` with a lower-case extension is stored under that extension. */
  lemma LogoPathKeepsExtension(org: string, stamp: nat, id: string, stem: string, ext: string)
    requires ext != "" && '.' !in ext && NoUpperAscii(ext)
    ensures EndsWith(LogoPath(org, stamp, id, stem + "." + ext), "." + ext)
  {
    FileExtensionReadBack(stem, ext, "png");
    LogoPathShape(org, stamp, id, stem + "." + ext);
  }

  /** The product step reads its organisation back from the `org` parameter. */
  lemma ProductStepReadsBack(org: string)
    requires '&' !in org && '#' !in org && '%' !in org && '+' !in org
    ensures SearchParam(QueryPairs(ProductStep(org)), "org") == Some(org)
  {
    var prefix: string := "/setup/product" + "?" + "org" + "=";
    assert prefix == "/setup/product?org=";
    SingleParamReadBack("/setup/product", "org", org);
  }

  /**
   * Skipping the logo lands where submitting without a logo does, and the
   * product step it opens reads the organisation back from its `org`
   * parameter: its `load` hands on that organisation to a signed-in user.
   */
  lemma SkipFeedsProductLoad(org: string, user: User, palette: seq<string>, svc: Services)
    requires org != "" && '&' !in org && '#' !in org && '%' !in org && '+' !in org
    ensures Skip(Some(org)) == ContinueResult(LogoForm(None, NoLogo, palette), Some(org), svc).outcome
    ensures Skip(Some(org)).Redirect?
    ensures SetupLoad(Some(user), SearchParam(QueryPairs(Skip(Some(org)).location), "org")) == Done(org)
  {
    ProductStepReadsBack(org);
  }
}
