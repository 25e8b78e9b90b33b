/**
 * The second onboarding step: the user names a first product and gives
 * one to six reference images.  The action uploads the images one by one
 * under the product's `_references` folder, stops at the first upload
 * that fails, and only when all succeeded inserts the product row.
 */
module ProductPage {

  import opened Wrappers
  import opened Strings
  import opened Responses
  import opened Seqs
  import opened AuthHooks
  import opened SetupUploads

  /** At most this many reference images are uploaded. */
  const MaxReferenceImages := 6

  /** The `skip` action: on to the organisation when the URL names one, else to the list. */
  function Skip(urlOrg: Option<string>): (r: Outcome<()>)
    ensures urlOrg.Some? && urlOrg.value != "" ==> r == Redirect("/orgs/" + urlOrg.value)
    ensures (urlOrg.None? || urlOrg.value == "") ==> r == Redirect("/orgs")
  {
    match urlOrg
    case Some(org) => if org != "" then Redirect("/orgs/" + org) else Redirect("/orgs")
    case None => Redirect("/orgs")
  }

  datatype ProductForm = ProductForm(
    orgId: Option<string>,
    productName: Option<string>,
    description: Option<string>,
    tags: seq<string>,
    referenceImages: seq<FormFile>)

  /** What the storage answers to one upload: success, an error return, or a throw. */
  datatype UploadAnswer = Uploaded | UploadError(message: string) | UploadThrew

  /** What the `products` table answers to the insert: success, an error return, or a throw. */
  datatype InsertAnswer = Inserted | InsertError | InsertThrew

  /**
   * What the outside world answers: the product id (`nanoid(12)`), the
   * clock and `nanoid(8)` for the k-th upload, the storage's answer to
   * the k-th upload, and the table's answer to the insert.
   */
  datatype Services = Services(
    productId: string,
    stampAt: nat -> nat,
    idAt: nat -> string,
    uploadAt: nat -> UploadAnswer,
    insert: InsertAnswer)

  /** The answer of the `catch (err)` around the uploads and the insert. */
  const CaughtMessage := "An error occurred while creating the product"

  /** The row sent to the `products` table. */
  datatype ProductRow = ProductRow(
    id: string,
    organizationId: string,
    name: string,
    description: Option<string>,
    tags: Option<seq<string>>,
    referenceImages: Option<seq<string>>,
    createdBy: string)

  /** One submission: its outcome, the storage paths uploaded to in order, and the insert made. */
  datatype ContinueRun = ContinueRun(outcome: Outcome<()>, uploads: seq<string>, insert: Option<ProductRow>)

  predicate NonEmptyFile(f: FormFile) {
    f.size > 0
  }

  /** The files kept for upload: the non-empty ones, in form order, at most six. */
  function UploadBatch(files: seq<FormFile>): (r: seq<FormFile>)
    ensures |r| == if |Filter(files, NonEmptyFile)| <= 6 then |Filter(files, NonEmptyFile)| else 6
    ensures r == Filter(files, NonEmptyFile)[..|r|]
  {
    var valid := Filter(files, NonEmptyFile);
    if |valid| <= MaxReferenceImages then valid else valid[..MaxReferenceImages]
  }

  /** `{org}/products/{productId}/_references/ref-{timestamp}-{id}.{ext}`. */
  function ReferencePath(orgId: string, productId: string, stamp: nat, id: string, fileName: string): string {
    (orgId + "/products/" + productId + "/_references/ref-")
    + (NatToString(stamp) + "-" + id)
    + ("." + FileExtension(fileName, "jpg"))
  }

  /** The paths of the first `n` files of the batch, in order. */
  function UploadPaths(orgId: string, svc: Services, batch: seq<FormFile>, n: nat): (r: seq<string>)
    requires n <= |batch|
    ensures |r| == n
  {
    if n == 0 then []
    else UploadPaths(orgId, svc, batch, n - 1) + [ReferencePath(orgId, svc.productId, svc.stampAt(n - 1), svc.idAt(n - 1), batch[n - 1].name)]
  }

  /** Path k of the list is the path of file k, named with the k-th timestamp and id. */
  lemma {:induction false} UploadPathsAt(orgId: string, svc: Services, batch: seq<FormFile>, n: nat, k: nat)
    requires k < n <= |batch|
    ensures UploadPaths(orgId, svc, batch, n)[k] == ReferencePath(orgId, svc.productId, svc.stampAt(k), svc.idAt(k), batch[k].name)
  {
    if k < n - 1 {
      UploadPathsAt(orgId, svc, batch, n - 1, k);
    }
  }

  /** The first k in [i, n) whose upload fails, by an error return or a throw. */
  function FirstFailure(uploadAt: nat -> UploadAnswer, i: nat, n: nat): (r: Option<nat>)
    ensures r.Some? ==> i <= r.value < n && !uploadAt(r.value).Uploaded?
    ensures r.Some? ==> forall k :: i <= k < r.value ==> uploadAt(k).Uploaded?
    ensures r.None? ==> forall k :: i <= k < n ==> uploadAt(k).Uploaded?
    decreases n - i
  {
    if i >= n then None
    else if !uploadAt(i).Uploaded? then Some(i)
    else FirstFailure(uploadAt, i + 1, n)
  }

  /** A failing upload after only successful ones is the first failure. */
  lemma {:induction false} FirstFailureAt(uploadAt: nat -> UploadAnswer, i: nat, n: nat, k: nat)
    requires i <= k < n && !uploadAt(k).Uploaded?
    requires forall j :: i <= j < k ==> uploadAt(j).Uploaded?
    ensures FirstFailure(uploadAt, i, n) == Some(k)
    decreases k - i
  {
    if i < k {
      FirstFailureAt(uploadAt, i + 1, n, k);
    }
  }

  /** `(formData.get("description") || null)?.trim() || null`. */
  function TrimmedOrNull(s: Option<string>): (r: Option<string>)
    ensures r.Some? ==> r.value != "" && s.Some? && r.value == Trim(s.value)
    ensures r.None? <==> s.None? || Trim(s.value) == ""
  {
    match s
    case None => None
    case Some(d) => if Trim(d) == "" then None else Some(Trim(d))
  }

  /** The message of a failed upload names the image counting from one. */
  function UploadFailureMessage(k: nat, message: string): string {
    "Failed to upload image " + NatToString(k + 1) + ": " + message
  }

  /** The answer to failing upload k: its error return names the image, a throw reaches the `catch`. */
  function UploadFailure(k: nat, answer: UploadAnswer): Outcome<()>
    requires !answer.Uploaded?
  {
    match answer
    case UploadError(message) => Fail(500, UploadFailureMessage(k, message))
    case UploadThrew => Fail(500, CaughtMessage)
  }

  /** The answer once every upload succeeded, by the insert's answer. */
  function InsertOutcome(org: string, answer: InsertAnswer): Outcome<()> {
    match answer
    case Inserted => Redirect("/orgs/" + org)
    case InsertError => Fail(500, "Failed to create product")
    case InsertThrew => Fail(500, CaughtMessage)
  }

  /** The product row built after every upload succeeded. */
  function Row(orgId: string, user: User, form: ProductForm, svc: Services, paths: seq<string>): ProductRow
    requires form.productName.Some?
  {
    ProductRow(
      svc.productId, orgId, Trim(form.productName.value), TrimmedOrNull(form.description),
      if |form.tags| > 0 then Some(form.tags) else None,
      if |paths| > 0 then Some(paths) else None,
      user.id)
  }

  /** The first check the submission fails, in the handler's order, as the failure it answers. */
  function Refusal(form: ProductForm, urlOrg: Option<string>, user: Option<User>): Option<Outcome<()>> {
    if OrgIdOf(form.orgId, urlOrg).None? then Some(Fail(400, "Organization ID is required"))
    else if user.None? then Some(Fail(401, "User not authenticated"))
    else if form.productName.None? || Trim(form.productName.value) == "" then Some(Fail(400, "Product name is required"))
    else if |Filter(form.referenceImages, NonEmptyFile)| == 0 then Some(Fail(400, "At least one reference image is required"))
    else None
  }

  /** The uploads and the insert, once every check has passed. */
  function UploadAndInsertResult(org: string, user: User, form: ProductForm, svc: Services): ContinueRun
    requires form.productName.Some?
  {
    var batch := UploadBatch(form.referenceImages);
    match FirstFailure(svc.uploadAt, 0, |batch|)
    case Some(k) => ContinueRun(UploadFailure(k, svc.uploadAt(k)), UploadPaths(org, svc, batch, k + 1), None)
    case None =>
      var paths := UploadPaths(org, svc, batch, |batch|);
      ContinueRun(InsertOutcome(org, svc.insert), paths, Some(Row(org, user, form, svc, paths)))
  }

  /** The `continue` action, as a function of the form, the URL's `org`, the user and the services' answers. */
  function ContinueResult(form: ProductForm, urlOrg: Option<string>, user: Option<User>, svc: Services): ContinueRun {
    match Refusal(form, urlOrg, user)
    case Some(failure) => ContinueRun(failure, [], None)
    case None => UploadAndInsertResult(OrgIdOf(form.orgId, urlOrg).value, user.value, form, svc)
  }

  /** The `continue` action: the checks, then the uploads and the insert. */
  method Continue(form: ProductForm, urlOrg: Option<string>, user: Option<User>, svc: Services) returns (run: ContinueRun)
    ensures run == ContinueResult(form, urlOrg, user, svc)
  {
    var refusal := Refusal(form, urlOrg, user);
    if refusal.Some? {
      return ContinueRun(refusal.value, [], None);
    }
    run := UploadAndInsert(OrgIdOf(form.orgId, urlOrg).value, user.value, form, svc);
  }

  /**
   * The upload loop: uploads the batch in order and stops at the first
   * upload that returns an error or throws; `attempted` are the paths
   * uploaded to, the failing one included.
   */
  method UploadReferences(org: string, svc: Services, validFiles: seq<FormFile>) returns (attempted: seq<string>, failed: Option<nat>)
    ensures failed == FirstFailure(svc.uploadAt, 0, |validFiles|)
    ensures failed.None? ==> attempted == UploadPaths(org, svc, validFiles, |validFiles|)
    ensures failed.Some? ==> failed.value < |validFiles| && attempted == UploadPaths(org, svc, validFiles, failed.value + 1)
  {
    var imagePaths: seq<string> := [];
    var i := 0;
    while i < |validFiles|
      invariant 0 <= i <= |validFiles|
      invariant imagePaths == UploadPaths(org, svc, validFiles, i)
      invariant FirstFailure(svc.uploadAt, i, |validFiles|) == FirstFailure(svc.uploadAt, 0, |validFiles|)
    {
      var filePath := ReferencePath(org, svc.productId, svc.stampAt(i), svc.idAt(i), validFiles[i].name);
      match svc.uploadAt(i) {
        case UploadThrew =>
          return imagePaths + [filePath], Some(i);
        case UploadError(_) =>
          return imagePaths + [filePath], Some(i);
        case Uploaded =>
      }
      imagePaths := imagePaths + [filePath];
      i := i + 1;
    }
    return imagePaths, None;
  }

  /** The upload loop over the batch, then the insert. */
  method UploadAndInsert(org: string, user: User, form: ProductForm, svc: Services) returns (run: ContinueRun)
    requires form.productName.Some?
    ensures run == UploadAndInsertResult(org, user, form, svc)
  {
    var validFiles := UploadBatch(form.referenceImages);
    var imagePaths, failed := UploadReferences(org, svc, validFiles);
    if failed.Some? {
      var k := failed.value;
      if svc.uploadAt(k).UploadThrew? {
        return ContinueRun(Fail(500, CaughtMessage), imagePaths, None);
      }
      return ContinueRun(Fail(500, UploadFailureMessage(k, svc.uploadAt(k).message)), imagePaths, None);
    }
    var row := Row(org, user, form, svc, imagePaths);
    match svc.insert {
      case InsertThrew =>
        return ContinueRun(Fail(500, CaughtMessage), imagePaths, Some(row));
      case InsertError =>
        return ContinueRun(Fail(500, "Failed to create product"), imagePaths, Some(row));
      case Inserted =>
    }
    return ContinueRun(Redirect("/orgs/" + org), imagePaths, Some(row));
  }

  /** The form passes every check made before the first upload. */
  predicate PassesGuards(form: ProductForm, urlOrg: Option<string>, user: Option<User>) {
    OrgIdOf(form.orgId, urlOrg).Some? && user.Some?
    && form.productName.Some? && Trim(form.productName.value) != ""
    && |Filter(form.referenceImages, NonEmptyFile)| > 0
  }

  /** The handler goes on to the uploads exactly when the form passes every check. */
  lemma RefusalIffGuards(form: ProductForm, urlOrg: Option<string>, user: Option<User>)
    ensures Refusal(form, urlOrg, user).None? <==> PassesGuards(form, urlOrg, user)
    ensures Refusal(form, urlOrg, user).Some? ==> Refusal(form, urlOrg, user).value.Fail?
  {
  }

  /**
   * The checks run in order (organisation id, user, product name, at
   * least one non-empty file), the first failing one decides the status,
   * and a refused form uploads and inserts nothing.
   */
  lemma ContinueGuards(form: ProductForm, urlOrg: Option<string>, user: Option<User>, svc: Services)
    ensures OrgIdOf(form.orgId, urlOrg).None? ==>
      ContinueResult(form, urlOrg, user, svc).outcome == Fail(400, "Organization ID is required")
    ensures OrgIdOf(form.orgId, urlOrg).Some? && user.None? ==>
      ContinueResult(form, urlOrg, user, svc).outcome == Fail(401, "User not authenticated")
    ensures OrgIdOf(form.orgId, urlOrg).Some? && user.Some? && (form.productName.None? || Trim(form.productName.value) == "") ==>
      ContinueResult(form, urlOrg, user, svc).outcome == Fail(400, "Product name is required")
    ensures !PassesGuards(form, urlOrg, user) ==>
      ContinueResult(form, urlOrg, user, svc).uploads == [] && ContinueResult(form, urlOrg, user, svc).insert.None?
      && ContinueResult(form, urlOrg, user, svc).outcome.Fail?
    ensures PassesGuards(form, urlOrg, user) ==> |ContinueResult(form, urlOrg, user, svc).uploads| >= 1
  {
    RefusalIffGuards(form, urlOrg, user);
    if PassesGuards(form, urlOrg, user) {
      var org := OrgIdOf(form.orgId, urlOrg).value;
      assert ContinueResult(form, urlOrg, user, svc) == UploadAndInsertResult(org, user.value, form, svc);
      UploadedPrefix(org, user.value, form, svc);
    }
  }

  /**
   * What the uploads and the insert leave behind: a non-empty prefix of
   * the batch's paths, all but the last of them uploaded without error.
   */
  lemma UploadedPrefix(org: string, user: User, form: ProductForm, svc: Services)
    requires form.productName.Some?
    ensures |UploadAndInsertResult(org, user, form, svc).uploads| <= |UploadBatch(form.referenceImages)|
    ensures |UploadBatch(form.referenceImages)| > 0 ==> |UploadAndInsertResult(org, user, form, svc).uploads| >= 1
    ensures UploadAndInsertResult(org, user, form, svc).uploads
      == UploadPaths(org, svc, UploadBatch(form.referenceImages), |UploadAndInsertResult(org, user, form, svc).uploads|)
    ensures forall k :: 0 <= k < |UploadAndInsertResult(org, user, form, svc).uploads| - 1 ==> svc.uploadAt(k).Uploaded?
  {
    var batch := UploadBatch(form.referenceImages);
    var failure := FirstFailure(svc.uploadAt, 0, |batch|);
    if failure.Some? {
      assert UploadAndInsertResult(org, user, form, svc).uploads == UploadPaths(org, svc, batch, failure.value + 1);
    } else {
      assert UploadAndInsertResult(org, user, form, svc).uploads == UploadPaths(org, svc, batch, |batch|);
    }
  }

  /**
   * Only the first six non-empty files are uploaded, in form order, each
   * to its `_references` path (`UploadPathsAt` names path k), and the
   * upload stops after the first failure.
   */
  lemma ContinueUploads(form: ProductForm, urlOrg: Option<string>, user: Option<User>, svc: Services)
    requires PassesGuards(form, urlOrg, user)
    ensures |ContinueResult(form, urlOrg, user, svc).uploads| <= MaxReferenceImages
    ensures |ContinueResult(form, urlOrg, user, svc).uploads| <= |Filter(form.referenceImages, NonEmptyFile)|
    ensures |ContinueResult(form, urlOrg, user, svc).uploads| <= |UploadBatch(form.referenceImages)|
    ensures ContinueResult(form, urlOrg, user, svc).uploads
      == UploadPaths(OrgIdOf(form.orgId, urlOrg).value, svc, UploadBatch(form.referenceImages),
                     |ContinueResult(form, urlOrg, user, svc).uploads|)
    ensures forall k :: 0 <= k < |ContinueResult(form, urlOrg, user, svc).uploads| - 1 ==> svc.uploadAt(k).Uploaded?
  {
    RefusalIffGuards(form, urlOrg, user);
    var org := OrgIdOf(form.orgId, urlOrg).value;
    assert ContinueResult(form, urlOrg, user, svc) == UploadAndInsertResult(org, user.value, form, svc);
    UploadedPrefix(org, user.value, form, svc);
  }

  /**
   * When upload k fails (all earlier ones having succeeded), the action
   * answers 500: naming image k + 1 for an error return, with the
   * `catch`'s message for a throw; no product row is inserted.
   */
  lemma ContinueUploadFailure(form: ProductForm, urlOrg: Option<string>, user: Option<User>, svc: Services, k: nat)
    requires PassesGuards(form, urlOrg, user)
    requires k < |UploadBatch(form.referenceImages)| && !svc.uploadAt(k).Uploaded?
    requires forall j :: 0 <= j < k ==> svc.uploadAt(j).Uploaded?
    ensures svc.uploadAt(k).UploadError? ==>
      ContinueResult(form, urlOrg, user, svc).outcome == Fail(500, UploadFailureMessage(k, svc.uploadAt(k).message))
    ensures svc.uploadAt(k).UploadThrew? ==> ContinueResult(form, urlOrg, user, svc).outcome == Fail(500, CaughtMessage)
    ensures ContinueResult(form, urlOrg, user, svc).insert.None?
    ensures |ContinueResult(form, urlOrg, user, svc).uploads| == k + 1
  {
    RefusalIffGuards(form, urlOrg, user);
    var org := OrgIdOf(form.orgId, urlOrg).value;
    assert ContinueResult(form, urlOrg, user, svc) == UploadAndInsertResult(org, user.value, form, svc);
    FirstFailureAt(svc.uploadAt, 0, |UploadBatch(form.referenceImages)|, k);
  }

  /**
   * When every upload succeeds, the inserted row carries the trimmed
   * name, the trimmed description or null, the tags or null when there
   * are none, and the uploaded paths in upload order; the user then goes
   * on to the organisation when the insert succeeds, and otherwise gets
   * a 500: `Failed to create product` for an error return, the `catch`'s
   * message for a throw.
   */
  lemma ContinueInsert(form: ProductForm, urlOrg: Option<string>, user: Option<User>, svc: Services)
    requires PassesGuards(form, urlOrg, user)
    requires forall j :: 0 <= j < |UploadBatch(form.referenceImages)| ==> svc.uploadAt(j).Uploaded?
    ensures ContinueResult(form, urlOrg, user, svc).insert.Some?
    ensures ContinueResult(form, urlOrg, user, svc).insert.value.name == Trim(form.productName.value)
    ensures ContinueResult(form, urlOrg, user, svc).insert.value.description == TrimmedOrNull(form.description)
    ensures ContinueResult(form, urlOrg, user, svc).insert.value.tags.None? <==> form.tags == []
    ensures ContinueResult(form, urlOrg, user, svc).insert.value.referenceImages
      == Some(ContinueResult(form, urlOrg, user, svc).uploads)
    ensures ContinueResult(form, urlOrg, user, svc).insert.value.organizationId == OrgIdOf(form.orgId, urlOrg).value
    ensures svc.insert.Inserted? ==> ContinueResult(form, urlOrg, user, svc).outcome == Redirect("/orgs/" + OrgIdOf(form.orgId, urlOrg).value)
    ensures svc.insert.InsertError? ==> ContinueResult(form, urlOrg, user, svc).outcome == Fail(500, "Failed to create product")
    ensures svc.insert.InsertThrew? ==> ContinueResult(form, urlOrg, user, svc).outcome == Fail(500, CaughtMessage)
  {
    RefusalIffGuards(form, urlOrg, user);
    var org := OrgIdOf(form.orgId, urlOrg).value;
    assert ContinueResult(form, urlOrg, user, svc) == UploadAndInsertResult(org, user.value, form, svc);
    var batch := UploadBatch(form.referenceImages);
    assert FirstFailure(svc.uploadAt, 0, |batch|).None?;
    assert |batch| >= 1;
  }

  /**
   * The action ends on the organisation page exactly when the form passes
   * the checks, every upload succeeds and the insert succeeds; every other
   * run answers a failure.
   */
  lemma ContinueSucceeds(form: ProductForm, urlOrg: Option<string>, user: Option<User>, svc: Services)
    ensures ContinueResult(form, urlOrg, user, svc).outcome.Redirect? <==>
      PassesGuards(form, urlOrg, user)
      && (forall j :: 0 <= j < |UploadBatch(form.referenceImages)| ==> svc.uploadAt(j).Uploaded?)
      && svc.insert.Inserted?
    ensures !ContinueResult(form, urlOrg, user, svc).outcome.Redirect? ==> ContinueResult(form, urlOrg, user, svc).outcome.Fail?
  {
    RefusalIffGuards(form, urlOrg, user);
    if PassesGuards(form, urlOrg, user) {
      var org := OrgIdOf(form.orgId, urlOrg).value;
      assert ContinueResult(form, urlOrg, user, svc) == UploadAndInsertResult(org, user.value, form, svc);
      var batch := UploadBatch(form.referenceImages);
      var failure := FirstFailure(svc.uploadAt, 0, |batch|);
      if failure.Some? {
        assert !svc.uploadAt(failure.value).Uploaded?;
      }
    }
  }

  /**
   * Skipping the step lands where a successful submission does: on the
   * organisation the URL names.
   */
  lemma SkipEndsLikeContinue(form: ProductForm, org: string, user: User, svc: Services)
    requires org != "" && (form.orgId.None? || form.orgId.value == "")
    requires PassesGuards(form, Some(org), Some(user))
    requires forall j :: 0 <= j < |UploadBatch(form.referenceImages)| ==> svc.uploadAt(j).Uploaded?
    requires svc.insert.Inserted?
    ensures Skip(Some(org)) == ContinueResult(form, Some(org), Some(user), svc).outcome
    ensures Skip(Some(org)) == Redirect("/orgs/" + org)
  {
    ContinueInsert(form, Some(org), Some(user), svc);
  }

  /** A reference path sits in the product's `_references` folder and ends with the file's extension. */
  lemma ReferencePathShape(orgId: string, productId: string, stamp: nat, id: string, fileName: string)
    ensures StartsWith(ReferencePath(orgId, productId, stamp, id, fileName), orgId + "/products/" + productId + "/_references/ref-")
    ensures EndsWith(ReferencePath(orgId, productId, stamp, id, fileName), "." + FileExtension(fileName, "jpg"))
  {
    var head := orgId + "/products/" + productId + "/_references/ref-";
    var middle := NatToString(stamp) + "-" + id;
    var tail := "." + FileExtension(fileName, "jpg");
    ConcatParts(head, middle);
    StartsWithConcat(head + middle, tail, head);
    ConcatParts(head + middle, tail);
  }
}
