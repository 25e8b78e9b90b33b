/**
 * Public URLs of files kept in the storage bucket: the database stores a
 * path relative to the bucket, and the URL is the configured storage
 * base URL, a slash and that path.
 */
module Storage {

  import opened Wrappers
  import opened Strings

  /** `getStorageUrl`: `null` and the empty path have no URL. */
  function GetStorageUrl(storageBase: string, filePath: Option<string>): (r: Option<string>)
    ensures r.Some? <==> filePath.Some? && filePath.value != ""
    ensures r.Some? ==> StartsWith(r.value, storageBase + "/")
  {
    match filePath
    case None => None
    case Some(p) => if p == "" then None else Some(storageBase + "/" + p)
  }

  /** The stored path can be read back from the URL. */
  lemma StoragePathReadBack(storageBase: string, filePath: string)
    requires filePath != ""
    ensures GetStorageUrl(storageBase, Some(filePath)).Some?
    ensures GetStorageUrl(storageBase, Some(filePath)).value[|storageBase| + 1..] == filePath
  {
    var url := GetStorageUrl(storageBase, Some(filePath)).value;
    assert url == (storageBase + "/") + filePath;
  }

  /**
   * `getOrganizationLogoUrl`: an organisation without a logo has no logo
   * URL, and otherwise the URL lies under the storage base and gives the
   * stored logo path back.
   */
  function GetOrganizationLogoUrl(storageBase: string, logoPath: Option<string>): (r: Option<string>)
    ensures r.None? <==> logoPath.None? || logoPath.value == ""
    ensures r.Some? ==> StartsWith(r.value, storageBase + "/") && r.value[|storageBase| + 1..] == logoPath.value
    ensures r == GetStorageUrl(storageBase, logoPath)
  {
    if logoPath.Some? && logoPath.value != "" then
      StoragePathReadBack(storageBase, logoPath.value);
      GetStorageUrl(storageBase, logoPath)
    else
      GetStorageUrl(storageBase, logoPath)
  }
}
