/**
 * SharePoint: `list_documents`, `upload_document`, `download_document`,
 * and the default-site rule the three share.
 */
module Documents {
  import opened Wrappers
  import opened Errors
  import opened Records

  type Bytes = seq<bv8>

  /** Where in the site's drive a request points. */
  datatype Location = DriveRoot | DrivePath(path: string)

  /** The site used when no `site_id` is given: the first site Graph lists,
      provided it has an id. */
  function DefaultSite(sites: Option<Page<Site>>): (r: Result<string, ValueError>)
    ensures r.Success? <==> sites.Some? && Items(sites.value) != [] && Truthy(Items(sites.value)[0].id)
    ensures r.Success? ==> r.value == Items(sites.value)[0].id.value
    ensures r.Failure? && (sites.None? || Items(sites.value) == []) ==> r.error == NoSharePointSites
    ensures r.Failure? && sites.Some? && Items(sites.value) != [] ==> r.error == SiteHasNoId
  {
    if sites.None? || Items(sites.value) == [] then Failure(NoSharePointSites)
    else
      var first := Items(sites.value)[0];
      if !Truthy(first.id) then Failure(SiteHasNoId) else Success(first.id.value)
  }

  /** The site a request goes to: `site_id` when given, else the default. */
  function SiteFor(siteId: Option<string>, sites: Option<Page<Site>>): (r: Result<string, ValueError>)
    ensures Truthy(siteId) ==> r == Success(siteId.value)
    ensures !Truthy(siteId) ==> r == DefaultSite(sites)
  {
    if Truthy(siteId) then Success(siteId.value) else DefaultSite(sites)
  }

  /** The folder `list_documents` lists: the drive root when `folder_path`
      is absent, empty or "root", else that path. */
  function ListedFolder(folderPath: Option<string>): (r: Location)
    ensures r == DriveRoot <==> !Truthy(folderPath) || folderPath.value == "root"
    ensures r.DrivePath? ==> r.path == folderPath.value
  {
    if Truthy(folderPath) && folderPath.value != "root" then DrivePath(folderPath.value) else DriveRoot
  }

  /** The drive listing `list_documents` fetches, if any. */
  function ListingRequest(folderPath: Option<string>, siteId: Option<string>, sites: Option<Page<Site>>)
    : (r: Option<(string, Location)>)
    ensures r.None? <==> SiteFor(siteId, sites).Failure?
    ensures r.Some? ==> r.value == (SiteFor(siteId, sites).value, ListedFolder(folderPath))
  {
    match SiteFor(siteId, sites)
    case Failure(_) => None
    case Success(site) => Some((site, ListedFolder(folderPath)))
  }

  /** `list_documents`: empty when no site can be found (never raises);
      otherwise every child of the listed folder, in order. */
  function ListDocuments(folderPath: Option<string>, siteId: Option<string>, sites: Option<Page<Site>>,
                         children: Page<DriveItem>): (r: seq<Document>)
    ensures ListingRequest(folderPath, siteId, sites).None? ==> r == []
    ensures ListingRequest(folderPath, siteId, sites).Some? ==>
      |r| == |Items(children)| && forall i :: 0 <= i < |r| ==> r[i] == ToDocument(Items(children)[i], folderPath)
  {
    if ListingRequest(folderPath, siteId, sites).None? then []
    else
      var items := Items(children);
      seq(|items|, i requires 0 <= i < |items| => ToDocument(items[i], folderPath))
  }

  /** The path an upload writes to: `folder_path/name`, or just `name` when
      `folder_path` is absent, empty or "root". */
  function UploadPath(name: string, folderPath: Option<string>): (r: string)
    ensures Truthy(folderPath) && folderPath.value != "root" ==> r == folderPath.value + "/" + name
    ensures !Truthy(folderPath) || folderPath.value == "root" ==> r == name
    ensures |name| <= |r| && r[|r| - |name|..] == name
  {
    if Truthy(folderPath) && folderPath.value != "root" then folderPath.value + "/" + name else name
  }

  /** `id=result.id if result else ""`, as written: a created item without
      an id gives no string at all. */
  function UploadedIdAsWritten(created: Option<DriveItem>): (r: Option<string>)
    ensures created.None? ==> r == Some("")
    ensures created.Some? ==> r == created.value.id
  {
    if created.Some? then created.value.id else Some("")
  }

  /** The same choice with the empty string also for an item without id. */
  function UploadedId(created: Option<DriveItem>): (r: string)
    ensures UploadedIdAsWritten(created).Some? ==> r == UploadedIdAsWritten(created).value
    ensures UploadedIdAsWritten(created).None? ==> r == ""
  {
    if created.Some? then created.value.id.GetOr("") else ""
  }

  /** A created item without an id. */
  lemma UploadedIdCanBeAbsent()
    ensures UploadedIdAsWritten(Some(DriveItem(None, None, None, None, None))) == None
    ensures UploadedId(Some(DriveItem(None, None, None, None, None))) == ""
  {
  }

  /** `upload_document`: raises when no site can be found; otherwise writes
      the content to `UploadPath` and describes the created item. */
  function UploadDocument(name: string, folderPath: Option<string>, siteId: Option<string>,
                          sites: Option<Page<Site>>, created: Option<DriveItem>): (r: Result<Document, ValueError>)
    ensures r.Failure? <==> SiteFor(siteId, sites).Failure?
    ensures r.Failure? ==> r.error == SiteFor(siteId, sites).error
    ensures r.Success? ==> r.value.name == name && r.value.path == UploadPath(name, folderPath)
    ensures r.Success? ==> r.value.id == UploadedId(created)
    ensures r.Success? ==> r.value.webUrl == (if created.Some? then created.value.webUrl else None)
    ensures r.Success? ==> r.value.size.None? && !r.value.isFolder
  {
    match SiteFor(siteId, sites)
    case Failure(e) => Failure(e)
    case Success(_) =>
      Success(Document(UploadedId(created), name, UploadPath(name, folderPath),
                       if created.Some? then created.value.webUrl else None, None, false))
  }

  /** `download_document`: raises when no site can be found; otherwise the
      content Graph returns, or no bytes when it returns none. */
  function DownloadDocument(siteId: Option<string>, sites: Option<Page<Site>>, content: Option<Bytes>)
    : (r: Result<Bytes, ValueError>)
    ensures r.Failure? <==> SiteFor(siteId, sites).Failure?
    ensures r.Failure? ==> r.error == SiteFor(siteId, sites).error
    ensures r.Success? ==> r.value == content.GetOr([])
  {
    match SiteFor(siteId, sites)
    case Failure(e) => Failure(e)
    case Success(_) => Success(content.GetOr([]))
  }

  /** The three operations agree on the site: listing is empty exactly where
      upload and download raise. */
  lemma SiteRuleShared(folderPath: Option<string>, name: string, siteId: Option<string>,
                       sites: Option<Page<Site>>, children: Page<DriveItem>,
                       created: Option<DriveItem>, content: Option<Bytes>)
    requires Items(children) != []
    ensures ListDocuments(folderPath, siteId, sites, children) == []
        <==> UploadDocument(name, folderPath, siteId, sites, created).Failure?
    ensures UploadDocument(name, folderPath, siteId, sites, created).Failure?
        <==> DownloadDocument(siteId, sites, content).Failure?
  {
  }

  /** Uploading `f.txt` into `docs` writes `docs/f.txt`; into "root" or no
      folder it writes `f.txt`. */
  lemma UploadPathExamples()
    ensures UploadPath("f.txt", Some("docs")) == "docs/f.txt"
    ensures UploadPath("f.txt", Some("root")) == "f.txt"
    ensures UploadPath("f.txt", None) == "f.txt"
  {
  }
}
