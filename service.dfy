/**
 * SyncPackageService: a configuration object whose optional fields are filled
 * by setters and resolved lazily by getters ("explicit value, else derived
 * value, else error"), each getter caching what it derives; and the three
 * registry operations built on those getters.
 */
module Service {
  import opened Wrappers
  import opened PhpStrings
  import opened Registry

  /** The string-valued members of a decoded composer.json. */
  type Manifest = map<string, string>

  /**
   * A file on disk: JSON that decodes to a PHP array (an object, or a list,
   * which has no "name" key), or content that does not (invalid JSON, or a
   * scalar or null at the top level).
   */
  datatype ManifestFile = Decodable(fields: Manifest) | Undecodable

  /** The files present during one run, by path. */
  type Disk = map<string, ManifestFile>

  const ManifestFileName: string := "composer.json"
  const NameKey: string := "name"
  const ManifestNotFound: string := "composer.json file not found"
  const PackageNameNotFound: string := "Package name not found."
  const RepositoryUrlNotFound: string := "Github repository url not found."

  /**
   * `setComposerJsonPath`: every '/' is trimmed from both ends and exactly one
   * is put back at each. The result has one '/' at each end and no second one
   * next to it, except for "//", which is what an empty or all-'/' input gives.
   */
  function NormalizeDir(p: string): (r: string)
    ensures |r| >= 2 && r[0] == '/' && r[|r| - 1] == '/'
    ensures |r| > 2 ==> r[1] != '/' && r[|r| - 2] != '/'
    ensures r == "//" <==> AllOf(p, '/')
  {
    "/" + Trim(p, '/') + "/"
  }

  /** Normalising a normalised directory changes nothing. */
  lemma NormalizeDirIdempotent(p: string)
    ensures NormalizeDir(NormalizeDir(p)) == NormalizeDir(p)
  {
    var r := NormalizeDir(p);
    var core := Trim(p, '/');
    var pre, post := r[..1], r[|r| - 1..];
    assert r == pre + core + post;
    assert AllOf(pre, '/') && AllOf(post, '/');
    NormalizeDirOfPadded(pre, core, post);
  }

  /** Leading and trailing separators, however many, are all replaced by exactly one. */
  lemma NormalizeDirOfPadded(pre: string, core: string, post: string)
    requires AllOf(pre, '/') && AllOf(post, '/')
    requires core == [] || (core[0] != '/' && core[|core| - 1] != '/')
    ensures NormalizeDir(pre + core + post) == "/" + core + "/"
  {
    TrimOfPadded(pre, core, post, '/');
  }

  /** `p` is `core` wrapped in runs of '/' of lengths `i` and `|p| - j`, and `wrapped` is `core` between single slashes. */
  predicate PaddedAt(p: string, i: nat, j: nat, wrapped: string)
  {
    i <= j <= |p|
    && AllOf(p[..i], '/') && AllOf(p[j..], '/')
    && i < j && p[i] != '/' && p[j - 1] != '/'
    && wrapped == "/" + p[i..j] + "/"
  }

  lemma NormalizeDirAt(p: string, i: nat, j: nat, wrapped: string)
    requires PaddedAt(p, i, j, wrapped)
    ensures NormalizeDir(p) == wrapped
  {
    assert p == p[..i] + p[i..j] + p[j..];
    NormalizeDirOfPadded(p[..i], p[i..j], p[j..]);
  }

  // The four examples below name their input through `requires` rather than
  // writing the literal inside `NormalizeDir(...)`: applied to a literal, the
  // verifier unfolds `Trim` on it one character at a time, which is costly.

  /** "foo/bar" without separators at its ends gains one at each. */
  lemma NormalizeDirBare(p: string)
    requires p == "foo/bar"
    ensures NormalizeDir(p) == "/foo/bar/"
  {
    assert PaddedAt(p, 0, 7, "/foo/bar/");
    NormalizeDirAt(p, 0, 7, "/foo/bar/");
  }

  /** A leading separator is kept as the single leading one. */
  lemma NormalizeDirLeading(p: string)
    requires p == "/foo/bar"
    ensures NormalizeDir(p) == "/foo/bar/"
  {
    assert PaddedAt(p, 1, 8, "/foo/bar/");
    NormalizeDirAt(p, 1, 8, "/foo/bar/");
  }

  /** A trailing separator is kept as the single trailing one. */
  lemma NormalizeDirTrailing(p: string)
    requires p == "foo/bar/"
    ensures NormalizeDir(p) == "/foo/bar/"
  {
    assert PaddedAt(p, 0, 7, "/foo/bar/");
    NormalizeDirAt(p, 0, 7, "/foo/bar/");
  }

  /** Doubled separators at both ends collapse to one each. */
  lemma NormalizeDirDoubled(p: string)
    requires p == "//foo/bar//"
    ensures NormalizeDir(p) == "/foo/bar/"
  {
    assert PaddedAt(p, 2, 9, "/foo/bar/");
    NormalizeDirAt(p, 2, 9, "/foo/bar/");
  }

  /** `getComposerJsonData` on a cold cache: `{dir}composer.json`, which must exist and decode. */
  function LoadManifest(disk: Disk, dir: Option<string>): (r: Result<Manifest, Fault>)
    ensures r.Ok? <==> dir.Some? && dir.value + ManifestFileName in disk
                       && disk[dir.value + ManifestFileName].Decodable?
    ensures r.Ok? ==> r.value == disk[dir.value + ManifestFileName].fields
    ensures dir.Some? && dir.value + ManifestFileName !in disk ==> r == Fail(Runtime(ManifestNotFound))
  {
    if dir.None? then Fail(Engine("getComposerJsonPath"))
    else
      var path := dir.value + ManifestFileName;
      if path !in disk then Fail(Runtime(ManifestNotFound))
      else match disk[path]
        case Decodable(fields) => Ok(fields)
        case Undecodable => Fail(Engine("getComposerJsonData"))
  }

  /** A field with no derivation: reading it before it is set is an engine Error. */
  function Required(v: Option<string>, site: string): Result<string, Fault> {
    if v.Some? then Ok(v.value) else Fail(Engine(site))
  }

  /** `getPackageName`: the explicit name, else the manifest's `name`, else an error. */
  function ResolvePackageName(explicit: Option<string>, manifest: Result<Manifest, Fault>): (r: Result<string, Fault>)
    ensures explicit.Some? ==> r == Ok(explicit.value)
    ensures explicit.None? && manifest.Ok? ==>
      r == if NameKey in manifest.value then Ok(manifest.value[NameKey]) else Fail(Runtime(PackageNameNotFound))
    ensures explicit.None? && manifest.Fail? ==> r == Fail(manifest.error)
  {
    if explicit.Some? then Ok(explicit.value)
    else
      var fields :- manifest;
      if NameKey in fields then Ok(fields[NameKey]) else Fail(Runtime(PackageNameNotFound))
  }

  /**
   * `getVendorName`: the explicit vendor, else the part of the package name
   * before its first '/'. The source's further fallbacks (the manifest's name,
   * then an exception) are never reached, because `explode` always has an
   * element 0; a failure to resolve the package name propagates.
   */
  function ResolveVendor(explicit: Option<string>, packageName: Result<string, Fault>): (r: Result<string, Fault>)
    ensures explicit.Some? ==> r == Ok(explicit.value)
    ensures explicit.None? ==> r.Ok? == packageName.Ok?
    ensures explicit.None? && packageName.Fail? ==> r == Fail(packageName.error)
    ensures explicit.None? && packageName.Ok? ==>
      var n, v := packageName.value, r.value;
      |v| <= |n| && v == n[..|v|] && '/' !in v && (|v| == |n| || n[|v|] == '/')
  {
    if explicit.Some? then Ok(explicit.value)
    else
      var name :- packageName;
      Ok(FirstSegment(name))
  }

  /** `getPackagistUsername`: the explicit username, else the vendor. */
  function ResolveUsername(explicit: Option<string>, vendor: Result<string, Fault>): (r: Result<string, Fault>)
    ensures explicit.Some? ==> r == Ok(explicit.value)
    ensures explicit.None? ==> r == vendor
  {
    if explicit.Some? then Ok(explicit.value) else vendor
  }

  /** `getGithubRepositoryUrl`: explicit only; its absence is an error only when it is read. */
  function ResolveRepositoryUrl(explicit: Option<string>): (r: Result<string, Fault>)
    ensures r.Ok? <==> explicit.Some?
    ensures r.Ok? ==> r.value == explicit.value
    ensures r.Fail? ==> r.error == Runtime(RepositoryUrlNotFound)
  {
    if explicit.Some? then Ok(explicit.value) else Fail(Runtime(RepositoryUrlNotFound))
  }

  /** What each getter of a service returns in a given state. */
  datatype View = View(
    token: Result<string, Fault>,
    domain: Result<string, Fault>,
    manifest: Result<Manifest, Fault>,
    packageName: Result<string, Fault>,
    vendor: Result<string, Fault>,
    username: Result<string, Fault>,
    repositoryUrl: Result<string, Fault>)

  /** The view of a service whose fields hold these values. */
  function ViewOf(disk: Disk, token: Option<string>, domain: Option<string>, dir: Option<string>,
                  repositoryUrl: Option<string>, packageName: Option<string>, vendor: Option<string>,
                  username: Option<string>, cache: Option<Manifest>): View
  {
    var manifest := if cache.Some? then Ok(cache.value) else LoadManifest(disk, dir);
    var name := ResolvePackageName(packageName, manifest);
    var vendorView := ResolveVendor(vendor, name);
    View(Required(token, "getApiToken"), Required(domain, "getPackagistDomain"), manifest, name,
         vendorView, ResolveUsername(username, vendorView), ResolveRepositoryUrl(repositoryUrl))
  }

  /**
   * The request `updatePackage` sends, or the first error met while resolving
   * its parts (domain, username, token, package name, in the source's order).
   */
  function UpdatePlan(v: View): (r: Result<Request, Fault>)
    ensures r.Ok? <==> v.domain.Ok? && v.username.Ok? && v.token.Ok? && v.packageName.Ok?
    ensures r.Ok? ==> r.value.Post? && r.value.repositoryUrl == PackageUrl(v.domain.value, v.packageName.value)
    ensures r.Ok? ==> r.value.url == UpdateUrl(v.domain.value, v.username.value, v.token.value)
  {
    var domain :- v.domain;
    var username :- v.username;
    var token :- v.token;
    var name :- v.packageName;
    Ok(Post(UpdateUrl(domain, username, token), PackageUrl(domain, name)))
  }

  /**
   * The request `createPackage` sends, or the first error met while resolving
   * its parts; the repository URL is resolved last, so no request goes out without it.
   */
  function CreatePlan(v: View): (r: Result<Request, Fault>)
    ensures r.Ok? <==> v.domain.Ok? && v.username.Ok? && v.token.Ok? && v.repositoryUrl.Ok?
    ensures r.Ok? ==> r.value.Post? && r.value.repositoryUrl == v.repositoryUrl.value
    ensures r.Ok? ==> r.value.url == CreateUrl(v.domain.value, v.username.value, v.token.value)
    ensures v.domain.Ok? && v.username.Ok? && v.token.Ok? && v.repositoryUrl.Fail? ==>
      r == Fail(v.repositoryUrl.error)
  {
    var domain :- v.domain;
    var username :- v.username;
    var token :- v.token;
    var url :- v.repositoryUrl;
    Ok(Post(CreateUrl(domain, username, token), url))
  }

  /** The request `findPackageByVendorName` sends, or the error met before it. */
  function ListPlan(v: View): (r: Result<Request, Fault>)
    ensures r.Ok? <==> v.domain.Ok? && v.vendor.Ok?
    ensures r.Ok? ==> r.value == Get(ListUrl(v.domain.value, v.vendor.value))
  {
    var domain :- v.domain;
    var vendor :- v.vendor;
    Ok(Get(ListUrl(domain, vendor)))
  }

  /** The requests a plan puts on the wire: its request, or none. */
  function Requests(plan: Result<Request, Fault>): (sent: seq<Request>)
    ensures |sent| <= 1
    ensures sent == [] <==> plan.Fail?
  {
    if plan.Ok? then [plan.value] else []
  }

  /** The end of `updatePackage` from a given view: a resolution error, or the reading of its one reply. */
  function UpdateOutcome(v: View, transport: Transport): (o: Outcome)
    ensures UpdatePlan(v).Fail? ==> o == Error(UpdatePlan(v).error)
    ensures o.NotFound? ==> v.packageName.Ok? && o == NotFound(v.packageName.value)
    ensures UpdatePlan(v).Ok? && transport(UpdatePlan(v).value).TransportFailure? ==>
      o == Error(Runtime(TransportFailed))
    ensures UpdatePlan(v).Ok? && transport(UpdatePlan(v).value).Delivered?
            && transport(UpdatePlan(v).value).response.code != NotFoundCode ==>
      o == CheckResultStatus(transport(UpdatePlan(v).value).response.body)
  {
    match UpdatePlan(v)
    case Fail(f) => Error(f)
    case Ok(request) => InterpretUpdate(transport(request), v.packageName.value)
  }

  /** The end of `createPackage` from a given view: a resolution error, or the body's verdict on its one reply. */
  function CreateOutcome(v: View, transport: Transport): (o: Outcome)
    ensures !o.NotFound?
    ensures CreatePlan(v).Fail? ==> o == Error(CreatePlan(v).error)
    ensures CreatePlan(v).Ok? && transport(CreatePlan(v).value).Delivered? ==>
      o == CheckResultStatus(transport(CreatePlan(v).value).response.body)
    ensures CreatePlan(v).Ok? && transport(CreatePlan(v).value).TransportFailure? ==>
      o == Error(Runtime(TransportFailed))
  {
    match CreatePlan(v)
    case Fail(f) => Error(f)
    case Ok(request) => InterpretCreate(transport(request))
  }

  /**
   * The answer of `findPackageByVendorName` from a given view: true only when
   * the GET got a reply below 400 whose list holds the resolved package name.
   */
  function FindOutcome(v: View, transport: Transport): (r: Result<bool, Fault>)
    ensures ListPlan(v).Fail? ==> r == Fail(ListPlan(v).error)
    ensures r == Ok(true) <==>
      && ListPlan(v).Ok? && v.packageName.Ok?
      && var reply := transport(ListPlan(v).value);
      && reply.Delivered? && reply.response.code < ErrorStatusFrom
      && reply.response.body.packageNames.Some?
      && v.packageName.value in reply.response.body.packageNames.value
    ensures (ListPlan(v).Ok? && transport(ListPlan(v).value).Delivered?
             && transport(ListPlan(v).value).response.code >= ErrorStatusFrom) ==>
      r == Fail(Runtime(TransportFailed))
    ensures ListPlan(v).Ok? && transport(ListPlan(v).value).TransportFailure? ==> r == Fail(Runtime(TransportFailed))
    ensures r == Ok(false) <==>
      && ListPlan(v).Ok?
      && var reply := transport(ListPlan(v).value);
      && reply.Delivered? && reply.response.code < ErrorStatusFrom
      && var names := reply.response.body.packageNames;
      && (names.None? || names.value == [] || (v.packageName.Ok? && v.packageName.value !in names.value))
    ensures r.Fail? <==>
      || ListPlan(v).Fail?
      || var reply := transport(ListPlan(v).value);
         || !reply.Delivered? || reply.response.code >= ErrorStatusFrom
         || (reply.response.body.packageNames.Some? && reply.response.body.packageNames.value != []
             && v.packageName.Fail?)
  {
    match ListPlan(v)
    case Fail(f) => Fail(f)
    case Ok(request) =>
      match DeliverGet(transport(request))
      case Fail(f) => Fail(f)
      case Ok(response) => ListContains(response.body.packageNames, v.packageName)
  }

  /** An update that reaches the registry ends in NotFound exactly on a 404, carrying the resolved name. */
  lemma UpdateNotFoundOnlyOn404(v: View, transport: Transport)
    ensures UpdateOutcome(v, transport).NotFound? <==>
      UpdatePlan(v).Ok? && transport(UpdatePlan(v).value).Delivered?
      && transport(UpdatePlan(v).value).response.code == NotFoundCode
    ensures UpdateOutcome(v, transport).NotFound? ==>
      UpdateOutcome(v, transport).packageName == v.packageName.value
  {
    if UpdatePlan(v).Ok? {
      NotFoundIffCode404(transport(UpdatePlan(v).value), v.packageName.value);
    }
  }

  /**
   * Without a repository URL, create sends nothing and fails; once domain,
   * username and token resolve, the error is the missing URL.
   */
  lemma CreateNeedsRepositoryUrl(disk: Disk, token: string, domain: string, dir: Option<string>,
                                 name: Option<string>, vendor: Option<string>, username: Option<string>,
                                 cache: Option<Manifest>, transport: Transport)
    ensures var v := ViewOf(disk, Some(token), Some(domain), dir, None, name, vendor, username, cache);
      && Requests(CreatePlan(v)) == []
      && CreateOutcome(v, transport).Error?
      && (v.username.Ok? ==> CreateOutcome(v, transport) == Error(Runtime(RepositoryUrlNotFound)))
  {
  }

  /** An explicit package name is the name, whatever the manifest holds or fails to load. */
  lemma ExplicitNameIgnoresManifest(disk: Disk, dir: Option<string>, name: string, vendor: Option<string>)
    ensures var v := ViewOf(disk, None, None, dir, None, Some(name), vendor, None, None);
      v.packageName == Ok(name) && (vendor.None? ==> v.vendor == Ok(FirstSegment(name)))
  {
  }

  /** A manifest naming "acme/widget" gives that package name and the vendor and username "acme". */
  lemma ManifestNameGivesVendor(disk: Disk, dir: string, fields: Manifest)
    requires dir + ManifestFileName in disk && disk[dir + ManifestFileName] == Decodable(fields)
    requires NameKey in fields && fields[NameKey] == "acme/widget"
    ensures var v := ViewOf(disk, None, None, Some(dir), None, None, None, None, None);
      v.packageName == Ok("acme/widget") && v.vendor == Ok("acme") && v.username == Ok("acme")
  {
    FirstSegmentOfJoined("acme", "widget");
    assert "acme" + "/" + "widget" == "acme/widget";
  }

  /** A manifest without `name` and no explicit name: every operation that needs the name fails so. */
  lemma MissingNameIsReported(disk: Disk, dir: string, fields: Manifest)
    requires dir + ManifestFileName in disk && disk[dir + ManifestFileName] == Decodable(fields)
    requires NameKey !in fields
    ensures var v := ViewOf(disk, None, None, Some(dir), None, None, None, None, None);
      v.packageName == Fail(Runtime(PackageNameNotFound)) && v.vendor == v.packageName
      && v.username == v.packageName
  {
  }

  class SyncPackageService {
    var apiToken: Option<string>
    var packagistUsername: Option<string>
    var packageName: Option<string>
    var packagistDomain: Option<string>
    var composerJsonPath: Option<string>
    var githubRepositoryUrl: Option<string>
    var vendorName: Option<string>
    var composerJsonData: Option<Manifest>

    /** The file system the service reads its manifest from. */
    const disk: Disk

    /** How many times the manifest file has been decoded into the cache. */
    ghost var manifestLoads: nat
    /** Every request this service has put on the wire, in order. */
    ghost var sent: seq<Request>

    /** The manifest is loaded at most once: exactly when it is cached. */
    ghost predicate Valid()
      reads this`composerJsonData, this`manifestLoads
    {
      manifestLoads == if composerJsonData.Some? then 1 else 0
    }

    /** What each getter returns in the current state. */
    function Resolved(): View
      reads this
    {
      ViewOf(disk, apiToken, packagistDomain, composerJsonPath, githubRepositoryUrl,
             packageName, vendorName, packagistUsername, composerJsonData)
    }

    /** The caches only ever go from empty to filled. */
    twostate predicate CachesOnlyFill()
      reads this
    {
      && (old(packageName).Some? ==> packageName == old(packageName))
      && (old(vendorName).Some? ==> vendorName == old(vendorName))
      && (old(packagistUsername).Some? ==> packagistUsername == old(packagistUsername))
      && (old(composerJsonData).Some? ==> composerJsonData == old(composerJsonData))
    }

    constructor (disk: Disk)
      ensures this.disk == disk && Valid() && sent == []
      ensures apiToken.None? && packagistUsername.None? && packageName.None? && packagistDomain.None?
      ensures composerJsonPath.None? && githubRepositoryUrl.None? && vendorName.None? && composerJsonData.None?
    {
      this.disk := disk;
      apiToken := None;
      packagistUsername := None;
      packageName := None;
      packagistDomain := None;
      composerJsonPath := None;
      githubRepositoryUrl := None;
      vendorName := None;
      composerJsonData := None;
      manifestLoads := 0;
      sent := [];
    }

    method SetVendorName(vendor: string)
      modifies this`vendorName
      ensures vendorName == Some(vendor)
    {
      vendorName := Some(vendor);
    }

    method SetApiToken(token: string)
      modifies this`apiToken
      ensures apiToken == Some(token)
    {
      apiToken := Some(token);
    }

    method SetPackagistUsername(username: Option<string>)
      modifies this`packagistUsername
      ensures packagistUsername == username
    {
      packagistUsername := username;
    }

    method SetPackageName(name: Option<string>)
      modifies this`packageName
      ensures packageName == name
    {
      packageName := name;
    }

    method SetPackagistDomain(domain: Option<string>)
      modifies this`packagistDomain
      ensures packagistDomain == domain
    {
      packagistDomain := domain;
    }

    method SetComposerJsonPath(path: string)
      modifies this`composerJsonPath
      ensures composerJsonPath == Some(NormalizeDir(path))
    {
      composerJsonPath := Some(NormalizeDir(path));
    }

    method SetGithubRepositoryUrl(url: Option<string>)
      modifies this`githubRepositoryUrl
      ensures githubRepositoryUrl == url
    {
      githubRepositoryUrl := url;
    }

    method GetApiToken() returns (r: Result<string, Fault>)
      ensures r.Ok? <==> apiToken.Some?
      ensures r.Ok? ==> r.value == apiToken.value
      ensures r == Resolved().token
    {
      r := Required(apiToken, "getApiToken");
    }

    method GetPackagistDomain() returns (r: Result<string, Fault>)
      ensures r.Ok? <==> packagistDomain.Some?
      ensures r.Ok? ==> r.value == packagistDomain.value
      ensures r == Resolved().domain
    {
      r := Required(packagistDomain, "getPackagistDomain");
    }

    method GetComposerJsonPath() returns (r: Result<string, Fault>)
      ensures r.Ok? <==> composerJsonPath.Some?
      ensures r.Ok? ==> r.value == composerJsonPath.value
      ensures r.Fail? ==> r.error == Engine("getComposerJsonPath")
    {
      r := Required(composerJsonPath, "getComposerJsonPath");
    }

    method GetGithubRepositoryUrl() returns (r: Result<string, Fault>)
      ensures r == Resolved().repositoryUrl
      ensures r.Fail? <==> githubRepositoryUrl.None?
      ensures r.Ok? ==> r.value == githubRepositoryUrl.value
    {
      if githubRepositoryUrl.None? {
        return Fail(Runtime(RepositoryUrlNotFound));
      }
      r := Ok(githubRepositoryUrl.value);
    }

    /** `getComposerJsonData`: a cached manifest is returned without touching the file. */
    method GetComposerJsonData() returns (r: Result<Manifest, Fault>)
      requires Valid()
      modifies this`composerJsonData, this`manifestLoads
      ensures Valid() && Resolved() == old(Resolved()) && CachesOnlyFill()
      ensures r == old(Resolved()).manifest
      ensures r.Ok? ==> composerJsonData == Some(r.value)
      ensures old(composerJsonData).Some? ==> unchanged(this)
    {
      if composerJsonData.Some? {
        return Ok(composerJsonData.value);
      }
      var dir := GetComposerJsonPath();
      if dir.Fail? {
        return Fail(dir.error);
      }
      var path := dir.value + ManifestFileName;
      if path !in disk {
        return Fail(Runtime(ManifestNotFound));
      }
      match disk[path]
      case Undecodable =>
        r := Fail(Engine("getComposerJsonData"));
      case Decodable(fields) =>
        composerJsonData := Some(fields);
        manifestLoads := manifestLoads + 1;
        r := Ok(fields);
    }

    /** `getPackageName`: an explicit name is returned as it is and the manifest is not read. */
    method GetPackageName() returns (r: Result<string, Fault>)
      requires Valid()
      modifies this`packageName, this`composerJsonData, this`manifestLoads
      ensures Valid() && Resolved() == old(Resolved()) && CachesOnlyFill()
      ensures r == old(Resolved()).packageName
      ensures r.Ok? ==> packageName == Some(r.value)
      ensures old(packageName).Some? ==> unchanged(this)
    {
      if packageName.Some? {
        return Ok(packageName.value);
      }
      var manifest := GetComposerJsonData();
      if manifest.Fail? {
        return Fail(manifest.error);
      }
      if NameKey !in manifest.value {
        return Fail(Runtime(PackageNameNotFound));
      }
      packageName := Some(manifest.value[NameKey]);
      r := Ok(manifest.value[NameKey]);
    }

    /** `getVendorName`: the vendor is derived from the package name once and cached. */
    method GetVendorName() returns (r: Result<string, Fault>)
      requires Valid()
      modifies this`vendorName, this`packageName, this`composerJsonData, this`manifestLoads
      ensures Valid() && Resolved() == old(Resolved()) && CachesOnlyFill()
      ensures r == old(Resolved()).vendor
      ensures r.Ok? ==> vendorName == Some(r.value)
      ensures old(vendorName).Some? ==> unchanged(this)
    {
      if vendorName.Some? {
        return Ok(vendorName.value);
      }
      var name := GetPackageName();
      if name.Fail? {
        return Fail(name.error);
      }
      var vendor := FirstSegment(name.value);
      vendorName := Some(vendor);
      r := Ok(vendor);
    }

    /** `getPackagistUsername`: the explicit username, else the vendor, which is then stored. */
    method GetPackagistUsername() returns (r: Result<string, Fault>)
      requires Valid()
      modifies this`packagistUsername, this`vendorName, this`packageName, this`composerJsonData, this`manifestLoads
      ensures Valid() && Resolved() == old(Resolved()) && CachesOnlyFill()
      ensures r == old(Resolved()).username
      ensures r.Ok? ==> packagistUsername == Some(r.value)
      ensures old(packagistUsername).Some? ==> unchanged(this)
    {
      if packagistUsername.Some? {
        return Ok(packagistUsername.value);
      }
      var vendor := GetVendorName();
      if vendor.Fail? {
        return Fail(vendor.error);
      }
      packagistUsername := Some(vendor.value);
      r := vendor;
    }

    /** `sendPost`: the request goes on the wire; a transport failure becomes one fixed error. */
    method SendPost(url: string, repositoryUrl: string, transport: Transport) returns (r: Result<Response, Fault>)
      modifies this`sent
      ensures sent == old(sent) + [Post(url, repositoryUrl)]
      ensures r == DeliverPost(transport(Post(url, repositoryUrl)))
    {
      var request := Post(url, repositoryUrl);
      sent := sent + [request];
      r := DeliverPost(transport(request));
    }

    /** `sendGet`: the request goes on the wire; a failure or a 4xx/5xx reply becomes one fixed error. */
    method SendGet(url: string, transport: Transport) returns (r: Result<Response, Fault>)
      modifies this`sent
      ensures sent == old(sent) + [Get(url)]
      ensures r == DeliverGet(transport(Get(url)))
    {
      var request := Get(url);
      sent := sent + [request];
      r := DeliverGet(transport(request));
    }

    /** The URL and body `createPackage` builds: domain, username, token, then the repository URL. */
    method BuildCreateRequest() returns (plan: Result<Request, Fault>)
      requires Valid()
      modifies this`packagistUsername, this`vendorName, this`packageName, this`composerJsonData, this`manifestLoads
      ensures Valid() && Resolved() == old(Resolved()) && CachesOnlyFill()
      ensures plan == CreatePlan(old(Resolved()))
    {
      var domain := GetPackagistDomain();
      if domain.Fail? {
        return Fail(domain.error);
      }
      var username := GetPackagistUsername();
      if username.Fail? {
        return Fail(username.error);
      }
      var token := GetApiToken();
      if token.Fail? {
        return Fail(token.error);
      }
      var url := GetGithubRepositoryUrl();
      if url.Fail? {
        return Fail(url.error);
      }
      plan := Ok(Post(CreateUrl(domain.value, username.value, token.value), url.value));
    }

    /** `createPackage`: posts the repository URL and judges the reply by its body. */
    method CreatePackage(transport: Transport) returns (o: Outcome)
      requires Valid()
      modifies this`packagistUsername, this`vendorName, this`packageName, this`composerJsonData,
               this`manifestLoads, this`sent
      ensures Valid() && Resolved() == old(Resolved()) && CachesOnlyFill()
      ensures o == CreateOutcome(old(Resolved()), transport)
      ensures sent == old(sent) + Requests(CreatePlan(old(Resolved())))
    {
      var plan := BuildCreateRequest();
      if plan.Fail? {
        return Error(plan.error);
      }
      var response := SendPost(plan.value.url, plan.value.repositoryUrl, transport);
      if response.Fail? {
        return Error(response.error);
      }
      o := CheckResultStatus(response.value.body);
    }

    /** The URL and body `updatePackage` builds: domain, username, token, then the package name. */
    method BuildUpdateRequest() returns (plan: Result<Request, Fault>)
      requires Valid()
      modifies this`packagistUsername, this`vendorName, this`packageName, this`composerJsonData, this`manifestLoads
      ensures Valid() && Resolved() == old(Resolved()) && CachesOnlyFill()
      ensures plan == UpdatePlan(old(Resolved()))
    {
      var domain := GetPackagistDomain();
      if domain.Fail? {
        return Fail(domain.error);
      }
      var username := GetPackagistUsername();
      if username.Fail? {
        return Fail(username.error);
      }
      var token := GetApiToken();
      if token.Fail? {
        return Fail(token.error);
      }
      var name := GetPackageName();
      if name.Fail? {
        return Fail(name.error);
      }
      plan := Ok(Post(UpdateUrl(domain.value, username.value, token.value), PackageUrl(domain.value, name.value)));
    }

    /** `updatePackage`: posts the package's own URL; a 404 raises NotFound with the name. */
    method UpdatePackage(transport: Transport) returns (o: Outcome)
      requires Valid()
      modifies this`packagistUsername, this`vendorName, this`packageName, this`composerJsonData,
               this`manifestLoads, this`sent
      ensures Valid() && Resolved() == old(Resolved()) && CachesOnlyFill()
      ensures o == UpdateOutcome(old(Resolved()), transport)
      ensures sent == old(sent) + Requests(UpdatePlan(old(Resolved())))
    {
      var plan := BuildUpdateRequest();
      if plan.Fail? {
        return Error(plan.error);
      }
      var response := SendPost(plan.value.url, plan.value.repositoryUrl, transport);
      if response.Fail? {
        return Error(response.error);
      }
      if response.value.code == NotFoundCode {
        var name := GetPackageName();
        return NotFound(name.value);
      }
      o := CheckResultStatus(response.value.body);
    }

    /** The URL `findPackageByVendorName` builds: domain, then vendor. */
    method BuildListRequest() returns (plan: Result<Request, Fault>)
      requires Valid()
      modifies this`vendorName, this`packageName, this`composerJsonData, this`manifestLoads
      ensures Valid() && Resolved() == old(Resolved()) && CachesOnlyFill()
      ensures plan == ListPlan(old(Resolved()))
    {
      var domain := GetPackagistDomain();
      if domain.Fail? {
        return Fail(domain.error);
      }
      var vendor := GetVendorName();
      if vendor.Fail? {
        return Fail(vendor.error);
      }
      plan := Ok(Get(ListUrl(domain.value, vendor.value)));
    }

    /**
     * The `foreach` of `findPackageByVendorName` over a non-empty list: the
     * package name is resolved afresh for each entry, and the search stops at
     * the first match.
     */
    method SearchList(names: seq<string>) returns (r: Result<bool, Fault>)
      requires Valid() && names != []
      modifies this`packageName, this`composerJsonData, this`manifestLoads
      ensures Valid() && Resolved() == old(Resolved()) && CachesOnlyFill()
      ensures r == ListContains(Some(names), old(Resolved()).packageName)
    {
      ghost var v := Resolved();
      var i := 0;
      while i < |names|
        invariant 0 <= i <= |names|
        invariant Valid() && Resolved() == v && CachesOnlyFill()
        invariant i > 0 ==> v.packageName.Ok? && v.packageName.value !in names[..i]
      {
        var name := GetPackageName();
        if name.Fail? {
          return Fail(name.error);
        }
        if name.value == names[i] {
          return Ok(true);
        }
        assert names[..i + 1] == names[..i] + [names[i]];
        i := i + 1;
      }
      assert names[..i] == names;
      r := Ok(false);
    }

    /** `findPackageByVendorName`: a GET of the vendor's list, then a membership test of the package name. */
    method FindPackageByVendorName(transport: Transport) returns (r: Result<bool, Fault>)
      requires Valid()
      modifies this`vendorName, this`packageName, this`composerJsonData, this`manifestLoads, this`sent
      ensures Valid() && Resolved() == old(Resolved()) && CachesOnlyFill()
      ensures r == FindOutcome(old(Resolved()), transport)
      ensures sent == old(sent) + Requests(ListPlan(old(Resolved())))
    {
      var plan := BuildListRequest();
      if plan.Fail? {
        return Fail(plan.error);
      }
      var response := SendGet(plan.value.url, transport);
      if response.Fail? {
        return Fail(response.error);
      }
      var names := response.value.body.packageNames;
      if names.None? || names.value == [] {
        return Ok(false);
      }
      r := SearchList(names.value);
    }
  }
}
