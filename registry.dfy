/**
 * What the service says to a Packagist-compatible registry and how it reads
 * the answers: request URLs and bodies, the outcome of an HTTP exchange, and
 * the `status`/`message` interpretation of a JSON reply.
 */
module Registry {
  import opened Wrappers
  import opened PhpStrings

  /** An error the service raises: a RuntimeException with its message, or a PHP engine Error. */
  datatype Fault =
    | Runtime(message: string)
    /** A TypeError or an uninitialised typed property, raised at the named member. */
    | Engine(site: string)

  /** What a registry operation ends in; NotFound is the package-not-found exception. */
  datatype Outcome = Success | NotFound(packageName: string) | Error(fault: Fault)

  /** The `message` member of a reply: a scalar string or a list of strings. */
  datatype MessageValue = Text(text: string) | Items(items: seq<string>)

  /**
   * The members of a decoded JSON reply that the service reads. A reply that
   * is not valid JSON decodes to null, on which every member is absent.
   */
  datatype Body = Body(status: Option<string>, message: Option<MessageValue>, packageNames: Option<seq<string>>)

  /** A POST carries the JSON document {"repository": {"url": repositoryUrl}}. */
  datatype Request = Post(url: string, repositoryUrl: string) | Get(url: string)

  datatype Response = Response(code: int, body: Body)

  /**
   * What the HTTP client hands back: a response with any status code, or a
   * failure to exchange one at all. Whether a 4xx/5xx response then counts as
   * an error depends on the request (see `DeliverPost` and `DeliverGet`).
   */
  datatype Reply = Delivered(response: Response) | TransportFailure

  /** The network, as seen by one run: the reply each request gets. */
  type Transport = Request -> Reply

  const NotFoundCode: int := 404
  /** Guzzle's default `http_errors` raises on every status code from here up. */
  const ErrorStatusFrom: int := 400
  const SuccessStatus: string := "success"
  const TransportFailed: string := "An error occurred while updating the package."
  const StatusCheckFailed: string := "An error occurred while checking the result status."
  const NotFoundPrefix: string := "Could not find a package: "
  const Scheme: string := "https://"

  /** `https://{domain}/{path}`: every URL the service builds has this shape. */
  function RegistryUrl(domain: string, path: string): (url: string)
    ensures |url| == |Scheme| + |domain| + 1 + |path|
    ensures url[..|Scheme|] == Scheme && url[|Scheme|..|Scheme| + |domain|] == domain
    ensures url[|Scheme| + |domain|] == '/' && url[|Scheme| + |domain| + 1..] == path
  {
    Scheme + domain + "/" + path
  }

  /** The create endpoint: its path is the query, ending in the token. */
  function CreateUrl(domain: string, username: string, token: string): (url: string)
    ensures |url| > |Scheme| + |domain| && url[|Scheme| + |domain| + 1..] == "api/create-package?username=" + username + "&apiToken=" + token
    ensures url[..|Scheme| + |domain| + 1] == Scheme + domain + "/"
    ensures '/' !in domain ==> Host(url) == Some(domain)
  {
    var path := "api/create-package?username=" + username + "&apiToken=" + token;
    HostOfRegistryUrl(domain, path);
    RegistryUrl(domain, path)
  }

  /** The update endpoint: the same query as create's on the update path. */
  function UpdateUrl(domain: string, username: string, token: string): (url: string)
    ensures |url| > |Scheme| + |domain| && url[|Scheme| + |domain| + 1..] == "api/update-package?username=" + username + "&apiToken=" + token
    ensures url[..|Scheme| + |domain| + 1] == Scheme + domain + "/"
    ensures '/' !in domain ==> Host(url) == Some(domain)
  {
    var path := "api/update-package?username=" + username + "&apiToken=" + token;
    HostOfRegistryUrl(domain, path);
    RegistryUrl(domain, path)
  }

  /** The repository URL an update names: the package's page on the registry itself. */
  function PackageUrl(domain: string, packageName: string): (url: string)
    ensures |url| > |Scheme| + |domain| && url[|Scheme| + |domain| + 1..] == "packages/" + packageName
    ensures url[..|Scheme| + |domain| + 1] == Scheme + domain + "/"
    ensures '/' !in domain ==> Host(url) == Some(domain)
  {
    var path := "packages/" + packageName;
    HostOfRegistryUrl(domain, path);
    RegistryUrl(domain, path)
  }

  /** The vendor listing: the vendor is the query value, at the very end. */
  function ListUrl(domain: string, vendor: string): (url: string)
    ensures |url| > |Scheme| + |domain| && url[|Scheme| + |domain| + 1..] == "packages/list.json?vendor=" + vendor
    ensures |url| >= |vendor| && url[|url| - |vendor|..] == vendor
    ensures url[..|Scheme| + |domain| + 1] == Scheme + domain + "/"
    ensures '/' !in domain ==> Host(url) == Some(domain)
  {
    var path := "packages/list.json?vendor=" + vendor;
    HostOfRegistryUrl(domain, path);
    assert path[|path| - |vendor|..] == vendor;
    RegistryUrl(domain, path)
  }

  /** Update and create never share an endpoint: the paths differ in their fifth character. */
  lemma UpdateAndCreateEndpointsDiffer(domain: string, username: string, token: string)
    ensures UpdateUrl(domain, username, token) != CreateUrl(domain, username, token)
  {
    var k := |Scheme| + |domain| + 1;
    var u, c := UpdateUrl(domain, username, token), CreateUrl(domain, username, token);
    assert u[k..][4] == 'u' && c[k..][4] == 'c';
  }

  /** The host part of an https URL: what follows the scheme, up to the first '/'. */
  function Host(url: string): Option<string> {
    if |url| >= |Scheme| && url[..|Scheme|] == Scheme then Some(FirstSegment(url[|Scheme|..])) else None
  }

  /** The message of the package-not-found exception. */
  function NotFoundMessage(packageName: string): (m: string)
    ensures |m| >= |NotFoundPrefix| && m[..|NotFoundPrefix|] == NotFoundPrefix && m[|NotFoundPrefix|..] == packageName
  {
    NotFoundPrefix + packageName
  }

  /**
   * `sendPost`, with `http_errors => false`: every response is handed on
   * whatever its status code; a failed exchange becomes one fixed RuntimeException.
   */
  function DeliverPost(reply: Reply): (r: Result<Response, Fault>)
    ensures r.Ok? <==> reply.Delivered?
    ensures r.Ok? ==> r.value == reply.response
    ensures r.Fail? ==> r.error == Runtime(TransportFailed)
  {
    match reply
    case Delivered(response) => Ok(response)
    case TransportFailure => Fail(Runtime(TransportFailed))
  }

  /**
   * `sendGet`, with Guzzle's default `http_errors`: a 4xx/5xx response raises
   * a GuzzleException just as a failed exchange does, and both become the
   * same fixed RuntimeException.
   */
  function DeliverGet(reply: Reply): (r: Result<Response, Fault>)
    ensures r.Ok? <==> reply.Delivered? && reply.response.code < ErrorStatusFrom
    ensures r.Ok? ==> r.value == reply.response
    ensures r.Fail? ==> r.error == Runtime(TransportFailed)
  {
    match reply
    case Delivered(response) =>
      if response.code < ErrorStatusFrom then Ok(response) else Fail(Runtime(TransportFailed))
    case TransportFailure => Fail(Runtime(TransportFailed))
  }

  /** Below 400 a GET reply is read as a POST reply is; from 400 up it is the transport error whatever the body. */
  lemma GetAndPostDeliveryDiffer(reply: Reply)
    ensures reply.Delivered? && reply.response.code >= ErrorStatusFrom ==>
      DeliverGet(reply) == Fail(Runtime(TransportFailed)) && DeliverPost(reply) == Ok(reply.response)
    ensures !(reply.Delivered? && reply.response.code >= ErrorStatusFrom) ==> DeliverGet(reply) == DeliverPost(reply)
  {
  }

  /** The reply's `message` is a truthy string. */
  predicate TruthyText(body: Body) {
    body.message.Some? && body.message.value.Text? && Truthy(body.message.value.text)
  }

  /** The reply's `message` is a list whose first element is truthy. */
  predicate TruthyFirstItem(body: Body) {
    body.message.Some? && body.message.value.Items? && |body.message.value.items| > 0
    && Truthy(body.message.value.items[0])
  }

  /**
   * The message raised for an unsuccessful reply: the first element of a list
   * `message`, else a scalar `message`, replaced by a fixed text when that is
   * missing or falsy ("" or "0").
   */
  function ErrorMessage(body: Body): (m: string)
    ensures Truthy(m)
    ensures TruthyText(body) ==> m == body.message.value.text
    ensures TruthyFirstItem(body) ==> m == body.message.value.items[0]
    ensures !TruthyText(body) && !TruthyFirstItem(body) ==> m == StatusCheckFailed
  {
    var message: Option<string> :=
      match body.message
      case None => None
      case Some(Text(s)) => Some(s)
      case Some(Items(xs)) => if |xs| > 0 then Some(xs[0]) else None;
    if message.Some? && Truthy(message.value) then message.value else StatusCheckFailed
  }

  /** `checkResultStatus`: only a `status` of exactly "success" is a success. */
  function CheckResultStatus(body: Body): (o: Outcome)
    ensures o.Success? <==> body.status == Some(SuccessStatus)
    ensures !o.Success? ==> o == Error(Runtime(ErrorMessage(body)))
  {
    if body.status == Some(SuccessStatus) then Success else Error(Runtime(ErrorMessage(body)))
  }

  /** The create call judges every delivered reply by its body alone. */
  function InterpretCreate(reply: Reply): (o: Outcome)
    ensures !o.NotFound?
    ensures reply.Delivered? ==> o == CheckResultStatus(reply.response.body)
    ensures reply.TransportFailure? ==> o == Error(Runtime(TransportFailed))
  {
    match DeliverPost(reply)
    case Fail(f) => Error(f)
    case Ok(response) => CheckResultStatus(response.body)
  }

  /** The update call: status code 404 means the package is absent, whatever the body says. */
  function InterpretUpdate(reply: Reply, packageName: string): (o: Outcome)
    ensures o.NotFound? ==> o.packageName == packageName
    ensures reply.TransportFailure? ==> o == Error(Runtime(TransportFailed))
  {
    match DeliverPost(reply)
    case Fail(f) => Error(f)
    case Ok(response) =>
      if response.code == NotFoundCode then NotFound(packageName) else CheckResultStatus(response.body)
  }

  /** `findPackageByVendorName` after the GET: an absent or empty list means "no". */
  function ListContains(names: Option<seq<string>>, packageName: Result<string, Fault>): (r: Result<bool, Fault>)
    ensures r == Ok(true) <==> names.Some? && packageName.Ok? && packageName.value in names.value
    ensures r.Fail? <==> names.Some? && names.value != [] && packageName.Fail?
  {
    if names.None? || names.value == [] then Ok(false)
    else if packageName.Fail? then Fail(packageName.error)
    else Ok(packageName.value in names.value)
  }

  /** An update is reported as not found exactly when the registry answered 404. */
  lemma NotFoundIffCode404(reply: Reply, packageName: string)
    ensures InterpretUpdate(reply, packageName).NotFound?
        <==> reply.Delivered? && reply.response.code == NotFoundCode
  {
  }

  /** Off a 404, update and create read a reply the same way. */
  lemma UpdateAgreesWithCreateOff404(reply: Reply, packageName: string)
    requires !(reply.Delivered? && reply.response.code == NotFoundCode)
    ensures InterpretUpdate(reply, packageName) == InterpretCreate(reply)
  {
  }

  /** A 404 yields NotFound even when its body reports success. */
  lemma NotFoundIgnoresBody(b: Body, packageName: string)
    ensures InterpretUpdate(Delivered(Response(NotFoundCode, b)), packageName) == NotFound(packageName)
  {
  }

  /** A list `message` surfaces its first element. */
  lemma FirstListedReasonSurfaces()
    ensures CheckResultStatus(Body(Some("error"), Some(Items(["first reason", "second reason"])), None))
      == Error(Runtime("first reason"))
  {
  }

  /**
   * The URLs splice their parts in verbatim: a domain without '/' is read back
   * as the host of every URL built on it, whatever the path holds.
   */
  lemma HostOfRegistryUrl(domain: string, path: string)
    ensures '/' !in domain ==> Host(RegistryUrl(domain, path)) == Some(domain)
  {
    if '/' !in domain {
      var url := RegistryUrl(domain, path);
      assert url[..|Scheme|] == Scheme;
      assert url[|Scheme|..] == domain + "/" + path;
      FirstSegmentOfJoined(domain, path);
    }
  }
}
