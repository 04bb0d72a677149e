# packagist-sync in Dafny

This project models the core of packagist-sync, a console command (`package:sync`)
that keeps a Composer package registered on a Packagist-compatible registry. The
command resolves its settings from command-line options or `INPUT_*` environment
variables. It asks the registry to update the package and, only when the registry
answers 404, asks it to create the package from a GitHub repository URL. The exit
code is 0 on success and 1 on any failure.

The model has five modules:

- `Wrappers`: `Option` (PHP `null` or an uninitialised property) and `Result` (a value or a raised error).
- `PhpStrings`: the PHP built-ins the service relies on.
  - Truthiness, as used by `?:` and `empty`: "" and "0" are false.
  - `trim` with the character list "/".
  - `explode`/`implode` on one delimiter.
- `Registry`: the registry protocol.
  - The request URLs and bodies.
  - The HTTP exchange, with the network as a `Transport` function from request to reply.
  - The `status`/`message` reading of a JSON reply, and the 404 rule of update.
- `Service`: the `SyncPackageService` class.
  - Its nullable fields, its setters, and its memoising getters.
    - Package name: the explicit name, else the manifest's `name`.
    - Vendor: the part of the package name before the first '/'.
    - Username: the explicit one, else the vendor.
  - The manifest (`composer.json`) cache.
  - The three registry operations.
  - The state is what the setters store.
    - `Resolved()` is the `View` of what every getter would return.
    - The getters only fill caches, and never change that view.
    - A ghost log `sent` records every request put on the wire.
    - A ghost counter `manifestLoads` records how often the manifest was decoded. It is at most 1.
- `Command`: `execute`.
  - Option/environment precedence, and the `packagist.org` default.
  - The manifest directory.
  - The update-then-create run and its exit code.
  - `SyncRun` is the specification of a whole run. `Command.Execute` is proved to produce exactly its exit code and its request log.

Facts about the code that shape the model:

- **Vendor fallback.** The manifest-name fallback and the empty-message exception at src/SyncPackageService.php:191-192 are unreachable. `explode` always has an element 0, so `??` never moves past line 190. A failure to resolve the package name propagates instead.
- **Transport failures.** `sendPost` turns off Guzzle's `http_errors`, so every status code comes back as a response. `sendGet` keeps the default, so a 4xx/5xx reply to the vendor listing raises like a failed exchange. Both carry the fixed text "An error occurred while updating the package.".
- **Domain default.** The service itself has no default domain. An unset or null domain is a PHP engine error when read. The `packagist.org` default comes only from the command's option default.
- **Manifest decoding.** A `composer.json` whose JSON decodes to a PHP array is cached, and that includes a top-level list. A list has no "name" key, so the package name then fails with "Package name not found.". Content that does not decode to an array (invalid JSON, or a scalar or null at the top level) ends in a PHP TypeError, modelled as `Engine`. Nothing is cached then.
- **URLs.** All URLs are `https://` with the domain spliced in verbatim.

## Model

| member | source | states |
|---|---|---|
| PhpStrings.TrimLeft | src/SyncPackageService.php:278 | the leading-trim half of `trim`: the result is a suffix of the input, everything dropped is the trimmed character, and the result does not start with it |
| PhpStrings.TrimRight | src/SyncPackageService.php:278 | the trailing-trim half of `trim`: the result is a prefix, everything dropped is the character, and the result does not end with it |
| PhpStrings.Trim | src/SyncPackageService.php:278 | neither end of the result is the trimmed character; the result is empty exactly when the input consists only of that character |
| PhpStrings.TrimOfPadded | src/SyncPackageService.php:278 | trimming any runs of the character off both ends of a core that neither starts nor ends with it gives back exactly that core |
| PhpStrings.Explode | src/SyncPackageService.php:190 | `explode` always yields at least one piece (so element 0 exists), and no piece contains the delimiter |
| PhpStrings.ImplodeExplode | src/SyncPackageService.php:190 | joining the pieces of `explode` with the delimiter gives back the original string |
| PhpStrings.ExplodeImplode | src/SyncPackageService.php:190 | splitting a join of delimiter-free pieces gives back the pieces |
| PhpStrings.FirstSegment | src/SyncPackageService.php:190 | element 0 of `explode('/')` is the longest '/'-free prefix: it is a prefix, has no '/', and is all of the string or is followed by '/' |
| PhpStrings.FirstSegmentOfJoined | src/SyncPackageService.php:190 | the first segment of `a/b` is `a` when `a` has no '/' |
| Registry.NotFoundMessage | src/Exception/SyncPackageServicePackageNotFoundException.php:14-19 | the not-found message is "Could not find a package: " followed by the package name, both recoverable from it |
| Registry.RegistryUrl | src/SyncPackageService.php:30-35 | every URL is the scheme `https://`, the domain as given, '/', then the path |
| Registry.CreateUrl | src/SyncPackageService.php:30-35 | `https://`, the domain as given and '/', then the create endpoint `api/create-package?username=…&apiToken=…`; a '/'-free domain is the URL's host |
| Registry.UpdateUrl | src/SyncPackageService.php:51-56 | `https://`, the domain as given and '/', then the update endpoint `api/update-package?username=…&apiToken=…`; a '/'-free domain is the URL's host |
| Registry.PackageUrl | src/SyncPackageService.php:59 | the repository URL an update posts is `https://`, the domain and '/', then the package's page `packages/{name}`, on the registry itself |
| Registry.ListUrl | src/SyncPackageService.php:77-81 | `https://`, the domain and '/', then the vendor listing `packages/list.json?vendor=…`, ending in the vendor, on the domain |
| Registry.UpdateAndCreateEndpointsDiffer | src/SyncPackageService.php:30-35 | update and create never post to the same URL |
| Registry.DeliverPost | src/SyncPackageService.php:108-120 | with `http_errors` off, every response is passed on as it is whatever its status code; a failed exchange becomes the single "An error occurred while updating the package." error |
| Registry.DeliverGet | src/SyncPackageService.php:126-135 | with Guzzle's default `http_errors`, a response passes exactly when its status is below 400, and then as it is; a 4xx/5xx reply or a failed exchange becomes the same fixed error |
| Registry.GetAndPostDeliveryDiffer | src/SyncPackageService.php:108-134 | from 400 up, a GET reply is the transport error while the same POST reply is delivered; below 400 the two agree |
| Registry.ErrorMessage | src/SyncPackageService.php:148-149 | the raised message is a truthy scalar `message`; else a truthy first element of a list `message`; in every other case (missing, falsy, empty list) the fixed "An error occurred while checking the result status."; it is never falsy |
| Registry.CheckResultStatus | src/SyncPackageService.php:142-151 | success exactly when `status` is "success"; otherwise a RuntimeException carrying `ErrorMessage` |
| Registry.InterpretCreate | src/SyncPackageService.php:42-43 | create never reports NotFound: every delivered reply, whatever its status code, is judged by `CheckResultStatus` of its body; a failed exchange is the fixed transport error |
| Registry.InterpretUpdate | src/SyncPackageService.php:63-69 | a NotFound from update carries the package name it was asked about; a failed exchange is the fixed transport error |
| Registry.ListContains | src/SyncPackageService.php:87-97 | true exactly when the list is present and holds the resolved name; an absent or empty list is false without resolving the name; a name that fails to resolve fails the search only when the list is non-empty |
| Registry.NotFoundIffCode404 | src/SyncPackageService.php:63-67 | update ends in NotFound if and only if the registry answered with status code 404 |
| Registry.UpdateAgreesWithCreateOff404 | src/SyncPackageService.php:63-69 | for any reply other than a 404, update and create read it identically |
| Registry.NotFoundIgnoresBody | src/SyncPackageService.php:64-66 | a 404 is NotFound even when its body reports success |
| Registry.FirstListedReasonSurfaces | src/SyncPackageService.php:147-149 | a failed reply whose `message` is a list raises its first element |
| Registry.HostOfRegistryUrl | src/SyncPackageService.php:30-35 | the URLs splice the domain in verbatim: a domain without '/' is read back as the host of every URL built on it |
| Service.NormalizeDir | src/SyncPackageService.php:276-280 | the stored directory starts and ends with exactly one '/'; it is "//" if and only if the input is empty or all '/' |
| Service.NormalizeDirIdempotent | src/SyncPackageService.php:278 | normalising a normalised directory changes nothing |
| Service.NormalizeDirOfPadded | src/SyncPackageService.php:278 | any number of leading and trailing '/' become exactly one at each end |
| Service.NormalizeDirBare | src/SyncPackageService.php:278 | "foo/bar" becomes "/foo/bar/" |
| Service.NormalizeDirLeading | src/SyncPackageService.php:278 | "/foo/bar" becomes "/foo/bar/" |
| Service.NormalizeDirTrailing | src/SyncPackageService.php:278 | "foo/bar/" becomes "/foo/bar/" |
| Service.NormalizeDirDoubled | src/SyncPackageService.php:278 | "//foo/bar//" becomes "/foo/bar/" |
| Service.LoadManifest | src/SyncPackageService.php:164-170 | the manifest loads exactly when `{dir}composer.json` exists and decodes, and is then its fields; a missing file is "composer.json file not found" |
| Service.ResolvePackageName | src/SyncPackageService.php:247-252 | an explicit name wins whatever the manifest holds; else the manifest's `name`; a manifest without `name` is "Package name not found."; a manifest failure propagates |
| Service.ResolveVendor | src/SyncPackageService.php:187-193 | an explicit vendor wins; else the vendor resolves exactly when the package name does, and is the longest '/'-free prefix of the name |
| Service.ResolveUsername | src/SyncPackageService.php:228-231 | an explicit username wins; else the username is the vendor, errors included |
| Service.ResolveRepositoryUrl | src/SyncPackageService.php:294-297 | the repository URL resolves exactly when it was set, and then to the set URL itself; otherwise it is "Github repository url not found." |
| Service.UpdatePlan | src/SyncPackageService.php:51-61 | update builds its request exactly when domain, username, token and package name all resolve; it goes to the update endpoint for that domain, username and token, and posts the package's own registry URL |
| Service.CreatePlan | src/SyncPackageService.php:30-42 | create builds its request exactly when domain, username, token and repository URL all resolve; it goes to the create endpoint for that domain, username and token, and posts that repository URL; once the first three resolve, a missing URL is the error |
| Service.ListPlan | src/SyncPackageService.php:77-82 | find builds its GET exactly when domain and vendor resolve; it asks for the vendor's `list.json` |
| Service.Requests | src/SyncPackageService.php:42 | each operation puts at most one request on the wire, and none when resolution failed first |
| Service.UpdateOutcome | src/SyncPackageService.php:49-70 | update ends in the first resolution error, or NotFound carrying the resolved name, or the transport error when the exchange fails, or the body's verdict (`CheckResultStatus`) on a delivered reply other than 404 |
| Service.CreateOutcome | src/SyncPackageService.php:28-44 | create never ends in NotFound; it ends in the first resolution error, or the body's verdict on a delivered reply, or the transport error when the exchange fails |
| Service.FindOutcome | src/SyncPackageService.php:75-98 | find answers true exactly when the GET got a reply below 400 whose `packageNames` holds the resolved name; false exactly when such a reply has no list, an empty list, or a list without the resolved name; it fails exactly when the plan fails, the exchange fails, the reply is 400 or more, or a non-empty list meets a name that does not resolve; a 4xx/5xx reply or failed exchange is the transport error, and a resolution error before the GET propagates |
| Service.UpdateNotFoundOnlyOn404 | src/SyncPackageService.php:63-67 | update ends in NotFound exactly when its request was sent and answered with 404, and NotFound carries the resolved package name |
| Service.CreateNeedsRepositoryUrl | src/SyncPackageService.php:36-42 | without a repository URL, create sends nothing and fails; once username resolves, it fails with "Github repository url not found." |
| Service.ExplicitNameIgnoresManifest | src/SyncPackageService.php:247-252 | an explicit name is used whatever the manifest holds or fails to load, and the vendor is its first segment |
| Service.ManifestNameGivesVendor | src/SyncPackageService.php:187-193 | a manifest naming "acme/widget" gives that package name and the vendor and username "acme" |
| Service.MissingNameIsReported | src/SyncPackageService.php:249-251 | with no explicit name and no manifest `name`, package name, vendor and username all fail with "Package name not found." |
| Service.SyncPackageService.constructor | src/SyncPackageService.php:15-23 | a fresh service has every property unset, nothing cached and nothing sent |
| Service.SyncPackageService.SetVendorName | src/SyncPackageService.php:177-181 | stores the vendor |
| Service.SyncPackageService.SetApiToken | src/SyncPackageService.php:200-204 | stores the token |
| Service.SyncPackageService.SetPackagistUsername | src/SyncPackageService.php:218-222 | stores the username or null |
| Service.SyncPackageService.SetPackageName | src/SyncPackageService.php:237-241 | stores the package name or null |
| Service.SyncPackageService.SetPackagistDomain | src/SyncPackageService.php:258-262 | stores the domain or null |
| Service.SyncPackageService.SetComposerJsonPath | src/SyncPackageService.php:276-280 | stores the normalised directory |
| Service.SyncPackageService.SetGithubRepositoryUrl | src/SyncPackageService.php:303-307 | stores the repository URL or null |
| Service.SyncPackageService.GetApiToken | src/SyncPackageService.php:209-212 | returns the stored token; reading it unset is an engine error |
| Service.SyncPackageService.GetPackagistDomain | src/SyncPackageService.php:267-270 | returns the stored domain; reading it unset or null is an engine error (no default here) |
| Service.SyncPackageService.GetComposerJsonPath | src/SyncPackageService.php:285-288 | returns the stored directory; reading it unset is an engine error |
| Service.SyncPackageService.GetGithubRepositoryUrl | src/SyncPackageService.php:294-297 | returns the stored URL itself when one is set, and fails with "Github repository url not found." exactly when it is null |
| Service.SyncPackageService.GetComposerJsonData | src/SyncPackageService.php:158-171 | returns the resolved manifest and caches it; a cached manifest is returned without reading the file; the decode counter stays at most 1 |
| Service.SyncPackageService.GetPackageName | src/SyncPackageService.php:247-252 | returns the resolved name and caches it; with an explicit name nothing else changes and the manifest is not read |
| Service.SyncPackageService.GetVendorName | src/SyncPackageService.php:187-193 | returns the resolved vendor and caches it; a cached vendor is returned with nothing changed |
| Service.SyncPackageService.GetPackagistUsername | src/SyncPackageService.php:228-231 | returns the resolved username (the vendor when unset) and stores it |
| Service.SyncPackageService.SendPost | src/SyncPackageService.php:104-121 | logs exactly one POST and returns the delivered response or the fixed transport error |
| Service.SyncPackageService.SendGet | src/SyncPackageService.php:126-135 | logs exactly one GET and returns `DeliverGet` of its reply: the response below 400, else the fixed transport error |
| Service.SyncPackageService.BuildCreateRequest | src/SyncPackageService.php:30-40 | resolves domain, username, token and repository URL through the getters in that order and yields exactly `CreatePlan` of the state on entry; what the getters return is unchanged |
| Service.SyncPackageService.CreatePackage | src/SyncPackageService.php:28-44 | ends in `CreateOutcome` of the state on entry and sends exactly `CreatePlan`'s request; what the getters return is unchanged |
| Service.SyncPackageService.BuildUpdateRequest | src/SyncPackageService.php:51-61 | resolves domain, username, token and package name through the getters in that order and yields exactly `UpdatePlan` of the state on entry |
| Service.SyncPackageService.UpdatePackage | src/SyncPackageService.php:49-70 | ends in `UpdateOutcome` of the state on entry and sends exactly `UpdatePlan`'s request; what the getters return is unchanged |
| Service.SyncPackageService.BuildListRequest | src/SyncPackageService.php:77-81 | resolves domain and vendor through the getters and yields exactly `ListPlan` of the state on entry |
| Service.SyncPackageService.SearchList | src/SyncPackageService.php:91-97 | the loop over a non-empty list ends in `ListContains`: true exactly when the resolved name is listed, and the name's resolution error if it fails |
| Service.SyncPackageService.FindPackageByVendorName | src/SyncPackageService.php:75-98 | ends in `FindOutcome` of the state on entry (a membership test of the resolved name in the vendor's list) and sends at most the one GET |
| Command.GetOption | src/Command/SyncPackageCommand.php:32-36 | an omitted option reads as its default, an option given without a value reads as null, and a given value as itself |
| Command.Elvis | src/Command/SyncPackageCommand.php:56-60 | PHP's `?:`: the left operand when it is truthy, else the right one unchanged |
| Command.OptionOrEnv | src/Command/SyncPackageCommand.php:56-59 | the setting is present exactly when the option or the variable is truthy; a truthy option wins; a present setting is truthy and is one of the two |
| Command.ManifestDir | src/Command/SyncPackageCommand.php:60 | the directory is a truthy `GITHUB_WORKSPACE`, else the working directory (empty when `getcwd` fails), followed by a truthy option, else the raw `INPUT_COMPOSER-JSON-PATH` (kept even when it is "0"; empty when unset) |
| Command.ResolveSettings | src/Command/SyncPackageCommand.php:55-60 | the token argument is passed as it is; for username, name, domain and repository URL a truthy flag value wins; otherwise the setting's own `INPUT_*` variable if truthy, else null; except that an omitted domain flag gives `packagist.org`; the manifest directory is `ManifestDir` of the environment and the option |
| Command.DomainDefaultsToPackagist | src/Command/SyncPackageCommand.php:34 | without the domain flag the domain is `packagist.org` |
| Command.FalsyOptionFallsBack | src/Command/SyncPackageCommand.php:56-59 | an option given as "" or "0" counts as absent, and the environment variable decides |
| Command.ExitCode | src/Command/SyncPackageCommand.php:71-78 | the exit code is 0 exactly on success, else 1 |
| Command.SyncRun | src/Command/SyncPackageCommand.php:62-78 | a run never ends in NotFound; it ends as update does unless update was not found, and then as create does; it sends at most two requests |
| Command.UpdateSuccessSkipsCreate | src/Command/SyncPackageCommand.php:62-64 | a successful update ends the run with success after one request; create is never called |
| Command.NotFoundFallsBackToCreate | src/Command/SyncPackageCommand.php:65-68 | after a 404 on update, create runs exactly once and decides the outcome |
| Command.OtherUpdateErrorsAbort | src/Command/SyncPackageCommand.php:71-74 | any other update failure, configuration errors included, ends the run without create |
| Command.AtMostOneUpdateAndOneCreate | src/Command/SyncPackageCommand.php:62-69 | no retries: at most two requests, the update first and a create only after a 404; the run never ends in NotFound; it succeeds exactly when the update did, or when the update was not found and the create succeeded |
| Command.Configure | src/Command/SyncPackageCommand.php:53-60 | the setter chain yields a fresh service whose getters give the view of the resolved settings, with no vendor and no manifest cached, the manifest never decoded, and nothing sent |
| Command.Execute | src/Command/SyncPackageCommand.php:42-79 | the exit code and the request log are exactly those of `SyncRun` on the resolved settings; the manifest is decoded at most once |

## Left out

- HTTP: Guzzle is replaced by a `Transport` function from request to reply. A run never sends the same request twice, so one reply per request loses nothing. Redirects, which Guzzle follows, happen inside the transport. Headers and the `Content-Type` are not modelled.
- JSON decoding of replies: a reply body is modelled by the members the service reads (`status`, `message`, `packageNames`), each absent or a string, or a list of strings. Non-string values are not modelled. An invalid JSON body decodes to null, so every member is absent. PHP's "undefined array key" warning on a missing `message` is not modelled.
- Loose comparison: PHP's `==`/`!=` between strings is modelled as string equality. Numeric strings such as "1e1" and "10", which PHP compares as numbers, are not distinguished.
- Files: `file_exists` and `file_get_contents` are replaced by a `Disk` map from path to file. Directories named `composer.json` and read errors are not modelled. A file that decodes to a PHP array, object or list, is `Decodable`. A list is represented with no "name" key. Any other content is `Undecodable`. A manifest `name` that is not a string is not modelled.
- Environment: `getenv` and `getcwd` become the `Environment` input. The console argument and options become `CliInput`.
- Console output: the styles and the `writeln` messages are left out. Only the exit code is modelled, as Symfony's SUCCESS (0) and FAILURE (1).
- PHP engine errors are modelled as `Engine` faults that name the member raising them, without their text. This covers TypeErrors and reads of uninitialised typed properties. `setApiToken(null)` and `setComposerJsonPath(null)` are not modelled, because the command always passes strings.
- Service.SyncPackageService.BuildUpdateRequest: the source reads the domain twice. The model reads it once, since the read changes nothing.
- Service.SyncPackageService.GetComposerJsonData: `manifestLoads` counts the decodes that fill the cache. An undecodable file is read again on every call, and those reads are not counted.
