# TeamCity build-lifecycle model

A Dafny model of the TeamCity extension for BuildMaster, covering how it drives a TeamCity server:

- deriving the REST base URL (`guestAuth/` or `httpAuth/`) from a connection;
- picking a stored configurer profile;
- decoding TeamCity's project, build-type and build-number listings;
- resolving a build configuration ID from a project and configuration name, exactly or through a
  nested `" :: "` project path;
- turning the reserved build numbers `lastSuccessful`, `lastPinned` and `lastFinished` into
  locator requests;
- queueing a build and waiting for it (`TeamCityBuildQueuer`, and the legacy trigger action built
  on it);
- triggering a build through `action.html?add2Queue=` and polling it (`TriggerBuildAction`);
- importing an artifact into BuildMaster (`TeamCityArtifactImporter`, `TeamCityBuildImporter`);
- downloading an artifact onto an agent and copying or extracting it (`GetArtifactAction`, both
  revisions).

The model is organised as follows:

- Server replies are scripted values. `Reply<T>` is a parsed answer or an HTTP failure with its
  status code.
- Exceptions are `Result` faults.
- Everything an operation logs, requests, writes or stores is an `Effect` appended to a `trace`.
- Each mutable source object is a class with the source's fields and a `trace`. Its methods are
  proved equal to a pure specification function: the result, and the new trace as the old trace plus
  that function's effects. The properties are lemmas about those functions.
- The poll loops run over a scripted sequence of status replies.
- The cancellation token is a `seq<bool>`, sampled after each poll.

Modules (one per file):

- `Common`: options, results, faults, replies and effects.
- `Text`: the .NET string helpers the code relies on.
- `Connection`: `GetApiUrl`.
- `Configurers`: both configurers and the shared `GetBranchName`.
- `Catalog`: the `TeamCityWebClient` queries.
- `WebClient`: the web client object.
- `Resolution`: both name resolvers.
- `BuildNumbers`: the reserved build numbers and the actual-number resolution.
- `Queuer`: the queuer.
- `Trigger`: the trigger action.
- `ArtifactImporter`, `BuildImporter`, `GetArtifact`, `LegacyGetArtifact` and `LegacyTrigger`.

Details of the code that the model keeps:

- The reserved-number locator uses the path form `app/rest/builds/buildType:{id},...`.
- An empty (non-null) branch name gives no `?branch=` on the importer's download, yet it still
  narrows the build-number locator with `,branch:`, because that step only tests for null
  (`ArtifactImporter.EmptyBranchNarrowsOnlyTheLocator`).
- Neither artifact action deletes its temporary file (`GetArtifact.TempFileKept`). Only the importer
  does so, in its `finally` block.
- `ICustomBuildNumberProvider.BuildNumber` does not default a missing number to `lastSuccessful`,
  although `Import` does (`BuildImporter.ProviderDoesNotDefault`).

## Model

| member | source | states |
|---|---|---|
| Connection.ApiUrlShape | ITeamCityConnectionInfo.cs:18-21 | The API URL is the server URL cut before its trailing slashes, then `/`, the auth segment and `/`. The host part is a prefix of the server URL that does not end in `/`, and the rest of the server URL is all slashes. |
| Connection.SegmentSuffixes | ITeamCityConnectionInfo.cs:20 | A URL ending in `/guestAuth/` does not end in `/httpAuth/`, and the other way round. |
| Connection.GuestExactlyWithoutUser | ITeamCityConnectionInfo.cs:20 | The segment is `guestAuth` exactly when the user name is null or empty. |
| Connection.TrailingSlashesIgnored | ITeamCityConnectionInfo.cs:20 | Appending any number of `/` to the server URL leaves the API URL unchanged. |
| Connection.PasswordIgnored | ITeamCityConnectionInfo.cs:9-14 | The password has no influence on the API URL. |
| Text.TrimEndIgnoresAppended | ITeamCityConnectionInfo.cs:20 | `TrimEnd(c)` of a string followed by any run of `c` is `TrimEnd(c)` of the string. |
| Text.TrimEnd | ITeamCityConnectionInfo.cs:20 | The result is a prefix that does not end in `c`, and only `c` characters follow it in the input. |
| Configurers.TeamCityConfigurer.ToString | TeamCityConfigurer.cs:58-61 | The description is always the empty string. |
| Configurers.BaseUrlIsApiUrl | TeamCityConfigurer.cs:33-43 | `BaseUrl` equals `GetApiUrl` of the same server URL, user and password. The password therefore plays no part. |
| Configurers.LegacyTeamCityConfigurer.AsConnectionInfo | Legacy/TeamCityConfigurer.cs:15 | The connection view's `UserName` is the configurer's `Username`, and the server URL and password are passed on unchanged. |
| Configurers.LegacyBaseUrlIsApiUrl | Legacy/TeamCityConfigurer.cs:67 | The legacy `BaseUrl` equals `GetApiUrl` of the configurer's connection view and does not depend on the default branch. |
| Configurers.GetBranchName | Legacy/TriggerBuildAction.cs:53-62 | A branch is chosen exactly when the explicit or the default branch is non-empty. The explicit branch wins, the default comes next, else null. |
| Configurers.GetConfigurer | Legacy/TeamCityConfigurer.cs:23-38 | The first profile matching the ID or the name (ignoring case) is chosen. Without a match, the first default profile is chosen. Null is returned exactly when no profile matches and none is a default. |
| Catalog.GetProjectNames | TeamCityWebClient.cs:33-42 | One name per project element, in document order, null for a project without a name. |
| Catalog.QualifiedNameIsJoinedAncestry | TeamCityWebClient.cs:51-65 | A qualified name is the names of the non-root ancestors and the project's own name (empty when null), joined with `" :: "`. Without such ancestors it is the own name, null included. The walk fails exactly when the ancestry does, with the same fault. |
| Catalog.PlainNameCases | TeamCityWebClient.cs:53-62 | The plain name is returned when there is no parent, the parent is unknown, or the parent has no parent of its own (it is the root). |
| Catalog.UnnamedParentFails | TeamCityWebClient.cs:64 | A non-root parent without a name makes the walk throw a null reference, whatever the bound. |
| Catalog.QualifiedNameEndsWithOwnName | TeamCityWebClient.cs:64 | Below a non-root parent, a qualified name ends with `" :: "` and the project's own name. Otherwise it is the own name. |
| Catalog.GetQualifiedProjectNames | TeamCityWebClient.cs:43-50 | When every walk succeeds, exactly one qualified name per project, in document order. Otherwise the list fails with the fault of the first project, in document order, whose walk throws. |
| Catalog.QualifiedNameExample | TeamCityWebClient.cs:43-65 | A root with three nested projects gets the expected qualified names, in order. The root keeps its own name. |
| Catalog.UnnamedParentExample | TeamCityWebClient.cs:43-65 | With the middle project unnamed, the list fails with a null reference. |
| Catalog.BuildTypeNamesAppend | TeamCityWebClient.cs:70-75 | The filter keeps document order: the names of two concatenated listings are the concatenation of their names. |
| Catalog.BuildTypeNamesMembership | TeamCityWebClient.cs:73 | A name is listed exactly when some build type with that name has a project equal to the argument, ignoring case. |
| Catalog.BuildTypeNamesIgnoreCase | TeamCityWebClient.cs:73 | Arguments that are equal ignoring case give the same list. |
| Catalog.GetBuildTypes | TeamCityWebClient.cs:78-92 | One configuration record per build-type element, in document order, with its fields. |
| Catalog.GetBuildNumbers | TeamCityWebClient.cs:93-112 | A list always starts with `lastSuccessful`, `lastPinned`, `lastFinished`. A failure is the builds download's `WebException`. |
| Catalog.BuildNumbersWithoutMatch | TeamCityWebClient.cs:102-103 | Without a build type that matches project and name (ignoring case), the list is exactly the three reserved tokens, whatever the builds listing holds. |
| Catalog.BuildNumbersOfFirstMatch | TeamCityWebClient.cs:98-111 | The first matching build type decides. Without an ID the list is the three reserved tokens. With one, they are followed by that configuration's build numbers in order, null where a build has none, or the download's `WebException` escapes. |
| WebClient.CredentialsMatchAuthSegment | TeamCityWebClient.cs:16-24 | Credentials are installed exactly when the API URL goes through `httpAuth`. They are Basic credentials of the configured user and password, bound to that URL. |
| WebClient.WebRequest.constructor | TeamCityWebClient.cs:114-122 | A new request has the given method and no content type. |
| WebClient.TeamCityWebClient.constructor | TeamCityWebClient.cs:12-25 | The base address is the API URL. Credentials are set only when the user name is non-empty, and then for that URL. |
| WebClient.TeamCityWebClient.GetWebRequest | TeamCityWebClient.cs:114-122 | A POST request gets the content type `application/xml`. Every other request is left unchanged. |
| Resolution.ResolveExact | TeamCityArtifactImporter.cs:177-187 | The result is the ID of the first build type whose project and name both equal the requested ones ignoring case. It is `ExecutionFailure` when there is none or that first one has no ID. |
| Resolution.ExactResolution | TeamCityArtifactImporter.cs:177-187 | Resolution succeeds exactly when some build type is named as requested and the first such one has an ID, and it then yields that ID. |
| Resolution.ParseBuildType | TeamCityBuildQueuer.cs:164-177 | The project name is split on `" :: "` into parts that join back to it. A missing project name is a null dereference. |
| Resolution.ParseBuildTypes | TeamCityBuildQueuer.cs:111-112 | Every element is parsed, in order, before any is chosen. One element without a project name fails the whole lookup. |
| Resolution.FindIndex | TeamCityBuildQueuer.cs:117 | The index of the first part equal to the project ignoring case, or -1 when no part is. |
| Resolution.Candidates | TeamCityBuildQueuer.cs:113-119 | Every candidate is a listed build type with the requested name whose parts, or whose whole project name, match the project, paired with its `FindIndex`. Every such build type is a candidate. |
| Resolution.CandidatesAppend | TeamCityBuildQueuer.cs:113-119 | The query keeps document order: the candidates of two concatenated listings are those of the first, then those of the second. |
| Resolution.BestIsFirstOfSorted | TeamCityBuildQueuer.cs:120-123 | The chosen candidate is the first element of the candidates stably sorted by index. |
| Resolution.ChosenAtUnique | TeamCityBuildQueuer.cs:120-123 | At most one build type is accepted, has the smallest index, and has every accepted build type before it at a strictly larger index. |
| Resolution.BestCandidate | TeamCityBuildQueuer.cs:113-123 | The candidate `Best` picks is the build type at a position `i` of the listing that is accepted and has the smallest index, with every accepted build type before `i` at a strictly larger index: ties keep document order. |
| Resolution.ResolveNested | TeamCityBuildQueuer.cs:103-129 | The lookup throws `ExecutionFailure` when nothing matches or the best match has no ID. Otherwise it yields that ID. |
| Resolution.NestedResolution | TeamCityBuildQueuer.cs:111-125 | A resolved ID is that of the build type at a position `i` that is accepted (the requested name, the project matching as a part or as a whole) and has the smallest index, with every accepted one before `i` at a strictly larger index. |
| Resolution.NestedResolutionComplete | TeamCityBuildQueuer.cs:111-128 | Conversely, for the build type so picked, the lookup yields its ID, or `ExecutionFailure` when it has none. |
| Resolution.NestedResolutionFails | TeamCityBuildQueuer.cs:111-127 | With no build type accepted, the lookup throws `ExecutionFailure`. |
| Resolution.ResolveNestedFinds | TeamCityBuildQueuer.cs:103-129 | Over the elements, when all have a project name: the ID of the build type picked as above, or `ExecutionFailure` when it has no ID. |
| Resolution.WholeNameMatchPreferred | TeamCityBuildQueuer.cs:117-120 | A whole-name match with no part match has index -1 and is preferred over every part match. |
| Resolution.NestedExample | TeamCityBuildQueuer.cs:111-123 | Asked for project `tools`, the build type under `Tools` (index 0) wins over an earlier one under `Widgets :: Tools` (index 1). |
| Text.JoinSplit | TeamCityBuildQueuer.cs:171 | Joining the parts of a split with the separator reproduces the string. |
| Text.SplitPartsLackSeparator | TeamCityBuildQueuer.cs:171 | No part of a split contains the separator. |
| Text.Split | TeamCityBuildQueuer.cs:171 | A split always has at least one part. |
| Text.TokensOfJoin | TeamCityBuildQueuer.cs:155 | A path of non-empty words without `/`, joined by `/`, splits back into those words when empty entries are removed. |
| BuildNumbers.PredefinedConstantOfToken | TeamCityArtifactImporter.cs:155-167 | A build number is a reserved constant exactly when it equals one of the three tokens ignoring case, and it is then that token's constant. |
| BuildNumbers.TryGetPredefinedConstantBuildNumberApiUrl | TeamCityBuildImporter.cs:103-115 | A URL is returned exactly for a reserved constant. The call throws `ArgumentNullException` exactly when a constant meets a null configuration ID, because the ID is escaped. |
| BuildNumbers.ConditionsShape | TeamCityArtifactImporter.cs:155-167 | Every constant's conditions start with `,running:false` and end with `,count:1`. |
| BuildNumbers.ConstantUrlsDiffer | TeamCityArtifactImporter.cs:158-165 | Every constant URL is the path for the escaped ID, which holds no comma, followed directly by `,running:false`, and it ends with `,count:1`: one build that is not running. Different constants give different URLs for the same configuration. |
| BuildNumbers.ConstantRecognized | TeamCityArtifactImporter.cs:157-164 | Each reserved token, in any letter case, is recognised as its constant. |
| BuildNumbers.ResolutionRequestsAndNotes | TeamCityArtifactImporter.cs:123-153 | Resolving the actual build number only logs and asks the server: it writes, stores and sets nothing. |
| BuildNumbers.ExplicitNumberKept | TeamCityArtifactImporter.cs:127-132 | An explicit number is returned unchanged, with no request. |
| BuildNumbers.ResolutionThrowsOnlyForMissingId | TeamCityArtifactImporter.cs:125-132 | Resolution throws only for a constant without a configuration ID, and then nothing is requested. |
| BuildNumbers.ConstantResolvedByOneRequest | TeamCityArtifactImporter.cs:134-152 | A constant is resolved by exactly one request, for its locator, narrowed with `,branch:` when a branch is set. The answer is the returned number, or null with an error logged when the request or the reply fails. |
| Queuer.QueuerArgumentsAccepted | TeamCityBuildQueuer.cs:29-39 | The queuer can be built exactly when every argument is present and the context names an application. A missing context is reported before anything else. |
| Queuer.RelativeHrefDropsFirstSegment | TeamCityBuildQueuer.cs:155 | An href `/seg/rest…` made of non-empty segments becomes `rest…`. |
| Queuer.ParseStatus | TeamCityBuildQueuer.cs:147-160 | A status reply parses exactly when it has an `href` and, for an unfinished build, its percentage is absent or a 32-bit integer. A missing `href` fails first, with a null dereference. A bad percentage fails with a format error or, beyond 32 bits, an overflow. |
| Queuer.StatusPercentage | TeamCityBuildQueuer.cs:144-159 | `Finished` compares the state with `finished` ignoring case. A finished build is at 100%. An unfinished one is at the reported percentage as parsed, or 0 when none is given. A missing status text reads `(none)`. |
| Queuer.MalformedPercentage | TeamCityBuildQueuer.cs:159 | A finished build parses whatever its percentage says. An unfinished one whose percentage is `half` fails with a format error, and one whose percentage is eleven nines with an overflow. |
| Queuer.PollRequests | TeamCityBuildQueuer.cs:77-90 | Each poll makes exactly one status request, so there are never more requests than replies. No request is made exactly when the loop does not run. |
| Queuer.PollFinish | TeamCityBuildQueuer.cs:77-86 | A loop that finished saw a finished status. A loop that ran published its last status at 100%. A loop that did not run published nothing. |
| Queuer.PollAccounting | TeamCityBuildQueuer.cs:77-90 | No more requests than replies. Replies run out only when all were used. Nothing is published without a request. |
| Queuer.CancellationStopsPolling | TeamCityBuildQueuer.cs:88-89 | A cancellation seen after poll `c` ends the wait with `Canceled` after at most `c + 1` requests. |
| Queuer.PrepareRequests | TeamCityBuildQueuer.cs:48-59 | Before the queue request, only the build-type listing is requested, and only when the ID is resolved by name. |
| Queuer.QueueRequestSent | TeamCityBuildQueuer.cs:61-73 | With an ID, that ID is posted to `app/rest/buildQueue` with the branch, or `""` when there is none. Without waiting, no status is requested and no progress is published. |
| Queuer.QueueRequestSentByName | TeamCityBuildQueuer.cs:50-73 | With the ID looked up by name and found, the ID found is posted with the branch, or `""` when there is none, and kept. Without waiting, the build-type listing is the only request and no progress is published. |
| Queuer.AwaitBuildReportsFinishedBuild | TeamCityBuildQueuer.cs:77-99 | Waiting completes exactly when a finished status was seen. It ends with an error entry exactly when the build did not succeed. |
| Queuer.CompletedRunReportsFinishedBuild | TeamCityBuildQueuer.cs:46-101 | A completed run was waiting and ends with an error entry exactly when the build did not succeed. Its requests are bounded by the status replies, plus the listing when it resolves by name. |
| Queuer.TeamCityBuildQueuer.constructor | TeamCityBuildQueuer.cs:15-39 | The queuer keeps the given connection and context. It starts with no settings, 0% progress, no message and an empty trace. |
| Queuer.TeamCityBuildQueuer.GetProgress | TeamCityBuildQueuer.cs:41-44 | Returns the percentage and message from the latest poll. |
| Queuer.TeamCityBuildQueuer.SetBuildConfigurationIdFromName | TeamCityBuildQueuer.cs:103-129 | The ID becomes the nested resolution of the listing. The method throws when that fails. |
| Queuer.TeamCityBuildQueuer.WaitForBuild | TeamCityBuildQueuer.cs:77-90 | The wait loop yields the specification's poll result and leaves the last status in the progress fields. |
| Queuer.TeamCityBuildQueuer.PollOnceSteps | TeamCityBuildQueuer.cs:79-89 | The loop body agrees with one step of the specification's poll. |
| Queuer.TeamCityBuildQueuer.PrepareQueue | TeamCityBuildQueuer.cs:48-66 | The steps up to the queue request agree with the specification. |
| Queuer.TeamCityBuildQueuer.QueueAndWaitAsync | TeamCityBuildQueuer.cs:67-99 | The steps from the queue request on agree with the specification. |
| Queuer.TeamCityBuildQueuer.AwaitBuildAsync | TeamCityBuildQueuer.cs:75-99 | The waiting part agrees with the specification. |
| Queuer.TeamCityBuildQueuer.QueueBuildAsync | TeamCityBuildQueuer.cs:46-101 | The outcome, the trace and the progress fields equal the specification's run. |
| Trigger.TriggerUrlsAgree | TriggerBuildAction.cs:79-83 | The trigger URL is `action.html?add2Queue={id}`, then `&branchName=` with the escaped branch when one is chosen, then the parameters verbatim. As written it agrees with this whenever an explicit branch is set or no branch is chosen. |
| Trigger.ParseBuildId | TriggerBuildAction.cs:147-164 | Returns null exactly when TeamCity counts no build, otherwise the first build's ID. A failure is a null dereference and happens only when an attribute is missing. |
| Trigger.ParseBuildStatuses | TriggerBuildAction.cs:206 | A parsed status name, trimmed of white space, equals the name of the member it gives, ignoring case. It fails, with `ArgumentException`, exactly when the trimmed name is no member's name. |
| Trigger.StatusNameParses | TriggerBuildAction.cs:206 | Every member name parses back to its member. |
| Trigger.SuccessParses | TriggerBuildAction.cs:206 | TeamCity's upper-case `SUCCESS` is accepted. |
| Trigger.PaddedSuccessParses | TriggerBuildAction.cs:206 | ` SUCCESS `, with white space around it, is accepted as well. |
| Trigger.PercentFaults | TriggerBuildAction.cs:210-212 | While running, the percentage fails exactly when it is not a 32-bit integer. Eleven nines throw `OverflowException`, and text that is no number at all throws `FormatException`. |
| Text.ParseInt32Cases | TriggerBuildAction.cs:211 | `int.Parse` throws `FormatException` exactly when the text without surrounding white space is no signed run of digits, and `OverflowException` exactly when it is one whose value is outside the 32-bit range. Otherwise it yields that value. |
| Trigger.ParseBool | TriggerBuildAction.cs:208 | A parsed value is `True` or `False`, in any letter case, once trimmed of white space. Anything else fails with `FormatException`. |
| Trigger.StatusParsing | TriggerBuildAction.cs:177-214 | A status parses exactly when every element it reads is well formed. It is running only when the attribute says `true`, and then at the reported percentage. A build that is not running is at 100%. |
| Trigger.ReadOutcomes | TriggerBuildAction.cs:106-112 | A status read fails with the request's or the parser's exception, never with a cancellation. A build read as not running is at 100%. |
| Trigger.PollBuildAccounting | TriggerBuildAction.cs:109-119 | Each pass makes one request, always for the same status URL. At least one request is made and never more than there are replies. The loop concludes only on a status that is not running. |
| Trigger.ConcludedAtFullPercent | TriggerBuildAction.cs:109-119 | The loop concludes only on a build that is no longer running, at 100%. |
| Trigger.CancellationBoundsPolling | TriggerBuildAction.cs:116-117 | A cancellation seen after pass `c` ends the loop after at most `c + 1` requests. |
| Trigger.UncancelledPolling | TriggerBuildAction.cs:109-119 | Without a cancellation the loop never ends as cancelled. |
| Trigger.TriggerRequested | TriggerBuildAction.cs:75-88 | Building the trigger URL throws `ArgumentNullException` exactly when no explicit branch is set and a default branch is chosen. Then only the branch note is logged and nothing is requested. Otherwise the URL escapes the explicit branch when a branch is chosen, and its request is the only one up to that point. |
| Trigger.NotWaitingMakesOneRequest | TriggerBuildAction.cs:79-93 | Without waiting, exactly one request is made, for the URL as built, or none when building it throws. The run ends triggered exactly when the URL was built and the request answered. |
| Trigger.WaitingRequests | TriggerBuildAction.cs:79-119 | Waiting makes the trigger request, the latest-build query and at most one status request per reply. Once a running build has been found, it polls at least once. Nothing is requested when building the trigger URL throws. |
| Trigger.NoRunningBuildStops | TriggerBuildAction.cs:79-104 | The run ends without a running build exactly when the URL was built, the action waits, the trigger was answered and TeamCity counts no running build. An error is then logged and the action stops after the latest-build query, without polling. |
| Trigger.FinishedBuildReported | TriggerBuildAction.cs:121-132 | A build waited for to its end is reported by its status: information for success, an error for failure or error. |
| Trigger.CancellationBoundsRequests | TriggerBuildAction.cs:116-117 | A cancellation seen after pass `c` bounds the whole action to `c + 3` requests. |
| Trigger.IntendedRunRequestsChosenBranch | TriggerBuildAction.cs:79-83 | The intended run requests the trigger URL of the chosen branch, as its only request up to that point. It is the run as written whenever an explicit branch is set or no branch is chosen. |
| Trigger.DefaultBranchTriggerThrows | TriggerBuildAction.cs:75-88 | With no explicit branch and the default branch `main`, the run as written throws `ArgumentNullException` after the branch note, having requested nothing. The intended run requests the `main` trigger URL. |
| Trigger.EmptyBranchNameDropsDefault | TriggerBuildAction.cs:79-88 | With an empty explicit branch and the default branch `main`, the run as written requests `action.html?add2Queue=bt1&branchName=`. The intended run requests the `main` trigger URL. |
| Trigger.DescribeClauses | TriggerBuildAction.cs:62-70 | The parameters clause is present exactly when the parameters are non-empty. The branch clause is present exactly when the explicit branch is non-empty. The default branch plays no part. |
| Text.ConcatNE | TriggerBuildAction.cs:67 | The result is the concatenation when no part is null or empty, else the empty string. |
| Trigger.TriggerBuildAction.constructor | TriggerBuildAction.cs:48-50 | A new action has no ID, parameters or branch, does not wait, and has an empty trace. |
| Trigger.TriggerBuildAction.PollBuildAsync | TriggerBuildAction.cs:109-119 | The `do … while` loop agrees with the specification's poll over the status replies. |
| Trigger.TriggerBuildAction.AwaitTriggeredAsync | TriggerBuildAction.cs:95-132 | The steps after the trigger agree with the specification. |
| Trigger.TriggerBuildAction.TriggerAsync | TriggerBuildAction.cs:87-132 | The steps from the built trigger URL on agree with the specification. |
| Trigger.TriggerBuildAction.Execute | TriggerBuildAction.cs:72-134 | The outcome and the new trace equal the specification's run of the action, with the trigger URL built as written. |
| ArtifactImporter.ImporterArgumentsAccepted | TeamCityArtifactImporter.cs:32-46 | The importer can be built exactly when every argument is present and the context names an application. A missing connection is reported first. A context without an application is reported exactly when every argument is present. |
| ArtifactImporter.TrimWhitespaceAndZipExtension | TeamCityArtifactImporter.cs:193-200 | The result is the trimmed file name of the artifact, with a trailing `.zip` in any letter case removed. A null name is dereferenced. |
| ArtifactImporter.StripZipExtensionShape | TeamCityArtifactImporter.cs:197-199 | Stripping cuts off a trailing `.zip` in any letter case and nothing else. |
| ArtifactImporter.StoredNameIsFileName | TeamCityArtifactImporter.cs:195 | The stored name contains no directory separator. |
| ArtifactImporter.StoredNameStripsZip | TeamCityArtifactImporter.cs:193-200 | The stored name is the trimmed file name with a trailing `.zip` removed. It is exactly the trimmed file name when there is no such extension. |
| ArtifactImporter.ZipExtensionExample | TeamCityArtifactImporter.cs:193-200 | Only a trailing `.zip`, in any letter case, is removed. |
| Text.GetFileNameShape | TeamCityArtifactImporter.cs:195 | The file name is a suffix of the path without a separator. A separator precedes it unless it is the whole path. |
| Text.TrimStartShape | TeamCityArtifactImporter.cs:195 | `Trim` removes exactly the leading white space. |
| Text.TrimTrailingShape | TeamCityArtifactImporter.cs:195 | `Trim` removes exactly the trailing white space. |
| Text.EscapeDataString | TeamCityArtifactImporter.cs:68 | The escaped string holds only unreserved characters and `%`. |
| Text.EscapeUnreservedIsIdentity | TeamCityArtifactImporter.cs:68 | A string made only of unreserved characters is unchanged by escaping. |
| ArtifactImporter.EmptyBranchNarrowsOnlyTheLocator | TeamCityArtifactImporter.cs:66-69 | An empty branch leaves the download URL unrestricted, yet the locator is still narrowed to the empty branch (lines 138-139). |
| ArtifactImporter.FetchCleansUp | TeamCityArtifactImporter.cs:73-116 | The temporary file is created first and removed last, once each, whatever happens in between. |
| ArtifactImporter.FetchOutcomes | TeamCityArtifactImporter.cs:76-107 | A failed download stores nothing and is rethrown, with a warning exactly when it is a 404. A stored artifact overwrites and carries the trimmed name. |
| ArtifactImporter.PreparedEffects | TeamCityArtifactImporter.cs:48-69 | Before the download there are only notes and status requests: no temporary file, store or warning. |
| ArtifactImporter.ClosingEffects | TeamCityArtifactImporter.cs:118-120 | After the clean-up there are only notes and status requests. |
| ArtifactImporter.TempFileAlwaysRemoved | TeamCityArtifactImporter.cs:73-116 | Once the ID is resolved, the temporary file is created exactly once and removed exactly once, later, however the download and the store end. Before that, nothing is created. |
| ArtifactImporter.NotFoundWarned | TeamCityArtifactImporter.cs:84-91 | A failed download ends the import with the web exception after the clean-up, and nothing is stored. A warning is logged exactly when the server answered 404. |
| ArtifactImporter.BuildNumberDefaulted | TeamCityArtifactImporter.cs:57-61 | Without a build number the import downloads and resolves `lastSuccessful`, and that number stays set. A given number is kept. |
| ArtifactImporter.ResolutionOnlyByName | TeamCityArtifactImporter.cs:52-55 | The ID is looked up only when both names are given and no ID is. A failed lookup ends the import before any download. Otherwise the ID is kept and nothing is requested. |
| ArtifactImporter.ImportedArtifactStored | TeamCityArtifactImporter.cs:94-120 | A downloaded artifact is stored under its trimmed name, overwriting. The import answers the actual build number for the number downloaded and the branch. |
| ArtifactImporter.StoresOnlyTheTrimmedName | TeamCityArtifactImporter.cs:103-105 | Every stored artifact overwrites and is named by the trimmed artifact name. |
| ArtifactImporter.TeamCityArtifactImporter.constructor | TeamCityArtifactImporter.cs:32-46 | For accepted arguments, the importer keeps the connection and context, with no settings and an empty trace. |
| ArtifactImporter.TeamCityArtifactImporter.SetBuildConfigurationIdFromName | TeamCityArtifactImporter.cs:169-191 | The ID becomes the exact resolution, or the method throws `ExecutionFailure`. |
| ArtifactImporter.TeamCityArtifactImporter.DownloadArtifactAsync | TeamCityArtifactImporter.cs:73-116 | The try/finally block agrees with the specification's fetch. |
| ArtifactImporter.TeamCityArtifactImporter.GetActualBuildNumber | TeamCityArtifactImporter.cs:123-153 | The answer and the new trace agree with the shared resolution for the importer's branch. |
| ArtifactImporter.TeamCityArtifactImporter.ImportAsync | TeamCityArtifactImporter.cs:48-121 | The result, the new settings and the new trace equal the specification's import. |
| BuildImporter.NoApplicationNoImport | TeamCityBuildImporter.cs:44 | Without an application in the context nothing happens and the import fails. |
| BuildImporter.NoNameResolution | TeamCityBuildImporter.cs:44-50 | Project and name are never set, so the build-type listing is never requested. The import does not depend on it and downloads from the property's ID. |
| BuildImporter.ChosenBranchPassed | TeamCityBuildImporter.cs:47 | The artifact importer works with the branch chosen from the property and the configurer's default. |
| BuildImporter.VariableHoldsImportedNumber | TeamCityBuildImporter.cs:51-68 | `TeamCityBuildNumber` is set exactly when the import succeeds, as the last effect, to the number the importer returned. |
| BuildImporter.ImportSetsNoVariable | TeamCityBuildImporter.cs:51-60 | The artifact importer itself sets no variable. |
| BuildImporter.ProviderAgreesWithImport | TeamCityBuildImporter.cs:37 | For an explicit non-empty number, the provider and the variable agree for the same server reply. |
| BuildImporter.ImportAnswersActualNumber | TeamCityBuildImporter.cs:51 | A successful import answers the shared resolution of its defaulted number. |
| BuildImporter.ProviderDoesNotDefault | TeamCityBuildImporter.cs:37 | Without a build number the provider answers null and asks nothing, although `Import` resolves `lastSuccessful`. |
| BuildImporter.ProviderNarrowsToBranch | TeamCityBuildImporter.cs:71-101 | The provider asks only for a reserved token, narrowed with the chosen branch (lines 85-87). An explicit number is answered unchanged (lines 73-78). |
| BuildImporter.TeamCityBuildImporter.constructor | TeamCityBuildImporter.cs:26-35 | A new importer holds the given persisted properties and an empty trace. |
| BuildImporter.TeamCityBuildImporter.Import | TeamCityBuildImporter.cs:41-69 | The result and the new trace equal the specification's import, with the variable write as a `SetVariable` effect. |
| BuildImporter.TeamCityBuildImporter.GetActualBuildNumber | TeamCityBuildImporter.cs:71-101 | The answer and the trace agree with the shared resolution for the chosen branch. |
| BuildImporter.TeamCityBuildImporter.ProvidedNumber | TeamCityBuildImporter.cs:37 | `ICustomBuildNumberProvider.BuildNumber` is `GetActualBuildNumber` of the property. |
| GetArtifact.TransferFileEffects | GetArtifactAction.cs:90-109 | Exactly one of two paths runs. Deploying writes into the temporary directory and then extracts into the target, overwriting. Copying writes into the target. |
| GetArtifact.DownloadFileEffects | GetArtifactAction.cs:84-88 | The download comes before any write. Nothing is written when it fails. |
| GetArtifact.ExecuteFileEffects | GetArtifactAction.cs:74-112 | The action downloads `repository/download/{id}/{number}/{artifact}`, without a branch, then runs exactly one of the two paths after a successful download. |
| GetArtifact.TempFileKept | GetArtifactAction.cs:83-88 | The temporary file is created but never removed, on either path. |
| GetArtifact.DescribeModeAndDirectory | GetArtifactAction.cs:62-71 | The description says `deploy its contents` or `copy the artifact` according to the flag. It ends with the override directory, or `the default directory` when there is none. |
| GetArtifact.GetArtifactAction.constructor | GetArtifactAction.cs:47-50 | A new action extracts the files into the target directory. |
| GetArtifact.GetArtifactAction.Execute | GetArtifactAction.cs:74-112 | The result and the new trace equal the specification's run of the action. |
| LegacyGetArtifact.LegacyUrlBranch | Legacy/GetArtifactAction.cs:52-59 | The URL is the artifact path, plus `?branch=` and the escaped branch exactly when a branch is chosen (lines 96-105). This is the importer's download URL for that branch. |
| LegacyGetArtifact.LegacyFileEffects | Legacy/GetArtifactAction.cs:65-91 | The download of the branch URL comes first. Nothing is written when it fails; otherwise exactly one of the two paths runs. |
| LegacyGetArtifact.NumberMarkedWhenNumeric | Legacy/GetArtifactAction.cs:34-36 | The build number follows `of build ` directly, or `#` when it parsed as an integer. |
| LegacyGetArtifact.IntegerBuildNumberMarked | Legacy/GetArtifactAction.cs:35 | A 32-bit integer written in decimal parses, so it is marked with `#`. |
| Text.ParseIntOfIntToString | Legacy/GetArtifactAction.cs:35 | Every 32-bit integer written in decimal parses back to itself. |
| LegacyGetArtifact.LegacyGetArtifactAction.constructor | Legacy/GetArtifactAction.cs:28 | A new action extracts the files into the target directory. |
| LegacyGetArtifact.LegacyGetArtifactAction.Execute | Legacy/GetArtifactAction.cs:48-94 | The result and the new trace equal the specification's run of the action. |
| LegacyTrigger.NoApplicationNoQueue | Legacy/TriggerBuildAction.cs:42-48 | Outside an application nothing is logged or requested, and the action fails with an invalid operation. |
| LegacyTrigger.NoNameLookup | Legacy/TriggerBuildAction.cs:42-48 | The queuer is never asked to resolve by name, so the build-type listing plays no part in the run. |
| LegacyTrigger.ChosenBranchQueued | Legacy/TriggerBuildAction.cs:42-50 | With an ID, exactly that ID is queued on the chosen branch. Without waiting, no status is requested, and the run ends queued exactly when the queue reply is read. |
| LegacyTrigger.MissingIdNotQueued | Legacy/TriggerBuildAction.cs:42-50 | Without an ID nothing is queued: the queuer logs the start and the target, then fails on the null ID. |
| LegacyTrigger.UncancelledWait | Legacy/TriggerBuildAction.cs:50 | Without a cancellation token the wait never ends as cancelled. |
| LegacyTrigger.NeverCanceled | Legacy/TriggerBuildAction.cs:50 | The action never ends cancelled. |
| LegacyTrigger.DescriptionNamesQueuedBranch | Legacy/TriggerBuildAction.cs:27-35 | With an explicit branch, the description ends by naming the branch that is queued. |
| LegacyTrigger.RunQueuer | Legacy/TriggerBuildAction.cs:42-50 | A queuer set up with the action's properties and run without cancellation, logging progress, gives the specification's outcome and log. |
| LegacyTrigger.LegacyTriggerBuildAction.constructor | Legacy/TriggerBuildAction.cs:18-25 | A new action has no ID, parameters or branch, does not wait, and has an empty trace. |
| LegacyTrigger.LegacyTriggerBuildAction.Execute | Legacy/TriggerBuildAction.cs:37-51 | The outcome and the new trace equal the specification's run: the queuer's log becomes the action's. |

## Left out

- HTTP, `WebClient` transfers and XML parsing: each server answer is a scripted, already-parsed `Reply`. HTTP status codes stand for `WebException`s.
- `Thread.Sleep`, `Task.Delay` and async/await: the waits are not modelled. The cancellation token and the timeout check are a `seq<bool>`, sampled once per poll.
- The poll loops stop with a "replies used up" outcome once the scripted replies run out. The source would go on polling.
- `StringComparison.OrdinalIgnoreCase` is modelled as ASCII case folding.
- `Trigger.ParseBuildStatuses`: `Enum.Parse` is modelled over single member names, with the white space around them trimmed. Its numeric forms and comma-separated lists of names are not modelled. The model fails on them with `ArgumentException`, where the source yields the number or the combined value.
- `int.TryParse` folds overflow into a format failure.
- `Catalog.GetQualifiedProjectNames`: the parent walk can make at most as many lookups as there are projects. A longer chain ends in a `StackOverflow` fault. The source recurses forever only on a cyclic chain; the model does not prove that an acyclic chain stays within the bound.
- The catalog queries take the project or build-type listing already downloaded. A failed download of that listing only lets its `WebException` escape. The builds listing of `Catalog.GetBuildNumbers` is a `Reply`.
- `Connection.ApiUrl`: the server URL is taken to be non-null and to form an absolute URI. In the source a null `ServerUrl` makes `TrimEnd` throw a `NullReferenceException`, and so does every operation that builds a URL from it. The recipe editor marks the field as required.
- `WebClient.TeamCityWebClient.constructor`: it always succeeds. In the source, an API URL that is no absolute URI, such as one built from the server URL `teamcity.example.com`, makes the `BaseAddress` setter throw `ArgumentException`. The credentials' `new Uri` would throw `UriFormatException` on it too. Every operation that builds a client first would then fail before its first request: the queuer, the trigger action, both artifact actions and the build importer.
- `LegacyGetArtifact.LegacyGetArtifactAction.GetActionDescription`: the description takes what `int.TryParse` made of the build number as a parameter, and the class passes `ParseInt` of its own number.
- The description's `Hilite` and `DirectoryHilite` are shown as plain text. A missing directory is shown as the empty string.
- Log message wording: the model keeps only the level of each entry (debug, information, warning, error).
- Temporary-file creation, artifact-store failures and agent write failures are not modelled. These operations always succeed.
- `SecureString` and the credential store are foreign interop and are not modelled. The password is a plain string.
- The database call that writes `$TeamCityBuildNumber` is a `SetVariable` effect. Profile storage and deserialization in `GetConfigurer` are a given list of profiles.
- The queuer's `AdditionalParameters` is set and kept but never sent. The code does the same.
- `Queuer.TeamCityBuildQueuer.SetBuildConfigurationIdFromName` and `ArtifactImporter.TeamCityArtifactImporter.SetBuildConfigurationIdFromName` require both names. Their only callers ensure that.
- `ArtifactImporter.TeamCityArtifactImporter.ImportAsync`: the importer keeps its own trace, and `BuildImporter.TeamCityBuildImporter.Import` appends it to its own afterwards. In the source both log to the same logger at the same time, so order and content are unchanged.
- The actions and the build importer are given the legacy configurer, because it is the revision that has `DefaultBranchName`.
- `LegacyTrigger.RunQueuer` is `Execute`'s construction and run of the queuer, split out as a method of its own.
- `WaitAndUnwrapExceptions` rethrows the queuer's exception. The model returns it as a `Faulted` outcome.
- UI editors, pickers, recipes, list-variable sources, operations and the action base classes are not part of this model.

## Findings

| source | as written | input that shows it | evidently intended | confidence | as-written member | corrected member |
|---|---|---|---|---|---|---|
| TriggerBuildAction.cs:82 | When a branch is chosen, the URL appends `Uri.EscapeDataString(this.BranchName)`, the explicit property, not the chosen branch | `BranchName` null, configurer `DefaultBranchName` `"main"`, ID `"bt1"`: escaping null throws `ArgumentNullException` before the trigger request | escape the chosen branch, giving `action.html?add2Queue=bt1&branchName=main` | not executed | Trigger.DefaultBranchTriggerThrows | Trigger.IntendedRunRequestsChosenBranch |
| TriggerBuildAction.cs:82 | The same clause with an empty explicit branch escapes the empty string | `BranchName` `""`, configurer `DefaultBranchName` `"main"`, ID `"bt1"`: the request is `action.html?add2Queue=bt1&branchName=`, so the default branch is dropped | the request `action.html?add2Queue=bt1&branchName=main` | not executed | Trigger.EmptyBranchNameDropsDefault | Trigger.IntendedRunRequestsChosenBranch |

The action's run, `Trigger.TriggerBuild`, and the class method `Trigger.TriggerBuildAction.Execute` follow the code as written. `Trigger.IntendedTriggerBuild` is the corrected run, with the chosen branch in the trigger URL.
