/** `TeamCityBuildQueuer`: puts a build of a configuration on the TeamCity build queue
    through the REST API and, when asked to, polls the queued build until TeamCity reports
    it finished, keeping the latest progress for the host to display. */
module Queuer {
  import opened Common
  import opened Text
  import opened Connection
  import opened Catalog
  import opened Resolution

  const BuildQueueUrl: string := "app/rest/buildQueue"
  const NoneText: string := "(none)"

  // ---------------------------------------------------------------- construction

  /** The argument checks of the constructor, in the order it makes them; `None` when the
      queuer can be built. */
  function CheckQueuerArguments(connectionInfo: Option<ConnectionInfo>, hasLogger: bool, context: Option<BuildMasterContext>): Option<Fault>
  {
    if context.None? then Some(ArgumentNull("context"))
    else if context.value.applicationId.None? then Some(InvalidOperation)
    else if connectionInfo.None? then Some(ArgumentNull("connectionInfo"))
    else if !hasLogger then Some(ArgumentNull("logger"))
    else None
  }

  /** The queuer can be built exactly when every argument is present and the context names
      an application; a missing context is reported before anything else. */
  lemma QueuerArgumentsAccepted(connectionInfo: Option<ConnectionInfo>, hasLogger: bool, context: Option<BuildMasterContext>)
    ensures CheckQueuerArguments(connectionInfo, hasLogger, context).None?
        <==> connectionInfo.Some? && hasLogger && context.Some? && context.value.applicationId.Some?
    ensures context.None? ==> CheckQueuerArguments(connectionInfo, hasLogger, context) == Some(ArgumentNull("context"))
  {
  }

  // ---------------------------------------------------------------- build status

  /** The root `<build>` element of a status reply, its attributes and child elements
      already read; `projectName` is `buildType/@projectName`. */
  datatype StatusElement = StatusElement(
    id: Option<string>, number: Option<string>, status: Option<string>, state: Option<string>,
    webUrl: Option<string>, href: Option<string>, waitReason: Option<string>, statusText: Option<string>,
    projectName: Option<string>, percentageComplete: Option<string>)

  /** `TeamCityBuildStatus` of the queuer. */
  datatype BuildStatus = BuildStatus(
    id: Option<string>, number: Option<string>, status: Option<string>, state: Option<string>,
    webUrl: Option<string>, href: string, waitReason: string, statusText: string,
    projectName: Option<string>, percentageComplete: int)
  {
    predicate Success() { EqualsIgnoreCase(status, Some("success")) }
    predicate Finished() { EqualsIgnoreCase(state, Some("finished")) }
  }

  /** The `href` attribute made relative to the API base URL: its path segments without the
      first one (the authentication segment), rejoined with `/`. */
  function RelativeHref(href: string): string {
    var ws := Tokens(href, '/');
    if ws == [] then "" else Join(ws[1..], "/")
  }

  /** An absolute path `/seg/rest...` of non-empty segments becomes `rest...`. */
  lemma RelativeHrefDropsFirstSegment(ws: seq<string>)
    requires |ws| >= 2
    requires forall k :: 0 <= k < |ws| ==> ws[k] != [] && '/' !in ws[k]
    ensures RelativeHref("/" + Join(ws, "/")) == Join(ws[1..], "/")
  {
    TokensSkipLeading(Join(ws, "/"), '/');
    TokensOfJoin(ws, '/');
  }

  /** The percentage of a status: 100 once finished, without reading the attribute;
      otherwise the attribute converted by `XmlConvert.ToInt32`, or 0 when it is absent. */
  function StatusPercent(finished: bool, percentageComplete: Option<string>): (r: Result<int>)
    ensures finished ==> r == Ok(100)
    ensures !finished && percentageComplete.None? ==> r == Ok(0)
    ensures !finished && percentageComplete.Some? ==> r == ParseInt32(percentageComplete.value)
  {
    if finished then Ok(100)
    else if percentageComplete.None? then Ok(0)
    else ParseInt32(percentageComplete.value)
  }

  /** The constructor of `TeamCityBuildStatus`: a missing `href` throws a null reference;
      then, for an unfinished build, a percentage that is not an integer throws a format
      error, and one beyond 32 bits an overflow. */
  function ParseStatus(e: StatusElement): (r: Result<BuildStatus>)
    ensures r.Ok? <==> e.href.Some? && StatusPercent(EqualsIgnoreCase(e.state, Some("finished")), e.percentageComplete).Ok?
    ensures r.Err? && e.href.None? ==> r.fault == NullReference
    ensures r.Err? && e.href.Some? ==> r.fault == Format || r.fault == Overflow
  {
    if e.href.None? then Err(NullReference)
    else
      var finished := EqualsIgnoreCase(e.state, Some("finished"));
      var percent := StatusPercent(finished, e.percentageComplete);
      if percent.Err? then Err(percent.fault)
      else
        Ok(BuildStatus(e.id, e.number, e.status, e.state, e.webUrl, RelativeHref(e.href.value),
                       e.waitReason.GetOr(NoneText), e.statusText.GetOr(NoneText), e.projectName, percent.value))
  }

  /** A finished build reports 100% whatever its attribute says; an unfinished one the
      reported percentage, 0 when there is none. Missing texts read "(none)". */
  lemma StatusPercentage(e: StatusElement)
    requires ParseStatus(e).Ok?
    ensures var s := ParseStatus(e).value;
      && (s.Finished() <==> EqualsIgnoreCase(e.state, Some("finished")))
      && (s.Finished() ==> s.percentageComplete == 100)
      && (!s.Finished() && e.percentageComplete.None? ==> s.percentageComplete == 0)
      && (!s.Finished() && e.percentageComplete.Some? ==> ParseInt(e.percentageComplete) == Some(s.percentageComplete))
      && (e.statusText.None? ==> s.statusText == NoneText)
      && (e.waitReason.None? ==> s.waitReason == NoneText)
  {
  }

  /** A finished build parses whatever its percentage attribute holds; an unfinished one
      with the attribute "half" fails with a format error. */
  lemma MalformedPercentage(e: StatusElement)
    requires e.href.Some?
    ensures EqualsIgnoreCase(e.state, Some("finished")) ==> ParseStatus(e.(percentageComplete := Some("half"))).Ok?
    ensures !EqualsIgnoreCase(e.state, Some("finished")) ==> ParseStatus(e.(percentageComplete := Some("half"))) == Err(Format)
    ensures !EqualsIgnoreCase(e.state, Some("finished")) ==> ParseStatus(e.(percentageComplete := Some(Nines(11)))) == Err(Overflow)
  {
    HalfIsNotAnInteger();
    NinesOverflow(11);
  }

  lemma HalfIsNotAnInteger()
    ensures ParseInt(Some("half")).None?
  {
    var t := "half";
    assert t[0] == 'h' && t[|t| - 1] == 'f';
    assert SkipNumberWhite(t) == t;
    assert DropNumberWhite(t) == t;
    assert !AllDigits(t);
    assert ParseSigned(t).None?;
    assert !IsSignedDigits(t);
  }

  /** Awaiting a status reply and parsing it. */
  function ReadStatus(reply: Reply<StatusElement>): Result<BuildStatus> {
    match Await(reply)
    case Err(f) => Err(f)
    case Ok(e) => ParseStatus(e)
  }

  /** The progress message shown while waiting. Null strings interpolate as empty. */
  function ProgressMessage(s: BuildStatus): string {
    "Building " + OrEmpty(s.projectName) + " Build #" + OrEmpty(s.number)
      + " (" + IntToString(s.percentageComplete) + "% Complete)"
  }

  // ---------------------------------------------------------------- waiting

  /** How waiting ended: the build finished, an exception escaped, or the scripted replies
      ran out while the build was still unfinished. */
  datatype PollOutcome = BuildFinished(status: BuildStatus) | PollFailed(fault: Fault) | RepliesExhausted

  /** What a stretch of the poll loop yields: how it ended, its effects, and the status whose
      progress it published last (`None` when it published none). */
  datatype Poll = Poll(outcome: PollOutcome, effects: seq<Effect>, published: Option<BuildStatus>)

  /** The status published last, given the one published `before` and the one published
      `after` it, if any. */
  function Latest(before: Option<BuildStatus>, after: Option<BuildStatus>): Option<BuildStatus> {
    if after.Some? then after else before
  }

  /** The progress percentage once the status `published` was published over `percent`. */
  function ShownPercent(published: Option<BuildStatus>, percent: int): int {
    if published.Some? then published.value.percentageComplete else percent
  }

  /** The progress message once the status `published` was published over `message`. */
  function ShownMessage(published: Option<BuildStatus>, message: Option<string>): Option<string> {
    if published.Some? then Some(ProgressMessage(published.value)) else message
  }

  /** One pass through the loop body: either the loop stops here (an exception), or it goes
      on with the status just read after the effects `shown`. */
  datatype Step = Stop(poll: Poll) | Continue(next: BuildStatus, shown: seq<Effect>)

  /** The loop body at poll `k`: request the status, parse it, publish its progress, log it
      if asked to, then honour a cancellation. */
  function PollOnce(status: BuildStatus, reply: Reply<StatusElement>, k: nat, cancel: seq<bool>, logProgress: bool): Step
  {
    var asked := [Get(status.href)];
    match ReadStatus(reply)
    case Err(f) => Stop(Poll(PollFailed(f), asked, None))
    case Ok(next) =>
      var shown := asked + (if logProgress then [Log(LogInformation)] else []);
      if Cancelled(cancel, k) then Stop(Poll(PollFailed(Canceled), shown, Some(next)))
      else Continue(next, shown)
  }

  /** Each pass makes exactly one request. */
  lemma PollOnceRequests(status: BuildStatus, reply: Reply<StatusElement>, k: nat, cancel: seq<bool>,
                         logProgress: bool)
    ensures match PollOnce(status, reply, k, cancel, logProgress)
      case Stop(p) => GetCount(p.effects) == 1
      case Continue(_, shown) => GetCount(shown) == 1
  {
    GetCountSingleton(Get(status.href));
    GetCountSingleton(Log(LogInformation));
    GetCountAppend([Get(status.href)], if logProgress then [Log(LogInformation)] else []);
  }

  /** The `while (!status.Finished)` loop from poll `k` on, with `replies[k..]` as the
      server's answers. */
  function PollFrom(status: BuildStatus, replies: seq<Reply<StatusElement>>, k: nat, cancel: seq<bool>, logProgress: bool): Poll
    requires k <= |replies|
    decreases |replies| - k
  {
    if status.Finished() then Poll(BuildFinished(status), [], None)
    else if k == |replies| then Poll(RepliesExhausted, [], None)
    else match PollOnce(status, replies[k], k, cancel, logProgress)
      case Stop(p) => p
      case Continue(next, shown) =>
        var rest := PollFrom(next, replies, k + 1, cancel, logProgress);
        Poll(rest.outcome, shown + rest.effects, Latest(Some(next), rest.published))
  }

  /** The loop ends, without further effects, once the build is finished or the replies
      are used up. */
  lemma PollEnds(status: BuildStatus, replies: seq<Reply<StatusElement>>, k: nat, cancel: seq<bool>, logProgress: bool)
    requires k <= |replies| && (status.Finished() || k == |replies|)
    ensures PollFrom(status, replies, k, cancel, logProgress)
      == Poll(if status.Finished() then BuildFinished(status) else RepliesExhausted, [], None)
  {
  }

  /** Every poll makes exactly one request, so there are never more requests than replies;
      waiting ends for want of replies only after all of them were used; and no request is
      made exactly when the loop does not run at all. */
  lemma {:induction false} PollRequests(status: BuildStatus, replies: seq<Reply<StatusElement>>, k: nat, cancel: seq<bool>,
                                        logProgress: bool)
    requires k <= |replies|
    ensures var p := PollFrom(status, replies, k, cancel, logProgress);
      && GetCount(p.effects) <= |replies| - k
      && (p.outcome.RepliesExhausted? ==> GetCount(p.effects) == |replies| - k)
      && (GetCount(p.effects) == 0 <==> status.Finished() || k == |replies|)
    decreases |replies| - k
  {
    if !status.Finished() && k < |replies| {
      PollOnceRequests(status, replies[k], k, cancel, logProgress);
      match PollOnce(status, replies[k], k, cancel, logProgress)
      case Stop(p) =>
      case Continue(next, shown) =>
        var rest := PollFrom(next, replies, k + 1, cancel, logProgress);
        PollRequests(next, replies, k + 1, cancel, logProgress);
        assert PollFrom(status, replies, k, cancel, logProgress).effects == shown + rest.effects;
        GetCountAppend(shown, rest.effects);
    }
  }

  /** A loop that finished saw a finished status; a loop that did not run published
      nothing, and if it finished it was on the status it started with; a loop that ran and
      finished published the finished status last, at 100%. */
  lemma {:induction false} PollFinish(status: BuildStatus, replies: seq<Reply<StatusElement>>, k: nat, cancel: seq<bool>,
                                      logProgress: bool)
    requires k <= |replies|
    ensures var p := PollFrom(status, replies, k, cancel, logProgress);
      && (p.outcome.BuildFinished? ==> p.outcome.status.Finished())
      && (status.Finished() || k == |replies| ==> p.published.None?)
      && (status.Finished() ==> p.outcome == BuildFinished(status))
      && (p.outcome.BuildFinished? && !status.Finished() ==>
            p.published == Some(p.outcome.status) && p.outcome.status.percentageComplete == 100)
    decreases |replies| - k
  {
    if !status.Finished() && k < |replies| {
      match PollOnce(status, replies[k], k, cancel, logProgress)
      case Stop(p) =>
      case Continue(next, shown) =>
        var rest := PollFrom(next, replies, k + 1, cancel, logProgress);
        PollFinish(next, replies, k + 1, cancel, logProgress);
        assert PollFrom(status, replies, k, cancel, logProgress)
            == Poll(rest.outcome, shown + rest.effects, Latest(Some(next), rest.published));
        if rest.outcome.BuildFinished? && next.Finished() {
          // the build finished at this very poll
          assert next.percentageComplete == 100 by {
            StatusPercentage(Await(replies[k]).value);
          }
        }
    }
  }

  /** The two together: never more requests than replies, all of them used when the
      replies ran out, nothing published without a request, and a wait that finished after
      polling leaves the finished status published at 100%. */
  lemma PollAccounting(status: BuildStatus, replies: seq<Reply<StatusElement>>, k: nat, cancel: seq<bool>,
                       logProgress: bool)
    requires k <= |replies|
    ensures var p := PollFrom(status, replies, k, cancel, logProgress);
      && GetCount(p.effects) <= |replies| - k
      && (p.outcome.RepliesExhausted? ==> GetCount(p.effects) == |replies| - k)
      && (p.outcome.BuildFinished? ==> p.outcome.status.Finished())
      && (GetCount(p.effects) == 0 ==> p.published.None?)
      && (GetCount(p.effects) == 0 && p.outcome.BuildFinished? ==> p.outcome.status == status)
      && (p.outcome.BuildFinished? && GetCount(p.effects) > 0 ==>
            p.published == Some(p.outcome.status) && p.outcome.status.percentageComplete == 100)
  {
    PollRequests(status, replies, k, cancel, logProgress);
    PollFinish(status, replies, k, cancel, logProgress);
  }

  /** A cancellation seen after poll `c` ends waiting: at most `c + 1` requests are made. */
  lemma {:induction false} CancellationStopsPolling(status: BuildStatus, replies: seq<Reply<StatusElement>>, k: nat, cancel: seq<bool>,
                                                    logProgress: bool, c: nat)
    requires k <= |replies| && k <= c && Cancelled(cancel, c)
    ensures GetCount(PollFrom(status, replies, k, cancel, logProgress).effects) <= c + 1 - k
    decreases |replies| - k
  {
    if !status.Finished() && k < |replies| {
      PollOnceRequests(status, replies[k], k, cancel, logProgress);
      match PollOnce(status, replies[k], k, cancel, logProgress)
      case Stop(p) =>
      case Continue(next, shown) =>
        assert k < c;
        var rest := PollFrom(next, replies, k + 1, cancel, logProgress);
        CancellationStopsPolling(next, replies, k + 1, cancel, logProgress, c);
        GetCountAppend(shown, rest.effects);
    }
  }

  /** The rest of a poll loop, after the effects `done` and with `soFar` published last,
      completes the whole loop `total`. */
  predicate Resumes(rest: Poll, done: seq<Effect>, soFar: Option<BuildStatus>, total: Poll) {
    && rest.outcome == total.outcome && Latest(soFar, rest.published) == total.published
    && done + rest.effects == total.effects
  }

  /** Resuming is transitive. */
  lemma {:induction false} ResumesAfter(done: seq<Effect>, soFar: Option<BuildStatus>, here: Poll, total: Poll,
                                        shown: seq<Effect>, mid: Option<BuildStatus>, rest: Poll)
    requires Resumes(here, done, soFar, total) && Resumes(rest, shown, mid, here)
    ensures Resumes(rest, done + shown, Latest(soFar, mid), total)
  {
    AppendAssoc(done, shown, rest.effects);
  }

  // ---------------------------------------------------------------- queueing

  /** The queuer's settable properties. */
  datatype QueueSettings = QueueSettings(
    buildConfigurationId: Option<string>, projectName: Option<string>, buildConfigurationName: Option<string>,
    branchName: Option<string>, waitForCompletion: bool)

  /** The server's side of one run: the build-type listing (used only when resolving by
      name), the reply to the queue request, and the replies to the status polls. */
  datatype QueueServer = QueueServer(
    buildTypes: Reply<seq<BuildTypeElement>>, queued: Reply<StatusElement>, polls: seq<Reply<StatusElement>>)

  /** How `QueueBuildAsync` ended: returned right after queueing, returned after the build
      finished (successfully or not, which is only logged), threw, or was still waiting when
      the scripted replies ran out. */
  datatype QueueOutcome = Queued | Completed(success: bool) | Faulted(fault: Fault) | StillWaiting

  /** A run: how it ended, its effects, the configuration ID it leaves set, and the status
      whose progress it published last. */
  datatype QueueRun = QueueRun(outcome: QueueOutcome, effects: seq<Effect>, buildConfigurationId: Option<string>,
                               published: Option<BuildStatus>)

  /** The ID is looked up by name only when both names are set and no ID is. */
  predicate ResolvesByName(s: QueueSettings) {
    s.buildConfigurationName.Some? && s.projectName.Some? && s.buildConfigurationId.None?
  }

  /** `SetBuildConfigurationIdFromName`: two debug entries, the build-type request, the
      nested lookup, and a debug entry on success. */
  function ResolveByName(buildTypes: Reply<seq<BuildTypeElement>>, projectName: Option<string>, name: Option<string>): Traced<string>
  {
    var asked := [Log(LogDebug), Log(LogDebug), Get(BuildTypesUrl)];
    match buildTypes
    case HttpFailure(status) => Traced(Err(Web(status)), asked)
    case Received(es) =>
      var r := ResolveNested(es, projectName, name);
      Traced(r, asked + if r.Ok? then [Log(LogDebug)] else [])
  }

  /** The debug entries before the queue request. */
  function ReportTarget(branchName: Option<string>): seq<Effect> {
    [Log(LogDebug)] + if branchName.Some? then [Log(LogDebug)] else []
  }

  /** `QueueBuildAsync` up to the queue request: the ID to queue, if any. */
  function Prepare(s: QueueSettings, buildTypes: Reply<seq<BuildTypeElement>>): Traced<Option<string>>
  {
    var start := [Log(LogInformation)];
    if ResolvesByName(s) then
      var r := ResolveByName(buildTypes, s.projectName, s.buildConfigurationName);
      if r.result.Err? then Traced(Err(r.result.fault), start + r.effects)
      else Traced(Ok(Some(r.result.value)), start + r.effects + ReportTarget(s.branchName))
    else Traced(Ok(s.buildConfigurationId), start + ReportTarget(s.branchName))
  }

  /** How `QueueBuildAsync` ends once waiting ended this way. */
  function Concluded(o: PollOutcome): QueueOutcome {
    match o
    case BuildFinished(last) => Completed(last.Success())
    case PollFailed(f) => Faulted(f)
    case RepliesExhausted => StillWaiting
  }

  /** The closing log entry: information for a successful build, an error otherwise, and
      none when waiting did not end with a finished build. */
  function Closing(o: PollOutcome): seq<Effect> {
    if o.BuildFinished? then [Log(if o.status.Success() then LogInformation else LogError)] else []
  }

  /** `QueueBuildAsync` once the build is queued and waited for: the waiting message, the
      poll loop and the closing entry. */
  function AwaitBuild(first: BuildStatus, id: string, polls: seq<Reply<StatusElement>>, cancel: seq<bool>, logProgress: bool): QueueRun
  {
    var p := PollFrom(first, polls, 0, cancel, logProgress);
    QueueRun(Concluded(p.outcome), [Log(LogInformation)] + p.effects + Closing(p.outcome), Some(id), p.published)
  }

  /** `QueueBuildAsync` from the queue request on, once the ID is known. */
  function QueueAndWait(branchName: Option<string>, waitForCompletion: bool, id: string,
                        server: QueueServer, cancel: seq<bool>, logProgress: bool): QueueRun
  {
    var post := Post(BuildQueueUrl, QueueRequestBody(OrEmpty(branchName), id));
    match ReadStatus(server.queued)
    case Err(f) => QueueRun(Faulted(f), [post], Some(id), None)
    case Ok(first) =>
      var queued := [post, Log(LogInformation)];
      if !waitForCompletion then QueueRun(Queued, queued, Some(id), None)
      else
        var w := AwaitBuild(first, id, server.polls, cancel, logProgress);
        w.(effects := queued + w.effects)
  }

  /** `QueueBuildAsync`, as a function of the settings and the server. */
  function QueueBuild(s: QueueSettings, server: QueueServer, cancel: seq<bool>, logProgress: bool): QueueRun
  {
    var pre := Prepare(s, server.buildTypes);
    if pre.result.Err? then QueueRun(Faulted(pre.result.fault), pre.effects, s.buildConfigurationId, None)
    else if pre.result.value.None? then QueueRun(Faulted(ArgumentNull("value")), pre.effects, None, None)  // new XAttribute("id", null)
    else
      var q := QueueAndWait(s.branchName, s.waitForCompletion, pre.result.value.value, server, cancel, logProgress);
      q.(effects := pre.effects + q.effects)
  }

  /** The requests made before the queue request: the build-type listing, and only when
      the ID is resolved by name. */
  lemma PrepareRequests(s: QueueSettings, buildTypes: Reply<seq<BuildTypeElement>>)
    ensures GetCount(Prepare(s, buildTypes).effects) == if ResolvesByName(s) then 1 else 0
    ensures Prepare(s, buildTypes).result.Ok? && !ResolvesByName(s) ==> Prepare(s, buildTypes).result.value == s.buildConfigurationId
  {
    var start := [Log(LogInformation)];
    NoRequestsInLogs(start);
    NoRequestsInLogs(ReportTarget(s.branchName));
    if ResolvesByName(s) {
      var r := ResolveByName(buildTypes, s.projectName, s.buildConfigurationName);
      var asked := [Log(LogDebug), Log(LogDebug), Get(BuildTypesUrl)];
      assert asked == [Log(LogDebug), Log(LogDebug)] + [Get(BuildTypesUrl)];
      NoRequestsInLogs([Log(LogDebug), Log(LogDebug)]);
      GetCountSingleton(Get(BuildTypesUrl));
      GetCountAppend([Log(LogDebug), Log(LogDebug)], [Get(BuildTypesUrl)]);
      NoRequestsInLogs([Log(LogDebug)]);
      NoRequestsInLogs([]);
      GetCountAppend(asked, if r.result.Ok? then [Log(LogDebug)] else []);
      GetCountAppend(start, r.effects);
      GetCountAppend(start + r.effects, ReportTarget(s.branchName));
    } else {
      GetCountAppend(start, ReportTarget(s.branchName));
    }
  }

  /** With a configuration ID given, exactly that ID is queued with the branch (empty when
      none); without waiting, no status is requested and no progress is published. */
  lemma {:induction false} QueueRequestSent(s: QueueSettings, server: QueueServer, cancel: seq<bool>, logProgress: bool)
    requires s.buildConfigurationId.Some?
    ensures var run := QueueBuild(s, server, cancel, logProgress);
      && Post(BuildQueueUrl, QueueRequestBody(OrEmpty(s.branchName), s.buildConfigurationId.value)) in run.effects
      && run.buildConfigurationId == s.buildConfigurationId
      && (!s.waitForCompletion ==> GetCount(run.effects) == 0 && run.published.None?)
  {
    var pre := Prepare(s, server.buildTypes);
    PrepareRequests(s, server.buildTypes);
    var id := s.buildConfigurationId.value;
    var post := Post(BuildQueueUrl, QueueRequestBody(OrEmpty(s.branchName), id));
    var q := QueueAndWait(s.branchName, s.waitForCompletion, id, server, cancel, logProgress);
    assert q.effects[0] == post;
    assert (pre.effects + q.effects)[|pre.effects|] == post;
    if !s.waitForCompletion {
      GetCountAppend(pre.effects, q.effects);
      if ReadStatus(server.queued).Ok? {
        assert q.effects == [post] + [Log(LogInformation)];
        GetCountAppend([post], [Log(LogInformation)]);
      }
      GetCountSingleton(post);
      GetCountSingleton(Log(LogInformation));
    }
  }

  /** With the ID resolved by name, the ID the lookup found is queued with the branch (empty
      when none); without waiting, the build-type listing is the only request and no
      progress is published. */
  lemma {:induction false} QueueRequestSentByName(s: QueueSettings, server: QueueServer, cancel: seq<bool>, logProgress: bool)
    requires ResolvesByName(s) && Prepare(s, server.buildTypes).result.Ok?
    ensures Prepare(s, server.buildTypes).result.value.Some?
    ensures var id := Prepare(s, server.buildTypes).result.value.value;
      var run := QueueBuild(s, server, cancel, logProgress);
      && Post(BuildQueueUrl, QueueRequestBody(OrEmpty(s.branchName), id)) in run.effects
      && run.buildConfigurationId == Some(id)
      && (!s.waitForCompletion ==> GetCount(run.effects) == 1 && run.published.None?)
  {
    var pre := Prepare(s, server.buildTypes);
    PrepareRequests(s, server.buildTypes);
    var id := pre.result.value.value;
    var post := Post(BuildQueueUrl, QueueRequestBody(OrEmpty(s.branchName), id));
    var q := QueueAndWait(s.branchName, s.waitForCompletion, id, server, cancel, logProgress);
    assert q.effects[0] == post;
    assert (pre.effects + q.effects)[|pre.effects|] == post;
    if !s.waitForCompletion {
      GetCountAppend(pre.effects, q.effects);
      if ReadStatus(server.queued).Ok? {
        assert q.effects == [post] + [Log(LogInformation)];
        GetCountAppend([post], [Log(LogInformation)]);
      }
      GetCountSingleton(post);
      GetCountSingleton(Log(LogInformation));
    }
  }

  /** Waiting completes exactly when the build was seen finished; a completed wait ends
      with an error entry exactly when the build did not succeed, and, once it polled,
      leaves the finished status published at 100%; the wait makes no more requests than
      there were status replies. */
  lemma {:induction false} AwaitBuildReportsFinishedBuild(first: BuildStatus, id: string, polls: seq<Reply<StatusElement>>,
                                                          cancel: seq<bool>, logProgress: bool)
    ensures var w := AwaitBuild(first, id, polls, cancel, logProgress);
      && (w.outcome.Completed? <==> PollFrom(first, polls, 0, cancel, logProgress).outcome.BuildFinished?)
      && GetCount(w.effects) <= |polls|
      && (w.outcome.Completed? ==>
            && w.effects != []
            && (w.effects[|w.effects| - 1] == Log(LogError) <==> !w.outcome.success)
            && (w.published.Some? ==> w.published.value.Finished() && w.published.value.percentageComplete == 100))
  {
    var p := PollFrom(first, polls, 0, cancel, logProgress);
    PollAccounting(first, polls, 0, cancel, logProgress);
    var info := [Log(LogInformation)];
    NoRequestsInLogs(info);
    NoRequestsInLogs(Closing(p.outcome));
    GetCountAppend(info, p.effects);
    GetCountAppend(info + p.effects, Closing(p.outcome));
  }

  /** Once the ID is known, a run that completed was waiting, ends with an error entry
      exactly when the build did not succeed, and made no more requests than there were
      status replies. */
  lemma {:induction false} CompletedWaitReportsFinishedBuild(branchName: Option<string>, waitForCompletion: bool, id: string,
                                                             server: QueueServer, cancel: seq<bool>, logProgress: bool)
    ensures var q := QueueAndWait(branchName, waitForCompletion, id, server, cancel, logProgress);
      q.outcome.Completed? ==>
        && waitForCompletion
        && q.effects != []
        && (q.effects[|q.effects| - 1] == Log(LogError) <==> !q.outcome.success)
        && GetCount(q.effects) <= |server.polls|
  {
    var q := QueueAndWait(branchName, waitForCompletion, id, server, cancel, logProgress);
    if q.outcome.Completed? {
      var first := ReadStatus(server.queued).value;
      var w := AwaitBuild(first, id, server.polls, cancel, logProgress);
      AwaitBuildReportsFinishedBuild(first, id, server.polls, cancel, logProgress);
      var post := Post(BuildQueueUrl, QueueRequestBody(OrEmpty(branchName), id));
      var queued := [post, Log(LogInformation)];
      assert q.effects == queued + w.effects;
      assert queued == [post] + [Log(LogInformation)];
      GetCountSingleton(post);
      GetCountSingleton(Log(LogInformation));
      GetCountAppend([post], [Log(LogInformation)]);
      GetCountAppend(queued, w.effects);
    }
  }

  /** A run that completed was waiting, ends with an error entry exactly when the build did
      not succeed, and made no more requests than there were status replies (plus the
      build-type listing when resolving by name). */
  lemma {:induction false} CompletedRunReportsFinishedBuild(s: QueueSettings, server: QueueServer, cancel: seq<bool>, logProgress: bool)
    ensures var run := QueueBuild(s, server, cancel, logProgress);
      run.outcome.Completed? ==>
        && s.waitForCompletion
        && run.effects != []
        && (run.effects[|run.effects| - 1] == Log(LogError) <==> !run.outcome.success)
        && GetCount(run.effects) <= |server.polls| + (if ResolvesByName(s) then 1 else 0)
  {
    var run := QueueBuild(s, server, cancel, logProgress);
    if run.outcome.Completed? {
      var pre := Prepare(s, server.buildTypes);
      PrepareRequests(s, server.buildTypes);
      var id := pre.result.value.value;
      var q := QueueAndWait(s.branchName, s.waitForCompletion, id, server, cancel, logProgress);
      CompletedWaitReportsFinishedBuild(s.branchName, s.waitForCompletion, id, server, cancel, logProgress);
      assert run.effects == pre.effects + q.effects;
      GetCountAppend(pre.effects, q.effects);
    }
  }

  // ---------------------------------------------------------------- the object

  datatype OperationProgress = OperationProgress(percent: int, message: Option<string>)

  class TeamCityBuildQueuer {
    var progressPercent: int
    var progressMessage: Option<string>
    var buildConfigurationId: Option<string>
    var projectName: Option<string>
    var buildConfigurationName: Option<string>
    var branchName: Option<string>
    var waitForCompletion: bool
    /** Settable, but `QueueBuildAsync` never reads it. */
    var additionalParameters: Option<string>
    /** Everything the queuer has logged and requested so far. */
    var trace: seq<Effect>
    const connectionInfo: ConnectionInfo
    const context: BuildMasterContext

    constructor (connectionInfo: ConnectionInfo, context: BuildMasterContext)
      requires CheckQueuerArguments(Some(connectionInfo), true, Some(context)).None?
      ensures this.connectionInfo == connectionInfo && this.context == context
      ensures progressPercent == 0 && progressMessage.None?
      ensures buildConfigurationId.None? && projectName.None? && buildConfigurationName.None?
      ensures branchName.None? && !waitForCompletion && additionalParameters.None?
      ensures trace == []
    {
      this.connectionInfo := connectionInfo;
      this.context := context;
      progressPercent := 0;
      progressMessage := None;
      buildConfigurationId := None;
      projectName := None;
      buildConfigurationName := None;
      branchName := None;
      waitForCompletion := false;
      additionalParameters := None;
      trace := [];
    }

    function Settings(): QueueSettings
      reads this
    {
      QueueSettings(buildConfigurationId, projectName, buildConfigurationName, branchName, waitForCompletion)
    }

    /** `GetProgress`: the percentage and message of the latest poll. */
    method GetProgress() returns (p: OperationProgress)
      ensures p.percent == progressPercent && p.message == progressMessage
    {
      p := OperationProgress(progressPercent, progressMessage);
    }

    /** `SetBuildConfigurationIdFromName`. */
    method SetBuildConfigurationIdFromName(buildTypes: Reply<seq<BuildTypeElement>>) returns (r: Result<string>)
      modifies this`trace, this`buildConfigurationId
      ensures var spec := ResolveByName(buildTypes, projectName, buildConfigurationName);
        r == spec.result && trace == old(trace) + spec.effects
      ensures buildConfigurationId == (if r.Ok? then Some(r.value) else old(buildConfigurationId))
    {
      trace := trace + [Log(LogDebug), Log(LogDebug), Get(BuildTypesUrl)];
      match buildTypes
      case HttpFailure(status) =>
        r := Err(Web(status));
      case Received(es) =>
        r := ResolveNested(es, projectName, buildConfigurationName);
        if r.Ok? {
          buildConfigurationId := Some(r.value);
          trace := trace + [Log(LogDebug)];
        }
    }

    /** The progress fields show the status `published`, or `percent` and `message` while
        none was published. */
    predicate Shows(published: Option<BuildStatus>, percent: int, message: Option<string>)
      reads this
    {
      progressPercent == ShownPercent(published, percent) && progressMessage == ShownMessage(published, message)
    }

    /** The wait loop: polls until the build is finished, an exception escapes, or the
        scripted replies run out. */
    method WaitForBuild(first: BuildStatus, polls: seq<Reply<StatusElement>>, cancel: seq<bool>, logProgress: bool)
      returns (outcome: PollOutcome)
      modifies this`trace, this`progressPercent, this`progressMessage
      ensures var p := PollFrom(first, polls, 0, cancel, logProgress);
        && outcome == p.outcome && trace == old(trace) + p.effects
        && Shows(p.published, old(progressPercent), old(progressMessage))
    {
      ghost var total := PollFrom(first, polls, 0, cancel, logProgress);
      ghost var soFar: Option<BuildStatus> := None;
      ghost var here := total;
      ghost var done: seq<Effect> := [];
      var status := first;
      var k := 0;
      while !status.Finished() && k < |polls|
        invariant k <= |polls|
        invariant here == PollFrom(status, polls, k, cancel, logProgress)
        invariant Resumes(here, done, soFar, total)
        invariant trace == old(trace) + done
        invariant Shows(soFar, old(progressPercent), old(progressMessage))
        decreases |polls| - k
      {
        var step := PollOnceSteps(status, polls, k, cancel, logProgress, soFar, old(progressPercent), old(progressMessage));
        if step.Stop? {
          AppendAssoc(old(trace), done, here.effects);
          outcome := step.poll.outcome;
          return;
        }
        ghost var rest := PollFrom(step.next, polls, k + 1, cancel, logProgress);
        ResumesAfter(done, soFar, here, total, step.shown, Some(step.next), rest);
        AppendAssoc(old(trace), done, step.shown);
        done := done + step.shown;
        here := rest;
        soFar := Some(step.next);
        status := step.next;
        k := k + 1;
      }
      PollEnds(status, polls, k, cancel, logProgress);
      outcome := if status.Finished() then BuildFinished(status) else RepliesExhausted;
    }

    /** The loop body of `QueueBuildAsync`'s wait: one poll, which either ends the loop with
        what the loop as a whole yields, or leaves the rest of the loop to do the same.
        `soFar` is the status published before it. */
    method PollOnceSteps(status: BuildStatus, polls: seq<Reply<StatusElement>>, k: nat, cancel: seq<bool>, logProgress: bool,
                         ghost soFar: Option<BuildStatus>, ghost percent: int, ghost message: Option<string>)
      returns (step: Step)
      requires k < |polls| && !status.Finished()
      requires Shows(soFar, percent, message)
      modifies this`trace, this`progressPercent, this`progressMessage
      ensures step == PollOnce(status, polls[k], k, cancel, logProgress)
      ensures step.Stop? ==> PollFrom(status, polls, k, cancel, logProgress) == step.poll
      ensures step.Stop? ==> trace == old(trace) + step.poll.effects && Shows(Latest(soFar, step.poll.published), percent, message)
      ensures step.Continue? ==> trace == old(trace) + step.shown && Shows(Some(step.next), percent, message)
      ensures step.Continue? ==>
        Resumes(PollFrom(step.next, polls, k + 1, cancel, logProgress), step.shown, Some(step.next),
                PollFrom(status, polls, k, cancel, logProgress))
    {
      trace := trace + [Get(status.href)];
      var read := ReadStatus(polls[k]);
      if read.Err? {
        step := Stop(Poll(PollFailed(read.fault), [Get(status.href)], None));
        return;
      }
      var next := read.value;
      progressPercent := next.percentageComplete;
      progressMessage := Some(ProgressMessage(next));
      var shown := [Get(status.href)];
      if logProgress {
        AppendAssoc(old(trace), shown, [Log(LogInformation)]);
        trace := trace + [Log(LogInformation)];
        shown := shown + [Log(LogInformation)];
      }
      if Cancelled(cancel, k) {
        step := Stop(Poll(PollFailed(Canceled), shown, Some(next)));
      } else {
        step := Continue(next, shown);
      }
    }

    /** `QueueBuildAsync` up to the queue request. */
    method PrepareQueue(buildTypes: Reply<seq<BuildTypeElement>>) returns (r: Result<Option<string>>)
      modifies this`trace, this`buildConfigurationId
      ensures var spec := Prepare(old(Settings()), buildTypes);
        r == spec.result && trace == old(trace) + spec.effects
      ensures buildConfigurationId == (if r.Ok? then r.value else old(buildConfigurationId))
    {
      ghost var s := Settings();
      ghost var t0 := trace;
      var start := [Log(LogInformation)];
      trace := trace + start;
      if buildConfigurationName.Some? && projectName.Some? && buildConfigurationId.None? {
        ghost var spec := ResolveByName(buildTypes, projectName, buildConfigurationName);
        var resolved := SetBuildConfigurationIdFromName(buildTypes);
        AppendAssoc(t0, start, spec.effects);
        if resolved.Err? {
          r := Err(resolved.fault);
          return;
        }
        trace := trace + ReportTarget(branchName);
        AppendAssoc(t0, start + spec.effects, ReportTarget(s.branchName));
      } else {
        trace := trace + ReportTarget(branchName);
        AppendAssoc(t0, start, ReportTarget(s.branchName));
      }
      r := Ok(buildConfigurationId);
    }

    /** `QueueBuildAsync` from the queue request on. */
    method QueueAndWaitAsync(id: string, server: QueueServer, cancel: seq<bool>, logProgress: bool) returns (outcome: QueueOutcome)
      modifies this`trace, this`progressPercent, this`progressMessage
      ensures var run := QueueAndWait(branchName, waitForCompletion, id, server, cancel, logProgress);
        && outcome == run.outcome && trace == old(trace) + run.effects
        && Shows(run.published, old(progressPercent), old(progressMessage))
    {
      ghost var t0 := trace;
      var post := Post(BuildQueueUrl, QueueRequestBody(OrEmpty(branchName), id));
      trace := trace + [post];
      var read := ReadStatus(server.queued);
      if read.Err? {
        outcome := Faulted(read.fault);
        return;
      }
      trace := trace + [Log(LogInformation)];
      ghost var queued := [post, Log(LogInformation)];
      AppendAssoc(t0, [post], [Log(LogInformation)]);
      assert [post] + [Log(LogInformation)] == queued;
      if !waitForCompletion {
        outcome := Queued;
        return;
      }
      ghost var w := AwaitBuild(read.value, id, server.polls, cancel, logProgress);
      ghost var run := QueueAndWait(branchName, waitForCompletion, id, server, cancel, logProgress);
      assert run == w.(effects := queued + w.effects);
      outcome := AwaitBuildAsync(read.value, id, server.polls, cancel, logProgress);
      AppendAssoc(t0, queued, w.effects);
    }

    /** The waiting part of `QueueBuildAsync`. */
    method AwaitBuildAsync(first: BuildStatus, id: string, polls: seq<Reply<StatusElement>>, cancel: seq<bool>, logProgress: bool)
      returns (outcome: QueueOutcome)
      modifies this`trace, this`progressPercent, this`progressMessage
      ensures var run := AwaitBuild(first, id, polls, cancel, logProgress);
        && outcome == run.outcome && trace == old(trace) + run.effects
        && Shows(run.published, old(progressPercent), old(progressMessage))
    {
      ghost var t0 := trace;
      trace := trace + [Log(LogInformation)];
      ghost var p := PollFrom(first, polls, 0, cancel, logProgress);
      var polled := WaitForBuild(first, polls, cancel, logProgress);
      trace := trace + Closing(polled);
      outcome := Concluded(polled);
      AppendAssoc(t0, [Log(LogInformation)], p.effects);
      AppendAssoc(t0, [Log(LogInformation)] + p.effects, Closing(polled));
    }

    /** `QueueBuildAsync`. `cancel` is the cancellation token, sampled after each poll. */
    method QueueBuildAsync(server: QueueServer, cancel: seq<bool>, logProgressToExecutionLog: bool) returns (outcome: QueueOutcome)
      modifies this`trace, this`buildConfigurationId, this`progressPercent, this`progressMessage
      ensures var run := QueueBuild(old(Settings()), server, cancel, logProgressToExecutionLog);
        && outcome == run.outcome && trace == old(trace) + run.effects
        && buildConfigurationId == run.buildConfigurationId
        && Shows(run.published, old(progressPercent), old(progressMessage))
    {
      ghost var s := Settings();
      ghost var t0 := trace;
      var pre := PrepareQueue(server.buildTypes);
      ghost var spec := Prepare(s, server.buildTypes);
      assert branchName == s.branchName && waitForCompletion == s.waitForCompletion;
      if pre.Err? {
        outcome := Faulted(pre.fault);
      } else if pre.value.None? {
        outcome := Faulted(ArgumentNull("value"));  // new XAttribute("id", null)
      } else {
        outcome := QueueAndWaitAsync(pre.value.value, server, cancel, logProgressToExecutionLog);
        ghost var q := QueueAndWait(s.branchName, s.waitForCompletion, pre.value.value, server, cancel, logProgressToExecutionLog);
        AppendAssoc(t0, spec.effects, q.effects);
        assert QueueBuild(s, server, cancel, logProgressToExecutionLog) == q.(effects := spec.effects + q.effects);
      }
    }
  }
}
