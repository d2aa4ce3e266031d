/** `TriggerBuildAction`: triggers a build of a configuration through TeamCity's
    `action.html?add2Queue=` endpoint and, when asked to, finds the running build,
    polls its status until it is no longer running, and logs how it ended. */
module Trigger {
  import opened Common
  import opened Text
  import opened Configurers

  // ---------------------------------------------------------------- URLs

  /** The trigger URL as the action builds it: the branch clause is present when a branch
      was chosen, but it escapes the action's own `BranchName`, not the chosen branch. */
  function TriggerUrlAsWritten(buildConfigurationId: Option<string>, branchName: Option<string>, branch: Option<string>,
                               additionalParameters: Option<string>): Result<string>
  {
    if branch.Some? && branchName.None? then Err(ArgumentNull("stringToEscape"))
    else
      var clause := if branch.Some? then "&branchName=" + EscapeDataString(branchName.value) else "";
      Ok("action.html?add2Queue=" + OrEmpty(buildConfigurationId) + clause + OrEmpty(additionalParameters))
  }

  /** The trigger URL with the chosen branch escaped into the branch clause. */
  function TriggerUrl(buildConfigurationId: Option<string>, branch: Option<string>, additionalParameters: Option<string>): string
  {
    var clause := if branch.Some? then "&branchName=" + EscapeDataString(branch.value) else "";
    "action.html?add2Queue=" + OrEmpty(buildConfigurationId) + clause + OrEmpty(additionalParameters)
  }

  /** The two agree whenever an explicit branch is set or no branch is chosen at all. */
  lemma {:induction false} TriggerUrlsAgree(buildConfigurationId: Option<string>, branchName: Option<string>,
                                            configurer: LegacyTeamCityConfigurer, additionalParameters: Option<string>)
    requires !IsNullOrEmpty(branchName) || GetBranchName(branchName, configurer).None?
    ensures var branch := GetBranchName(branchName, configurer);
      TriggerUrlAsWritten(buildConfigurationId, branchName, branch, additionalParameters)
        == Ok(TriggerUrl(buildConfigurationId, branch, additionalParameters))
  {
  }

  lemma MainBranchUrl()
    ensures TriggerUrl(Some("bt1"), Some("main"), None) == "action.html?add2Queue=bt1&branchName=main"
  {
    EscapeUnreservedIsIdentity("main");
  }

  /** The query for the build just started: one running build of the configuration, on the
      chosen branch when there is one. */
  function LatestBuildUrl(buildConfigurationId: Option<string>, branch: Option<string>): string {
    "app/rest/builds?locator=buildType:" + OrEmpty(buildConfigurationId) + ",count:1,running:true"
      + (if branch.Some? then ",branch:" + EscapeDataString(branch.value) else "")
  }

  function StatusUrl(buildId: string): string {
    "app/rest/builds/id:" + buildId
  }

  // ---------------------------------------------------------------- replies

  /** The `<builds>` reply of the latest-build query: its `count` attribute and the `id` of
      its first `<build>`. */
  datatype BuildsElement = BuildsElement(count: Option<string>, firstBuildId: Option<string>)

  /** `ParseBuildId`: null when TeamCity counts no build, otherwise the first build's ID;
      a missing attribute is a null dereference. */
  function ParseBuildId(e: BuildsElement): (r: Result<Option<string>>)
    ensures r == Ok(None) <==> e.count == Some("0")
    ensures r.Ok? && r.value.Some? ==> r.value == e.firstBuildId
    ensures r.Err? ==> r.fault == NullReference && (e.count.None? || e.firstBuildId.None?)
  {
    if e.count.None? then Err(NullReference)
    else if e.count.value == "0" then Ok(None)
    else if e.firstBuildId.None? then Err(NullReference)
    else Ok(e.firstBuildId)
  }

  datatype BuildStatuses = Success | Failure | Error

  function StatusName(s: BuildStatuses): string {
    match s
    case Success => "Success"
    case Failure => "Failure"
    case Error => "Error"
  }

  /** `Enum.Parse(typeof(BuildStatuses), name, true)` over single member names: white space
      around the name is ignored, and a name that is no member's fails. */
  function ParseBuildStatuses(name: string): (r: Result<BuildStatuses>)
    ensures r.Ok? ==> SameIgnoringCase(Trim(name), StatusName(r.value))
    ensures r.Err? <==> forall s: BuildStatuses :: !SameIgnoringCase(Trim(name), StatusName(s))
    ensures r.Err? ==> r.fault == Argument
  {
    var t := Trim(name);
    if SameIgnoringCase(t, "Success") then Ok(Success)
    else if SameIgnoringCase(t, "Failure") then Ok(Failure)
    else if SameIgnoringCase(t, "Error") then Ok(Error)
    else Err(Argument)
  }

  /** Every member name parses back to its member. */
  lemma StatusNameParses(s: BuildStatuses)
    ensures ParseBuildStatuses(StatusName(s)) == Ok(s)
  {
    TrimUntouched(StatusName(s));
    SameIgnoringCaseReflexive(StatusName(s));
  }

  /** TeamCity's upper-case spellings are accepted. */
  lemma SuccessParses()
    ensures ParseBuildStatuses("SUCCESS") == Ok(Success)
  {
    TrimUntouched("SUCCESS");
    SameIgnoringCaseByChars("SUCCESS", "Success");
  }

  /** White space around a status name is ignored. */
  lemma PaddedSuccessParses()
    ensures ParseBuildStatuses(" SUCCESS ") == Ok(Success)
  {
    var padded := " SUCCESS ";
    assert padded[1..] == "SUCCESS ";
    assert TrimStart("SUCCESS ") == "SUCCESS ";
    assert TrimStart(padded) == "SUCCESS ";
    assert "SUCCESS "[..7] == "SUCCESS";
    assert TrimTrailing("SUCCESS") == "SUCCESS";
    assert Trim(padded) == "SUCCESS";
    SameIgnoringCaseByChars("SUCCESS", "Success");
  }

  lemma FailureParses()
    ensures ParseBuildStatuses("FAILURE") == Ok(Failure)
  {
    TrimUntouched("FAILURE");
    SameIgnoringCaseByChars("FAILURE", "Failure");
  }

  lemma ErrorParses()
    ensures ParseBuildStatuses("ERROR") == Ok(Error)
  {
    TrimUntouched("ERROR");
    SameIgnoringCaseByChars("ERROR", "Error");
  }

  /** `bool.Parse`: `True` or `False` in any case, around white space. */
  function ParseBool(v: string): (r: Result<bool>)
    ensures r.Ok? ==> SameIgnoringCase(Trim(v), if r.value then "True" else "False")
    ensures r.Err? ==> r.fault == Format
  {
    var t := Trim(v);
    if SameIgnoringCase(t, "True") then Ok(true)
    else if SameIgnoringCase(t, "False") then Ok(false)
    else Err(Format)
  }

  /** The root `<build>` element of a status reply: `number`, `status`, `statusText`,
      `running`, `running-info/@percentageComplete` and `buildType/@projectName`. */
  datatype TriggerStatusElement = TriggerStatusElement(
    number: Option<string>, status: Option<string>, statusText: Option<string>, running: Option<string>,
    percentageComplete: Option<string>, projectName: Option<string>)

  /** `TeamCityBuildStatus` of the trigger action. */
  datatype TriggerBuildStatus = TriggerBuildStatus(
    buildNumber: string, status: BuildStatuses, statusText: string, isRunning: bool, percentComplete: int, projectName: string)

  /** `IsRunning`: false without the attribute, else `bool.Parse` of it. */
  function ParseRunning(running: Option<string>): Result<bool> {
    if running.None? then Ok(false) else ParseBool(running.value)
  }

  /** `PercentComplete`: `int.Parse` of the running-info value while running, else 100. */
  function ParsePercent(isRunning: bool, percentageComplete: Option<string>): Result<int> {
    if !isRunning then Ok(100)
    else if percentageComplete.None? then Err(NullReference)
    else ParseInt32(percentageComplete.value)
  }

  /** While running, a percentage beyond 32 bits throws `OverflowException` and one that is
      no number `FormatException`. */
  lemma PercentFaults(percentageComplete: string)
    ensures ParsePercent(true, Some(Nines(11))) == Err(Overflow)
    ensures ParsePercent(true, Some(percentageComplete)).Err? <==> ParseInt(Some(percentageComplete)).None?
    ensures !IsSignedDigits(DropNumberWhite(SkipNumberWhite(percentageComplete))) ==>
      ParsePercent(true, Some(percentageComplete)) == Err(Format)
  {
    NinesOverflow(11);
    ParseInt32Cases(percentageComplete);
  }

  /** The constructor of `TeamCityBuildStatus`, reading the properties in the order it
      assigns them, so the first missing or malformed one decides the exception. */
  function ParseTriggerStatus(e: TriggerStatusElement): Result<TriggerBuildStatus>
  {
    if e.number.None? || e.status.None? then Err(NullReference)
    else match ParseBuildStatuses(e.status.value)
      case Err(f) => Err(f)
      case Ok(status) =>
        if e.statusText.None? then Err(NullReference)
        else match ParseRunning(e.running)
          case Err(f) => Err(f)
          case Ok(isRunning) =>
            match ParsePercent(isRunning, e.percentageComplete)
            case Err(f) => Err(f)
            case Ok(percent) =>
              if e.projectName.None? then Err(NullReference)
              else Ok(TriggerBuildStatus(e.number.value, status, e.statusText.value, isRunning, percent, e.projectName.value))
  }

  /** A status parses exactly when every element it reads is present and well formed; it is
      running only when the attribute says `true`, and then carries the reported
      percentage, while a build that is not running is at 100%. */
  lemma StatusParsing(e: TriggerStatusElement)
    ensures var r := ParseTriggerStatus(e);
      && (r.Ok? <==>
            && e.number.Some? && e.status.Some? && ParseBuildStatuses(e.status.value).Ok? && e.statusText.Some?
            && ParseRunning(e.running).Ok?
            && (ParseRunning(e.running).value ==> ParseInt(e.percentageComplete).Some?)
            && e.projectName.Some?)
      && (r.Ok? ==>
            && SameIgnoringCase(Trim(e.status.value), StatusName(r.value.status))
            && (r.value.isRunning <==> e.running.Some? && ParseBool(e.running.value) == Ok(true))
            && (!r.value.isRunning ==> r.value.percentComplete == 100)
            && (r.value.isRunning ==> ParseInt(e.percentageComplete) == Some(r.value.percentComplete)))
  {
  }

  /** Awaiting a status reply and parsing it. */
  function ReadTriggerStatus(reply: Reply<TriggerStatusElement>): Result<TriggerBuildStatus> {
    match Await(reply)
    case Err(f) => Err(f)
    case Ok(e) => ParseTriggerStatus(e)
  }

  /** A status read fails with the request's or the parser's exception, never with a
      cancellation; a status read that is not running is at 100%. */
  lemma ReadOutcomes(reply: Reply<TriggerStatusElement>)
    ensures var r := ReadTriggerStatus(reply);
      && (r.Err? ==> r.fault != Canceled)
      && (r.Ok? && !r.value.isRunning ==> r.value.percentComplete == 100)
      && (reply.HttpFailure? ==> r == Err(Web(reply.status)))
  {
    if reply.Received? {
      ParseFaults(reply.body);
    }
  }

  /** The parser throws only a null reference, an unknown status name or a malformed
      number, and a status it reads that is not running is at 100%. */
  lemma ParseFaults(e: TriggerStatusElement)
    ensures var r := ParseTriggerStatus(e);
      && (r.Err? ==> r.fault in {NullReference, Argument, Format, Overflow})
      && (r.Ok? && !r.value.isRunning ==> r.value.percentComplete == 100)
  {
    if e.running.Some? {
      var b := ParseBool(e.running.value);
      assert b.Err? ==> b.fault == Format;
    }
  }

  /** The status reads of the successive polls, awaited and parsed. */
  function StatusReads(polls: seq<Reply<TriggerStatusElement>>): (r: seq<Result<TriggerBuildStatus>>)
    ensures |r| == |polls|
    ensures forall i :: 0 <= i < |polls| ==> r[i] == ReadTriggerStatus(polls[i])
  {
    seq(|polls|, i requires 0 <= i < |polls| => ReadTriggerStatus(polls[i]))
  }

  // ---------------------------------------------------------------- polling

  /** How the `do … while (IsRunning)` loop ended: on a status that is no longer running, on
      an exception (including cancellation), or when the scripted replies ran out. */
  datatype TriggerPollOutcome = Concluded(status: TriggerBuildStatus) | PollFailed(fault: Fault) | RepliesExhausted

  datatype TriggerPoll = TriggerPoll(outcome: TriggerPollOutcome, effects: seq<Effect>)

  /** The loop from pass `k` on, with `statuses[k..]` as the parsed answers of the server:
      request, parse, log, honour a cancellation, and go round again while the build is
      running. */
  function PollBuild(url: string, statuses: seq<Result<TriggerBuildStatus>>, k: nat, cancel: seq<bool>): TriggerPoll
    requires k <= |statuses|
    decreases |statuses| - k
  {
    if k == |statuses| then TriggerPoll(RepliesExhausted, [])
    else match statuses[k]
      case Err(f) => TriggerPoll(PollFailed(f), [Get(url)])
      case Ok(status) =>
        var shown := [Get(url), Log(LogInformation)];
        if Cancelled(cancel, k) then TriggerPoll(PollFailed(Canceled), shown)
        else if status.isRunning then
          var rest := PollBuild(url, statuses, k + 1, cancel);
          TriggerPoll(rest.outcome, shown + rest.effects)
        else TriggerPoll(Concluded(status), shown)
  }

  /** One pass of the loop seen from the effects already made: what the loop adds next,
      and either how it ends or the passes left. */
  lemma {:induction false} PollAdvance(url: string, statuses: seq<Result<TriggerBuildStatus>>, k: nat, cancel: seq<bool>,
                                       done: seq<Effect>, total: TriggerPoll)
    requires k < |statuses|
    requires done + PollBuild(url, statuses, k, cancel).effects == total.effects
    requires PollBuild(url, statuses, k, cancel).outcome == total.outcome
    ensures var read := statuses[k];
      var shown := Shown(url, read);
      var rest := PollBuild(url, statuses, k + 1, cancel);
      && (read.Err? ==> done + shown == total.effects && total.outcome == PollFailed(read.fault))
      && (read.Ok? && Cancelled(cancel, k) ==> done + shown == total.effects && total.outcome == PollFailed(Canceled))
      && (read.Ok? && !Cancelled(cancel, k) && !read.value.isRunning ==>
            done + shown == total.effects && total.outcome == Concluded(read.value))
      && (read.Ok? && !Cancelled(cancel, k) && read.value.isRunning ==>
            (done + shown) + rest.effects == total.effects && rest.outcome == total.outcome)
  {
    var read := statuses[k];
    var shown := Shown(url, read);
    AppendAssoc(done, shown, PollBuild(url, statuses, k + 1, cancel).effects);
  }

  /** What one pass adds: the request, and the log of the status when it was read. */
  function Shown(url: string, read: Result<TriggerBuildStatus>): seq<Effect> {
    if read.Err? then [Get(url)] else [Get(url), Log(LogInformation)]
  }

  lemma ShownRequests(url: string)
    ensures GetCount([Get(url), Log(LogInformation)]) == 1
  {
    assert [Get(url), Log(LogInformation)] == [Get(url)] + [Log(LogInformation)];
    GetCountAppend([Get(url)], [Log(LogInformation)]);
    GetCountSingleton(Get(url));
    GetCountSingleton(Log(LogInformation));
  }

  /** Each pass makes one request, always for the same status URL, so the loop asks at least
      once and never more often than there are replies; it ends for want of replies only
      after all of them were used, and it concludes only on a read status that is not
      running. */
  lemma {:induction false} PollBuildAccounting(url: string, statuses: seq<Result<TriggerBuildStatus>>, k: nat, cancel: seq<bool>)
    requires k <= |statuses|
    ensures var p := PollBuild(url, statuses, k, cancel);
      && GetCount(p.effects) <= |statuses| - k
      && (k < |statuses| ==> GetCount(p.effects) >= 1)
      && (p.outcome.RepliesExhausted? ==> GetCount(p.effects) == |statuses| - k)
      && (forall i :: 0 <= i < |p.effects| && p.effects[i].Get? ==> p.effects[i].url == url)
      && (p.outcome.Concluded? ==> !p.outcome.status.isRunning && Ok(p.outcome.status) in statuses[k..])
    decreases |statuses| - k
  {
    if k < |statuses| {
      GetCountSingleton(Get(url));
      ShownRequests(url);
      assert statuses[k] == statuses[k..][0];
      if statuses[k].Ok? && statuses[k].value.isRunning && !Cancelled(cancel, k) {
        var shown := [Get(url), Log(LogInformation)];
        var rest := PollBuild(url, statuses, k + 1, cancel);
        PollBuildAccounting(url, statuses, k + 1, cancel);
        GetCountAppend(shown, rest.effects);
        assert forall i :: 2 <= i < |shown + rest.effects| ==> (shown + rest.effects)[i] == rest.effects[i - 2];
        assert statuses[k + 1..] == statuses[k..][1..];
      }
    }
  }

  /** The loop concludes only on a build that is no longer running, at 100%. */
  lemma ConcludedAtFullPercent(url: string, polls: seq<Reply<TriggerStatusElement>>, cancel: seq<bool>)
    ensures var p := PollBuild(url, StatusReads(polls), 0, cancel);
      p.outcome.Concluded? ==> !p.outcome.status.isRunning && p.outcome.status.percentComplete == 100
  {
    var statuses := StatusReads(polls);
    var p := PollBuild(url, statuses, 0, cancel);
    PollBuildAccounting(url, statuses, 0, cancel);
    if p.outcome.Concluded? {
      var i :| 0 <= i < |statuses| && statuses[i] == Ok(p.outcome.status);
      ReadOutcomes(polls[i]);
    }
  }

  /** A cancellation seen after pass `c` ends the loop: at most `c + 1` requests are made. */
  lemma {:induction false} CancellationBoundsPolling(url: string, statuses: seq<Result<TriggerBuildStatus>>, k: nat, cancel: seq<bool>, c: nat)
    requires k <= |statuses| && k <= c && Cancelled(cancel, c)
    ensures GetCount(PollBuild(url, statuses, k, cancel).effects) <= c + 1 - k
    decreases |statuses| - k
  {
    if k < |statuses| {
      GetCountSingleton(Get(url));
      ShownRequests(url);
      if statuses[k].Ok? && statuses[k].value.isRunning && !Cancelled(cancel, k) {
        var shown := [Get(url), Log(LogInformation)];
        var rest := PollBuild(url, statuses, k + 1, cancel);
        assert k != c;
        CancellationBoundsPolling(url, statuses, k + 1, cancel, c);
        GetCountAppend(shown, rest.effects);
      }
    }
  }

  /** Without a cancellation token the loop is never cancelled. */
  lemma {:induction false} UncancelledPolling(url: string, polls: seq<Reply<TriggerStatusElement>>, k: nat)
    requires k <= |polls|
    ensures PollBuild(url, StatusReads(polls), k, []).outcome != PollFailed(Canceled)
    decreases |polls| - k
  {
    if k < |polls| {
      var statuses := StatusReads(polls);
      ReadOutcomes(polls[k]);
      if statuses[k].Ok? && statuses[k].value.isRunning {
        UncancelledPolling(url, polls, k + 1);
      }
    }
  }

  // ---------------------------------------------------------------- Execute

  /** The action's persistent properties. */
  datatype TriggerSettings = TriggerSettings(
    buildConfigurationId: Option<string>, additionalParameters: Option<string>, waitForCompletion: bool, branchName: Option<string>)

  /** The server's answers: to the trigger request, to the latest-build query, and to the
      successive status requests. */
  datatype TriggerServer = TriggerServer(
    triggered: Reply<()>, latest: Reply<BuildsElement>, polls: seq<Reply<TriggerStatusElement>>)

  /** How `Execute` ended: triggered without waiting, triggered but no running build found,
      waited until the build ended with a status, an exception escaped, or the scripted
      replies ran out while the build was still running. */
  datatype TriggerOutcome = Triggered | NoRunningBuild | Finished(status: BuildStatuses) | Faulted(fault: Fault) | StillWaiting

  datatype TriggerRun = TriggerRun(outcome: TriggerOutcome, effects: seq<Effect>)

  function Conclusion(o: TriggerPollOutcome): TriggerOutcome {
    match o
    case Concluded(s) => Finished(s.status)
    case PollFailed(f) => Faulted(f)
    case RepliesExhausted => StillWaiting
  }

  /** The closing log entry: information for a successful build, an error for a failed one
      or one that encountered an error, none when the loop did not conclude. */
  function ClosingLog(o: TriggerPollOutcome): seq<Effect> {
    if o.Concluded? then [Log(if o.status.status == Success then LogInformation else LogError)] else []
  }

  /** `Execute` once the build is triggered and waited for: find the running build, then
      poll it. */
  function AwaitTriggered(buildConfigurationId: Option<string>, branch: Option<string>, server: TriggerServer, cancel: seq<bool>): TriggerRun
  {
    var looked := [Get(LatestBuildUrl(buildConfigurationId, branch))];
    match Await(server.latest)
    case Err(f) => TriggerRun(Faulted(f), looked)
    case Ok(builds) =>
      match ParseBuildId(builds)
      case Err(f) => TriggerRun(Faulted(f), looked)
      case Ok(None) => TriggerRun(NoRunningBuild, looked + [Log(LogError)])
      case Ok(Some(buildId)) =>
        var p := PollBuild(StatusUrl(buildId), StatusReads(server.polls), 0, cancel);
        TriggerRun(Conclusion(p.outcome), looked + p.effects + ClosingLog(p.outcome))
  }

  /** The note of the chosen branch, logged only when there is one and before the trigger
      URL is built. */
  function BranchNote(branch: Option<string>): seq<Effect> {
    if branch.Some? then [Log(LogDebug)] else []
  }

  /** `Execute` from the built trigger URL on: the note of the URL, the trigger request,
      and, when waiting, the latest-build query and the polling. */
  function Triggering(s: TriggerSettings, branch: Option<string>, url: string, server: TriggerServer, cancel: seq<bool>): TriggerRun
  {
    var asked := [Log(LogDebug), Get(url)];
    match server.triggered
    case HttpFailure(status) => TriggerRun(Faulted(Web(status)), asked)
    case Received(_) =>
      var triggered := asked + [Log(LogInformation)];
      if !s.waitForCompletion then TriggerRun(Triggered, triggered)
      else
        var w := AwaitTriggered(s.buildConfigurationId, branch, server, cancel);
        w.(effects := triggered + w.effects)
  }

  /** `Execute`, as a function of the settings, the configurer's default branch, the server
      and the cancellation token. The branch note comes first; the trigger URL is built as
      written, and when that throws nothing is requested. */
  function TriggerBuild(s: TriggerSettings, configurer: LegacyTeamCityConfigurer, server: TriggerServer, cancel: seq<bool>): TriggerRun
  {
    var branch := GetBranchName(s.branchName, configurer);
    match TriggerUrlAsWritten(s.buildConfigurationId, s.branchName, branch, s.additionalParameters)
    case Err(f) => TriggerRun(Faulted(f), BranchNote(branch))
    case Ok(url) =>
      var t := Triggering(s, branch, url, server, cancel);
      t.(effects := BranchNote(branch) + t.effects)
  }

  /** `Execute` as evidently intended: the trigger URL carries the chosen branch. */
  function IntendedTriggerBuild(s: TriggerSettings, configurer: LegacyTeamCityConfigurer, server: TriggerServer, cancel: seq<bool>): TriggerRun
  {
    var branch := GetBranchName(s.branchName, configurer);
    var t := Triggering(s, branch, TriggerUrl(s.buildConfigurationId, branch, s.additionalParameters), server, cancel);
    t.(effects := BranchNote(branch) + t.effects)
  }

  /** Up to the trigger request the only request is the trigger itself. */
  lemma {:induction false} AskedRequests(branch: Option<string>, url: string)
    ensures var asked := BranchNote(branch) + [Log(LogDebug), Get(url)];
      && GetCount(asked) == 1 && GetCount(asked + [Log(LogInformation)]) == 1 && Get(url) in asked
  {
    var notes := BranchNote(branch) + [Log(LogDebug)];
    var asked := BranchNote(branch) + [Log(LogDebug), Get(url)];
    assert asked == notes + [Get(url)];
    NoRequestsInLogs(notes);
    GetCountSingleton(Get(url));
    GetCountSingleton(Log(LogInformation));
    GetCountAppend(notes, [Get(url)]);
    GetCountAppend(asked, [Log(LogInformation)]);
    assert asked[|asked| - 1] == Get(url);
  }

  /** Whatever the server answers, the run starts with the branch note, the note of the URL
      and the trigger request. */
  lemma {:induction false} TriggeringStarts(s: TriggerSettings, branch: Option<string>, url: string, server: TriggerServer, cancel: seq<bool>)
    ensures BranchNote(branch) + [Log(LogDebug), Get(url)] <= BranchNote(branch) + Triggering(s, branch, url, server, cancel).effects
  {
    var t := Triggering(s, branch, url, server, cancel);
    var n := |BranchNote(branch)|;
    assert t.effects[..2] == [Log(LogDebug), Get(url)];
    assert (BranchNote(branch) + t.effects)[..n + 2] == BranchNote(branch) + t.effects[..2];
  }

  /** Building the trigger URL throws exactly when no explicit branch is set and a default
      branch is chosen: then only the branch note is logged and nothing is requested.
      Otherwise the URL escapes the explicit branch (when a branch is chosen at all), and the
      trigger request for it is the only request up to that point. */
  lemma {:induction false} TriggerRequested(s: TriggerSettings, configurer: LegacyTeamCityConfigurer,
                                            server: TriggerServer, cancel: seq<bool>)
    ensures var branch := GetBranchName(s.branchName, configurer);
      var u := TriggerUrlAsWritten(s.buildConfigurationId, s.branchName, branch, s.additionalParameters);
      var run := TriggerBuild(s, configurer, server, cancel);
      && (u.Err? <==> s.branchName.None? && branch.Some?)
      && (u.Err? ==> run == TriggerRun(Faulted(ArgumentNull("stringToEscape")), [Log(LogDebug)]) && GetCount(run.effects) == 0)
      && (u.Ok? ==>
            && u.value == TriggerUrl(s.buildConfigurationId, if branch.Some? then s.branchName else None, s.additionalParameters)
            && BranchNote(branch) + [Log(LogDebug), Get(u.value)] <= run.effects
            && GetCount(BranchNote(branch) + [Log(LogDebug), Get(u.value)]) == 1)
  {
    var branch := GetBranchName(s.branchName, configurer);
    var u := TriggerUrlAsWritten(s.buildConfigurationId, s.branchName, branch, s.additionalParameters);
    if u.Err? {
      GetCountSingleton(Log(LogDebug));
    } else {
      AskedRequests(branch, u.value);
      TriggeringStarts(s, branch, u.value, server, cancel);
    }
  }

  /** Without waiting, the trigger is the only request, and none is made when building its
      URL throws; the run ends triggered exactly when the URL was built and the trigger
      request answered. */
  lemma {:induction false} NotWaitingMakesOneRequest(s: TriggerSettings, configurer: LegacyTeamCityConfigurer,
                                                     server: TriggerServer, cancel: seq<bool>)
    requires !s.waitForCompletion
    ensures var u := TriggerUrlAsWritten(s.buildConfigurationId, s.branchName, GetBranchName(s.branchName, configurer), s.additionalParameters);
      var run := TriggerBuild(s, configurer, server, cancel);
      && GetCount(run.effects) == (if u.Ok? then 1 else 0)
      && (u.Ok? ==> Get(u.value) in run.effects)
      && (run.outcome == Triggered <==> u.Ok? && server.triggered.Received?)
  {
    TriggerRequested(s, configurer, server, cancel);
    var branch := GetBranchName(s.branchName, configurer);
    var u := TriggerUrlAsWritten(s.buildConfigurationId, s.branchName, branch, s.additionalParameters);
    if u.Ok? {
      AskedRequests(branch, u.value);
      var asked := BranchNote(branch) + [Log(LogDebug), Get(u.value)];
      assert BranchNote(branch) + ([Log(LogDebug), Get(u.value)] + [Log(LogInformation)]) == asked + [Log(LogInformation)];
      assert asked <= asked + [Log(LogInformation)];
    }
  }

  /** What waiting requests: the latest-build query, then no more status requests than
      there are replies, and at least one once a running build was found. */
  lemma {:induction false} AwaitRequests(buildConfigurationId: Option<string>, branch: Option<string>, server: TriggerServer, cancel: seq<bool>)
    ensures var w := AwaitTriggered(buildConfigurationId, branch, server, cancel);
      && 1 <= GetCount(w.effects) <= 1 + |server.polls|
      && w.effects[0] == Get(LatestBuildUrl(buildConfigurationId, branch))
      && ((server.latest.Received? && ParseBuildId(server.latest.body).Ok? && ParseBuildId(server.latest.body).value.Some?
           && server.polls != []) ==> GetCount(w.effects) >= 2)
  {
    var looked := [Get(LatestBuildUrl(buildConfigurationId, branch))];
    GetCountSingleton(looked[0]);
    GetCountSingleton(Log(LogError));
    GetCountAppend(looked, [Log(LogError)]);
    if server.latest.Received? && ParseBuildId(server.latest.body).Ok? && ParseBuildId(server.latest.body).value.Some? {
      var buildId := ParseBuildId(server.latest.body).value.value;
      var p := PollBuild(StatusUrl(buildId), StatusReads(server.polls), 0, cancel);
      PollBuildAccounting(StatusUrl(buildId), StatusReads(server.polls), 0, cancel);
      NoRequestsInLogs(ClosingLog(p.outcome));
      GetCountAppend(looked, p.effects);
      GetCountAppend(looked + p.effects, ClosingLog(p.outcome));
    }
  }

  /** A waited-for run whose trigger URL was built as `u`, seen as the prefix up to the
      trigger's answer followed by the wait. */
  lemma {:induction false} WaitedRun(s: TriggerSettings, configurer: LegacyTeamCityConfigurer, server: TriggerServer, cancel: seq<bool>)
    requires s.waitForCompletion && server.triggered.Received?
    requires TriggerUrlAsWritten(s.buildConfigurationId, s.branchName, GetBranchName(s.branchName, configurer), s.additionalParameters).Ok?
    ensures var branch := GetBranchName(s.branchName, configurer);
      var u := TriggerUrlAsWritten(s.buildConfigurationId, s.branchName, branch, s.additionalParameters).value;
      var w := AwaitTriggered(s.buildConfigurationId, branch, server, cancel);
      var run := TriggerBuild(s, configurer, server, cancel);
      && run.outcome == w.outcome
      && run.effects == BranchNote(branch) + [Log(LogDebug), Get(u)] + [Log(LogInformation)] + w.effects
      && GetCount(run.effects) == 1 + GetCount(w.effects)
  {
    var branch := GetBranchName(s.branchName, configurer);
    var u := TriggerUrlAsWritten(s.buildConfigurationId, s.branchName, branch, s.additionalParameters).value;
    var w := AwaitTriggered(s.buildConfigurationId, branch, server, cancel);
    var triggered := BranchNote(branch) + [Log(LogDebug), Get(u)] + [Log(LogInformation)];
    assert BranchNote(branch) + (([Log(LogDebug), Get(u)] + [Log(LogInformation)]) + w.effects) == triggered + w.effects;
    AskedRequests(branch, u);
    GetCountAppend(triggered, w.effects);
  }

  /** Waiting makes the trigger request, the latest-build query and at most one status
      request per reply, and polls at least once once a running build was found; nothing
      is requested when building the trigger URL throws. */
  lemma {:induction false} WaitingRequests(s: TriggerSettings, configurer: LegacyTeamCityConfigurer,
                                           server: TriggerServer, cancel: seq<bool>)
    requires s.waitForCompletion && server.triggered.Received?
    ensures var u := TriggerUrlAsWritten(s.buildConfigurationId, s.branchName, GetBranchName(s.branchName, configurer), s.additionalParameters);
      var run := TriggerBuild(s, configurer, server, cancel);
      && (u.Err? ==> GetCount(run.effects) == 0)
      && (u.Ok? ==> 2 <= GetCount(run.effects) <= 2 + |server.polls|)
      && ((u.Ok? && server.latest.Received? && ParseBuildId(server.latest.body).Ok? && ParseBuildId(server.latest.body).value.Some?
           && server.polls != []) ==> GetCount(run.effects) >= 3)
  {
    TriggerRequested(s, configurer, server, cancel);
    var branch := GetBranchName(s.branchName, configurer);
    if TriggerUrlAsWritten(s.buildConfigurationId, s.branchName, branch, s.additionalParameters).Ok? {
      WaitedRun(s, configurer, server, cancel);
      AwaitRequests(s.buildConfigurationId, branch, server, cancel);
    }
  }

  /** When TeamCity reports no running build, the action logs an error and stops after the
      latest-build query, without polling. */
  lemma {:induction false} NoRunningBuildStops(s: TriggerSettings, configurer: LegacyTeamCityConfigurer,
                                               server: TriggerServer, cancel: seq<bool>)
    ensures var u := TriggerUrlAsWritten(s.buildConfigurationId, s.branchName, GetBranchName(s.branchName, configurer), s.additionalParameters);
      var run := TriggerBuild(s, configurer, server, cancel);
      && (run.outcome == NoRunningBuild <==>
            && u.Ok? && s.waitForCompletion && server.triggered.Received?
            && server.latest.Received? && server.latest.body.count == Some("0"))
      && (run.outcome == NoRunningBuild ==> run.effects[|run.effects| - 1] == Log(LogError) && GetCount(run.effects) == 2)
  {
    var branch := GetBranchName(s.branchName, configurer);
    var u := TriggerUrlAsWritten(s.buildConfigurationId, s.branchName, branch, s.additionalParameters);
    if u.Ok? && s.waitForCompletion && server.triggered.Received? {
      WaitedRun(s, configurer, server, cancel);
      var w := AwaitTriggered(s.buildConfigurationId, branch, server, cancel);
      if server.latest.Received? && ParseBuildId(server.latest.body).Ok? && ParseBuildId(server.latest.body).value.Some? {
        var p := PollBuild(StatusUrl(ParseBuildId(server.latest.body).value.value), StatusReads(server.polls), 0, cancel);
        assert w.outcome == Conclusion(p.outcome);
      } else if server.latest.Received? && ParseBuildId(server.latest.body) == Ok(None) {
        var looked := [Get(LatestBuildUrl(s.buildConfigurationId, branch))];
        GetCountSingleton(looked[0]);
        GetCountSingleton(Log(LogError));
        GetCountAppend(looked, [Log(LogError)]);
      }
    }
  }

  /** A build waited for to its end is reported by its status: information for success, an
      error for failure or error. */
  lemma {:induction false} FinishedBuildReported(s: TriggerSettings, configurer: LegacyTeamCityConfigurer,
                                                 server: TriggerServer, cancel: seq<bool>)
    ensures var run := TriggerBuild(s, configurer, server, cancel);
      run.outcome.Finished? ==>
        && s.waitForCompletion
        && run.effects[|run.effects| - 1] == Log(if run.outcome.status == Success then LogInformation else LogError)
  {
    var run := TriggerBuild(s, configurer, server, cancel);
    if run.outcome.Finished? {
      WaitedRun(s, configurer, server, cancel);
      var buildId := ParseBuildId(server.latest.body).value.value;
      var p := PollBuild(StatusUrl(buildId), StatusReads(server.polls), 0, cancel);
      assert p.outcome.Concluded?;
    }
  }

  /** A cancellation seen after pass `c` bounds the whole action to `c + 3` requests. */
  lemma {:induction false} CancellationBoundsRequests(s: TriggerSettings, configurer: LegacyTeamCityConfigurer,
                                                      server: TriggerServer, cancel: seq<bool>, c: nat)
    requires Cancelled(cancel, c)
    ensures GetCount(TriggerBuild(s, configurer, server, cancel).effects) <= c + 3
  {
    var branch := GetBranchName(s.branchName, configurer);
    var u := TriggerUrlAsWritten(s.buildConfigurationId, s.branchName, branch, s.additionalParameters);
    if u.Err? || !s.waitForCompletion || server.triggered.HttpFailure? {
      TriggerRequested(s, configurer, server, cancel);
      if u.Ok? {
        AskedRequests(branch, u.value);
        var asked := BranchNote(branch) + [Log(LogDebug), Get(u.value)];
        assert TriggerBuild(s, configurer, server, cancel).effects == asked || TriggerBuild(s, configurer, server, cancel).effects == asked + [Log(LogInformation)];
      }
    } else {
      WaitedRun(s, configurer, server, cancel);
      var w := AwaitTriggered(s.buildConfigurationId, branch, server, cancel);
      var looked := [Get(LatestBuildUrl(s.buildConfigurationId, branch))];
      GetCountSingleton(looked[0]);
      GetCountSingleton(Log(LogError));
      GetCountAppend(looked, [Log(LogError)]);
      if server.latest.Received? && ParseBuildId(server.latest.body).Ok? && ParseBuildId(server.latest.body).value.Some? {
        var url := StatusUrl(ParseBuildId(server.latest.body).value.value);
        var p := PollBuild(url, StatusReads(server.polls), 0, cancel);
        CancellationBoundsPolling(url, StatusReads(server.polls), 0, cancel, c);
        NoRequestsInLogs(ClosingLog(p.outcome));
        GetCountAppend(looked, p.effects);
        GetCountAppend(looked + p.effects, ClosingLog(p.outcome));
      }
    }
  }

  /** The intended run always requests the trigger URL of the chosen branch, as the only
      request up to that point, and it is the run as written whenever an explicit branch is
      set or no branch is chosen. */
  lemma {:induction false} IntendedRunRequestsChosenBranch(s: TriggerSettings, configurer: LegacyTeamCityConfigurer,
                                                           server: TriggerServer, cancel: seq<bool>)
    ensures var branch := GetBranchName(s.branchName, configurer);
      var asked := BranchNote(branch) + [Log(LogDebug), Get(TriggerUrl(s.buildConfigurationId, branch, s.additionalParameters))];
      var run := IntendedTriggerBuild(s, configurer, server, cancel);
      && asked <= run.effects && GetCount(asked) == 1
      && ((!IsNullOrEmpty(s.branchName) || branch.None?) ==> TriggerBuild(s, configurer, server, cancel) == run)
  {
    var branch := GetBranchName(s.branchName, configurer);
    var url := TriggerUrl(s.buildConfigurationId, branch, s.additionalParameters);
    AskedRequests(branch, url);
    TriggeringStarts(s, branch, url, server, cancel);
    if !IsNullOrEmpty(s.branchName) || branch.None? {
      TriggerUrlsAgree(s.buildConfigurationId, s.branchName, configurer, s.additionalParameters);
    }
  }

  /** Without an explicit branch but with the default branch "main", the action as written
      throws building the trigger URL after the branch note, having requested nothing; the
      intended run requests the trigger URL of "main". */
  lemma DefaultBranchTriggerThrows(server: TriggerServer, cancel: seq<bool>)
    ensures var configurer := LegacyTeamCityConfigurer("http://tc", None, None, Some("main"));
      var s := TriggerSettings(Some("bt1"), None, false, None);
      && GetBranchName(s.branchName, configurer) == Some("main")
      && TriggerBuild(s, configurer, server, cancel) == TriggerRun(Faulted(ArgumentNull("stringToEscape")), [Log(LogDebug)])
      && Get("action.html?add2Queue=bt1&branchName=main") in IntendedTriggerBuild(s, configurer, server, cancel).effects
  {
    MainBranchUrl();
    var configurer := LegacyTeamCityConfigurer("http://tc", None, None, Some("main"));
    var s := TriggerSettings(Some("bt1"), None, false, None);
    var get := Get("action.html?add2Queue=bt1&branchName=main");
    assert IntendedTriggerBuild(s, configurer, server, cancel).effects[2] == get;
  }

  /** With an empty explicit branch and the default branch "main", the action as written
      requests the trigger URL with an empty branch clause, so the build runs on TeamCity's
      own default; the intended run names "main". */
  lemma EmptyBranchNameDropsDefault(server: TriggerServer, cancel: seq<bool>)
    ensures var configurer := LegacyTeamCityConfigurer("http://tc", None, None, Some("main"));
      var s := TriggerSettings(Some("bt1"), None, false, Some(""));
      && GetBranchName(s.branchName, configurer) == Some("main")
      && Get("action.html?add2Queue=bt1&branchName=") in TriggerBuild(s, configurer, server, cancel).effects
      && Get("action.html?add2Queue=bt1&branchName=main") in IntendedTriggerBuild(s, configurer, server, cancel).effects
  {
    MainBranchUrl();
    var configurer := LegacyTeamCityConfigurer("http://tc", None, None, Some("main"));
    var s := TriggerSettings(Some("bt1"), None, false, Some(""));
    assert EscapeDataString("") == "";
    assert "&branchName=" + EscapeDataString("") == "&branchName=";
    assert "action.html?add2Queue=" + "bt1" + "&branchName=" + "" == "action.html?add2Queue=bt1&branchName=";
    assert TriggerUrlAsWritten(Some("bt1"), Some(""), Some("main"), None) == Ok("action.html?add2Queue=bt1&branchName=");
    assert TriggerBuild(s, configurer, server, cancel).effects[2] == Get("action.html?add2Queue=bt1&branchName=");
    assert IntendedTriggerBuild(s, configurer, server, cancel).effects[2] == Get("action.html?add2Queue=bt1&branchName=main");
  }

  // ---------------------------------------------------------------- ToString

  /** `ToString`: the configuration, the parameters clause when there are parameters, and
      the branch clause when an explicit branch is set. Null interpolates as empty. */
  function Describe(s: TriggerSettings): string {
    "Triggers a build of the configuration \"" + OrEmpty(s.buildConfigurationId) + "\" in TeamCity"
      + ConcatNE(Some(" with the additional parameters \""), s.additionalParameters, Some("\""))
      + (if !IsNullOrEmpty(s.branchName) then " using branch " + s.branchName.value else "")
      + "."
  }

  /** The parameters clause is present exactly when the parameters are neither null nor
      empty, and the branch clause exactly when the explicit branch is; the default branch
      plays no part. */
  lemma DescribeClauses(s: TriggerSettings)
    ensures Describe(s) ==
      "Triggers a build of the configuration \"" + OrEmpty(s.buildConfigurationId) + "\" in TeamCity"
      + (if IsNullOrEmpty(s.additionalParameters) then "" else " with the additional parameters \"" + s.additionalParameters.value + "\"")
      + (if IsNullOrEmpty(s.branchName) then "" else " using branch " + s.branchName.value)
      + "."
  {
  }

  // ---------------------------------------------------------------- the object

  class TriggerBuildAction {
    var buildConfigurationId: Option<string>
    var additionalParameters: Option<string>
    var waitForCompletion: bool
    var branchName: Option<string>
    /** Everything the action has logged and requested so far. */
    var trace: seq<Effect>

    constructor ()
      ensures buildConfigurationId.None? && additionalParameters.None? && !waitForCompletion && branchName.None?
      ensures trace == []
    {
      buildConfigurationId := None;
      additionalParameters := None;
      waitForCompletion := false;
      branchName := None;
      trace := [];
    }

    function Settings(): TriggerSettings
      reads this
    {
      TriggerSettings(buildConfigurationId, additionalParameters, waitForCompletion, branchName)
    }

    function ToString(): string
      reads this
    {
      Describe(Settings())
    }

    /** The `do … while (IsRunning)` loop over the status of build `url`; `statuses` are
        the server's successive status replies, each awaited and parsed. */
    method PollBuildAsync(url: string, statuses: seq<Result<TriggerBuildStatus>>, cancel: seq<bool>) returns (outcome: TriggerPollOutcome)
      modifies this`trace
      ensures var p := PollBuild(url, statuses, 0, cancel);
        outcome == p.outcome && trace == old(trace) + p.effects
    {
      ghost var total := PollBuild(url, statuses, 0, cancel);
      ghost var done: seq<Effect> := [];
      var k := 0;
      while k < |statuses|
        invariant k <= |statuses|
        invariant trace == old(trace) + done
        invariant done + PollBuild(url, statuses, k, cancel).effects == total.effects
        invariant PollBuild(url, statuses, k, cancel).outcome == total.outcome
        decreases |statuses| - k
      {
        PollAdvance(url, statuses, k, cancel, done, total);
        var read := statuses[k];
        trace := trace + Shown(url, read);
        AppendAssoc(old(trace), done, Shown(url, read));
        done := done + Shown(url, read);
        if read.Err? || Cancelled(cancel, k) || !read.value.isRunning {
          assert done == total.effects;
          outcome := if read.Err? then PollFailed(read.fault) else if Cancelled(cancel, k) then PollFailed(Canceled) else Concluded(read.value);
          return;
        }
        k := k + 1;
      }
      assert PollBuild(url, statuses, k, cancel) == TriggerPoll(RepliesExhausted, []);
      outcome := RepliesExhausted;
    }

    /** `Execute` once the build is triggered and waited for. */
    method AwaitTriggeredAsync(branch: Option<string>, server: TriggerServer, cancel: seq<bool>) returns (outcome: TriggerOutcome)
      modifies this`trace
      ensures var w := AwaitTriggered(buildConfigurationId, branch, server, cancel);
        outcome == w.outcome && trace == old(trace) + w.effects
    {
      ghost var t0 := trace;
      var looked := [Get(LatestBuildUrl(buildConfigurationId, branch))];
      trace := trace + looked;
      var latest := Await(server.latest);
      if latest.Err? {
        outcome := Faulted(latest.fault);
        return;
      }
      var buildId := ParseBuildId(latest.value);
      if buildId.Err? {
        outcome := Faulted(buildId.fault);
        return;
      }
      if buildId.value.None? {
        trace := trace + [Log(LogError)];
        AppendAssoc(t0, looked, [Log(LogError)]);
        outcome := NoRunningBuild;
        return;
      }
      var polled := PollBuildAsync(StatusUrl(buildId.value.value), StatusReads(server.polls), cancel);
      ghost var p := PollBuild(StatusUrl(buildId.value.value), StatusReads(server.polls), 0, cancel);
      var closing: seq<Effect> := [];
      if polled.Concluded? {
        closing := [Log(if polled.status.status == Success then LogInformation else LogError)];
      }
      trace := trace + closing;
      AppendAssoc(t0, looked, p.effects);
      AppendAssoc(t0, looked + p.effects, closing);
      outcome := Conclusion(polled);
    }

    /** `Execute` from the built trigger URL on. */
    method TriggerAsync(branch: Option<string>, url: string, server: TriggerServer, cancel: seq<bool>) returns (outcome: TriggerOutcome)
      modifies this`trace
      ensures var t := Triggering(Settings(), branch, url, server, cancel);
        outcome == t.outcome && trace == old(trace) + t.effects
    {
      ghost var t0 := trace;
      var asked := [Log(LogDebug), Get(url)];
      trace := trace + asked;
      if server.triggered.HttpFailure? {
        outcome := Faulted(Web(server.triggered.status));
        return;
      }
      trace := trace + [Log(LogInformation)];
      AppendAssoc(t0, asked, [Log(LogInformation)]);
      if !waitForCompletion {
        outcome := Triggered;
        return;
      }
      ghost var triggered := asked + [Log(LogInformation)];
      outcome := AwaitTriggeredAsync(branch, server, cancel);
      ghost var w := AwaitTriggered(buildConfigurationId, branch, server, cancel);
      AppendAssoc(t0, triggered, w.effects);
      assert Triggering(Settings(), branch, url, server, cancel) == w.(effects := triggered + w.effects);
    }

    /** `Execute`. `cancel` is the host's cancellation and timeout check, sampled after each
        status request. Escaping a null explicit branch throws. */
    method Execute(configurer: LegacyTeamCityConfigurer, server: TriggerServer, cancel: seq<bool>) returns (outcome: TriggerOutcome)
      modifies this`trace
      ensures var run := TriggerBuild(Settings(), configurer, server, cancel);
        outcome == run.outcome && trace == old(trace) + run.effects
    {
      ghost var t0 := trace;
      var branch := GetBranchName(branchName, configurer);
      if branch.Some? {
        trace := trace + [Log(LogDebug)];
      }
      ghost var note := BranchNote(branch);
      assert trace == t0 + note;
      if branch.Some? && branchName.None? {
        outcome := Faulted(ArgumentNull("stringToEscape"));
        return;
      }
      var clause := if branch.Some? then "&branchName=" + EscapeDataString(branchName.value) else "";
      var triggerUrl := "action.html?add2Queue=" + OrEmpty(buildConfigurationId) + clause + OrEmpty(additionalParameters);
      outcome := TriggerAsync(branch, triggerUrl, server, cancel);
      ghost var t := Triggering(Settings(), branch, triggerUrl, server, cancel);
      AppendAssoc(t0, note, t.effects);
    }
  }
}
