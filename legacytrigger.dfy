/** The legacy `TriggerBuildAction`: instead of calling the trigger URL itself, it hands
    the configuration ID, the chosen branch and the waiting flag to a build queuer and runs
    it without a cancellation token, logging progress to the execution log. */
module LegacyTrigger {
  import opened Common
  import opened Text
  import opened Configurers
  import opened Catalog
  import opened Queuer
  import opened Connection
  import Trigger

  /** The queuer as `Execute` sets it up: the action's ID and waiting flag, the chosen
      branch, and no names to resolve. */
  function QueuerSettings(s: Trigger.TriggerSettings, configurer: LegacyTeamCityConfigurer): QueueSettings {
    QueueSettings(s.buildConfigurationId, None, None, GetBranchName(s.branchName, configurer), s.waitForCompletion)
  }

  /** A run of `Execute`: how the queuer ended and what was logged and requested. */
  datatype LegacyTriggerRun = LegacyTriggerRun(outcome: QueueOutcome, effects: seq<Effect>)

  /** `Execute`: the queuer's constructor throws before anything happens when its
      arguments are refused; otherwise the queuer runs with no cancellation and with
      progress logging. */
  function LegacyTriggerBuild(s: Trigger.TriggerSettings, configurer: LegacyTeamCityConfigurer,
                              context: BuildMasterContext, server: QueueServer): LegacyTriggerRun
  {
    match CheckQueuerArguments(Some(configurer.AsConnectionInfo()), true, Some(context))
    case Some(f) => LegacyTriggerRun(Faulted(f), [])
    case None =>
      var run := QueueBuild(QueuerSettings(s, configurer), server, [], true);
      LegacyTriggerRun(run.outcome, run.effects)
  }

  /** Outside an application nothing is logged or requested and the action fails with an
      invalid operation; inside one the queuer always logs. */
  lemma NoApplicationNoQueue(s: Trigger.TriggerSettings, configurer: LegacyTeamCityConfigurer,
                             context: BuildMasterContext, server: QueueServer)
    ensures var run := LegacyTriggerBuild(s, configurer, context, server);
      && (run.effects == [] <==> context.applicationId.None?)
      && (context.applicationId.None? ==> run.outcome == Faulted(InvalidOperation))
  {
  }

  /** The queuer is never asked to look the configuration up by name, so the build-type
      listing plays no part in the run. */
  lemma NoNameLookup(s: Trigger.TriggerSettings, configurer: LegacyTeamCityConfigurer, context: BuildMasterContext,
                     server: QueueServer, buildTypes: Reply<seq<BuildTypeElement>>)
    ensures !ResolvesByName(QueuerSettings(s, configurer))
    ensures LegacyTriggerBuild(s, configurer, context, server)
         == LegacyTriggerBuild(s, configurer, context, server.(buildTypes := buildTypes))
  {
    var q := QueuerSettings(s, configurer);
    assert Prepare(q, server.buildTypes) == Prepare(q, buildTypes);
  }

  /** With an ID, exactly that ID is queued on the chosen branch (the explicit one, else
      the configurer's default, else none); without waiting, nothing else is requested and
      the run ends queued exactly when the queue reply is read. */
  lemma {:induction false} ChosenBranchQueued(s: Trigger.TriggerSettings, configurer: LegacyTeamCityConfigurer,
                                              context: BuildMasterContext, server: QueueServer)
    requires s.buildConfigurationId.Some? && context.applicationId.Some?
    ensures var run := LegacyTriggerBuild(s, configurer, context, server);
      var branch := GetBranchName(s.branchName, configurer);
      && Post(BuildQueueUrl, QueueRequestBody(OrEmpty(branch), s.buildConfigurationId.value)) in run.effects
      && (!s.waitForCompletion ==> GetCount(run.effects) == 0)
      && (!s.waitForCompletion ==> (run.outcome == Queued <==> ReadStatus(server.queued).Ok?))
  {
    var q := QueuerSettings(s, configurer);
    QueueRequestSent(q, server, [], true);
  }

  /** Without an ID nothing is queued: the queuer logs its start and the target and then
      fails building the request with a null ID, having requested nothing. */
  lemma MissingIdNotQueued(s: Trigger.TriggerSettings, configurer: LegacyTeamCityConfigurer,
                           context: BuildMasterContext, server: QueueServer)
    requires s.buildConfigurationId.None? && context.applicationId.Some?
    ensures var run := LegacyTriggerBuild(s, configurer, context, server);
      && run.outcome == Faulted(ArgumentNull("value"))
      && run.effects == [Log(LogInformation)] + ReportTarget(GetBranchName(s.branchName, configurer))
      && GetCount(run.effects) == 0
  {
    var q := QueuerSettings(s, configurer);
    PrepareRequests(q, server.buildTypes);
  }

  /** Without a cancellation token the wait is never cancelled. */
  lemma {:induction false} UncancelledWait(status: BuildStatus, replies: seq<Reply<StatusElement>>, k: nat, logProgress: bool)
    requires k <= |replies|
    ensures PollFrom(status, replies, k, [], logProgress).outcome != PollFailed(Canceled)
    decreases |replies| - k
  {
    if !status.Finished() && k < |replies| {
      match PollOnce(status, replies[k], k, [], logProgress)
      case Stop(p) =>
        assert ReadStatus(replies[k]).Err?;
        StatusReadFaults(replies[k]);
      case Continue(next, shown) =>
        UncancelledWait(next, replies, k + 1, logProgress);
    }
  }

  /** A status reply fails to read only as a web failure, a missing reference or a
      malformed or out-of-range percentage. */
  lemma StatusReadFaults(reply: Reply<StatusElement>)
    ensures ReadStatus(reply).Err? ==> ReadStatus(reply).fault in {NullReference, Format, Overflow} || ReadStatus(reply).fault.Web?
  {
  }

  /** The action never ends cancelled: every failure is a refused argument, a null ID or
      one the server caused. */
  lemma {:induction false} NeverCanceled(s: Trigger.TriggerSettings, configurer: LegacyTeamCityConfigurer,
                                         context: BuildMasterContext, server: QueueServer)
    ensures LegacyTriggerBuild(s, configurer, context, server).outcome != Faulted(Canceled)
  {
    if context.applicationId.Some? && s.buildConfigurationId.Some? {
      var q := QueuerSettings(s, configurer);
      var id := s.buildConfigurationId.value;
      assert Prepare(q, server.buildTypes).result == Ok(Some(id));
      StatusReadFaults(server.queued);
      if ReadStatus(server.queued).Ok? && s.waitForCompletion {
        UncancelledWait(ReadStatus(server.queued).value, server.polls, 0, true);
      }
    }
  }

  /** The description's branch clause names the branch that is queued whenever an
      explicit branch is set. */
  lemma {:induction false} DescriptionNamesQueuedBranch(s: Trigger.TriggerSettings, configurer: LegacyTeamCityConfigurer)
    requires !IsNullOrEmpty(s.branchName)
    ensures EndsWith(Trigger.Describe(s), " using branch " + GetBranchName(s.branchName, configurer).value + ".")
  {
    var tail := " using branch " + s.branchName.value + ".";
    var head := "Triggers a build of the configuration \"" + OrEmpty(s.buildConfigurationId) + "\" in TeamCity"
      + ConcatNE(Some(" with the additional parameters \""), s.additionalParameters, Some("\""));
    assert Trigger.Describe(s) == head + tail;
    EndsWithAppend(head, tail, tail);
    assert EndsWith(tail, tail) by { assert tail[|tail| - |tail|..] == tail; }
  }

  /** Lines 42-50 of `Execute`: a queuer set up with the given properties and run without
      a cancellation token, logging progress; what it logged. The parameters are set but
      never read by the queuer. */
  method RunQueuer(connectionInfo: ConnectionInfo, context: BuildMasterContext, q: QueueSettings,
                   additionalParameters: Option<string>, server: QueueServer)
    returns (outcome: QueueOutcome, logged: seq<Effect>)
    requires CheckQueuerArguments(Some(connectionInfo), true, Some(context)).None?
    ensures var run := QueueBuild(q, server, [], true);
      outcome == run.outcome && logged == run.effects
  {
    var queuer := new TeamCityBuildQueuer(connectionInfo, context);
    queuer.buildConfigurationId := q.buildConfigurationId;
    queuer.projectName := q.projectName;
    queuer.buildConfigurationName := q.buildConfigurationName;
    queuer.additionalParameters := additionalParameters;
    queuer.waitForCompletion := q.waitForCompletion;
    queuer.branchName := q.branchName;
    assert queuer.Settings() == q;
    outcome := queuer.QueueBuildAsync(server, [], true);
    logged := queuer.trace;
  }

  // ---------------------------------------------------------------- the action object

  class LegacyTriggerBuildAction {
    var buildConfigurationId: Option<string>
    var additionalParameters: Option<string>
    var waitForCompletion: bool
    var branchName: Option<string>
    /** Everything the action's logger received and the requests made so far. */
    var trace: seq<Effect>

    constructor ()
      ensures Settings() == Trigger.TriggerSettings(None, None, false, None)
      ensures trace == []
    {
      buildConfigurationId := None;
      additionalParameters := None;
      waitForCompletion := false;
      branchName := None;
      trace := [];
    }

    function Settings(): Trigger.TriggerSettings
      reads this
    {
      Trigger.TriggerSettings(buildConfigurationId, additionalParameters, waitForCompletion, branchName)
    }

    /** `ToString`, worded as the current action's. */
    function ToString(): string
      reads this
    {
      Trigger.Describe(Settings())
    }

    /** `Execute`: a queuer logs through the action, so its trace is the action's. */
    method Execute(configurer: LegacyTeamCityConfigurer, context: BuildMasterContext, server: QueueServer)
      returns (outcome: QueueOutcome)
      modifies this`trace
      ensures var run := LegacyTriggerBuild(Settings(), configurer, context, server);
        outcome == run.outcome && trace == old(trace) + run.effects
    {
      var branch := GetBranchName(branchName, configurer);
      var refused := CheckQueuerArguments(Some(configurer.AsConnectionInfo()), true, Some(context));
      if refused.Some? {
        outcome := Faulted(refused.value);
        return;
      }
      var logged;
      outcome, logged := RunQueuer(configurer.AsConnectionInfo(), context,
                                   QueueSettings(buildConfigurationId, None, None, branch, waitForCompletion),
                                   additionalParameters, server);
      trace := trace + logged;
    }
  }
}
