/** Resolving a build number that may be one of the reserved tokens (`lastSuccessful`,
    `lastPinned`, `lastFinished`) into the number of the build TeamCity selects for it.
    Shared by the artifact importer and the build importer, which carry identical copies
    of this logic. */
module BuildNumbers {
  import opened Common
  import opened Text
  import opened Catalog

  datatype Constant = LastSuccessfulBuild | LastPinnedBuild | LastFinishedBuild

  /** The token a constant is written as. */
  function ConstantName(c: Constant): string {
    match c
    case LastSuccessfulBuild => LastSuccessful
    case LastPinnedBuild => LastPinned
    case LastFinishedBuild => LastFinished
  }

  /** The reserved token a build number names, compared ignoring case. */
  function PredefinedConstant(buildNumber: Option<string>): Option<Constant> {
    if EqualsIgnoreCase(buildNumber, Some(LastSuccessful)) then Some(LastSuccessfulBuild)
    else if EqualsIgnoreCase(buildNumber, Some(LastPinned)) then Some(LastPinnedBuild)
    else if EqualsIgnoreCase(buildNumber, Some(LastFinished)) then Some(LastFinishedBuild)
    else None
  }

  /** A build number is a constant exactly when it equals one of the reserved tokens
      ignoring case, and then it is the constant of that token. */
  lemma {:induction false} PredefinedConstantOfToken(buildNumber: Option<string>)
    ensures PredefinedConstant(buildNumber).Some? <==>
      exists k :: 0 <= k < |ReservedBuildNumbers| && EqualsIgnoreCase(buildNumber, Some(ReservedBuildNumbers[k]))
    ensures forall c :: EqualsIgnoreCase(buildNumber, Some(ConstantName(c))) ==> PredefinedConstant(buildNumber) == Some(c)
  {
    var s := LastSuccessful;
    var p := LastPinned;
    var f := LastFinished;
    assert |s| == 14 && |p| == 10 && |f| == 12;
    if PredefinedConstant(buildNumber).Some? {
      var k := if EqualsIgnoreCase(buildNumber, Some(s)) then 0
               else if EqualsIgnoreCase(buildNumber, Some(p)) then 1 else 2;
      assert EqualsIgnoreCase(buildNumber, Some(ReservedBuildNumbers[k]));
    }
  }

  /** The locator conditions of each constant after the build type. */
  function Conditions(c: Constant): string {
    match c
    case LastSuccessfulBuild => ",running:false,status:success,count:1"
    case LastPinnedBuild => ",running:false,pinned:true,count:1"
    case LastFinishedBuild => ",running:false,count:1"
  }

  /** The build that a constant selects for a build configuration. */
  function ConstantUrl(c: Constant, buildConfigurationId: string): string {
    "app/rest/builds/buildType:" + EscapeDataString(buildConfigurationId) + Conditions(c)
  }

  /** `TryGetPredefinedConstantBuildNumberApiUrl`: no URL for an explicit number; escaping a
      null configuration ID throws. */
  function TryGetPredefinedConstantBuildNumberApiUrl(buildNumber: Option<string>, buildConfigurationId: Option<string>): (r: Result<Option<string>>)
    ensures r.Err? <==> PredefinedConstant(buildNumber).Some? && buildConfigurationId.None?
    ensures r.Err? ==> r.fault == ArgumentNull("stringToEscape")
    ensures r.Ok? ==> (r.value.Some? <==> PredefinedConstant(buildNumber).Some?)
  {
    match PredefinedConstant(buildNumber)
    case None => Ok(None)
    case Some(c) =>
      if buildConfigurationId.None? then Err(ArgumentNull("stringToEscape"))
      else Ok(Some(ConstantUrl(c, buildConfigurationId.value)))
  }

  /** Every constant's conditions start by asking for a build that is not running and end
      by asking for one build. */
  lemma ConditionsShape(c: Constant)
    ensures |Conditions(c)| >= 14 && Conditions(c)[..14] == ",running:false"
    ensures EndsWith(Conditions(c), ",count:1")
  {
    match c
    case LastSuccessfulBuild => assert ",running:false,status:success,count:1"[29..] == ",count:1" && ",running:false,status:success,count:1"[..14] == ",running:false";
    case LastPinnedBuild => assert ",running:false,pinned:true,count:1"[26..] == ",count:1" && ",running:false,pinned:true,count:1"[..14] == ",running:false";
    case LastFinishedBuild => assert ",running:false,count:1"[14..] == ",count:1" && ",running:false,count:1"[..14] == ",running:false";
  }

  /** Different constants have conditions of different lengths. */
  lemma ConditionsLengthsDiffer(c1: Constant, c2: Constant)
    ensures c1 != c2 ==> |Conditions(c1)| != |Conditions(c2)|
  {
  }

  /** Every constant URL asks for one build that is not running, the escaped ID holding no
      comma that could end its condition early, and different constants give different
      URLs for the same configuration. */
  lemma {:induction false} ConstantUrlsDiffer(c1: Constant, c2: Constant, buildConfigurationId: string)
    ensures var head := "app/rest/builds/buildType:" + EscapeDataString(buildConfigurationId);
      var u := ConstantUrl(c1, buildConfigurationId);
      && ',' !in EscapeDataString(buildConfigurationId)
      && head <= u && |u| >= |head| + 14 && u[|head|..|head| + 14] == ",running:false"
    ensures EndsWith(ConstantUrl(c1, buildConfigurationId), ",count:1")
    ensures c1 != c2 ==> ConstantUrl(c1, buildConfigurationId) != ConstantUrl(c2, buildConfigurationId)
  {
    var head := "app/rest/builds/buildType:" + EscapeDataString(buildConfigurationId);
    var u := ConstantUrl(c1, buildConfigurationId);
    ConditionsShape(c1);
    assert u == head + Conditions(c1);
    assert u[|head|..|head| + 14] == Conditions(c1)[..14];
    assert u[..|head|] == head;
    EndsWithAppend(head, Conditions(c1), ",count:1");
    ConditionsLengthsDiffer(c1, c2);
    assert |ConstantUrl(c2, buildConfigurationId)| == |head| + |Conditions(c2)|;
  }

  /** The branch condition appended to the locator when a branch is set. */
  function BranchCondition(branch: Option<string>): string {
    if branch.Some? then ",branch:" + EscapeDataString(branch.value) else ""
  }

  /** `GetActualBuildNumber` from the constant check on. `reply` is the server's answer to
      the locator request, `None` when it holds no `build/@number`; any failure there is
      logged as an error and yields null. */
  function ResolveBuildNumber(buildNumber: Option<string>, buildConfigurationId: Option<string>, branch: Option<string>,
                              reply: Reply<Option<string>>): Traced<Option<string>>
  {
    match TryGetPredefinedConstantBuildNumberApiUrl(buildNumber, buildConfigurationId)
    case Err(f) => Traced(Err(f), [])
    case Ok(None) => Traced(Ok(buildNumber), [Log(LogDebug)])
    case Ok(Some(url)) =>
      var asked := [Log(LogDebug), Get(url + BranchCondition(branch))];
      if reply.Received? && reply.body.Some? then Traced(Ok(reply.body), asked)
      else Traced(Ok(None), asked + [Log(LogError)])
  }

  /** Resolution only logs and asks the server. */
  lemma ResolutionRequestsAndNotes(buildNumber: Option<string>, buildConfigurationId: Option<string>, branch: Option<string>,
                                  reply: Reply<Option<string>>)
    ensures RequestsAndNotes(ResolveBuildNumber(buildNumber, buildConfigurationId, branch, reply).effects)
  {
    var l := ResolveBuildNumber(buildNumber, buildConfigurationId, branch, reply);
    match TryGetPredefinedConstantBuildNumberApiUrl(buildNumber, buildConfigurationId)
    case Err(f) =>
      assert l.effects == [];
    case Ok(None) =>
      assert l.effects == [Log(LogDebug)];
    case Ok(Some(url)) =>
      var asked := [Log(LogDebug), Get(url + BranchCondition(branch))];
      assert l.effects == asked || l.effects == asked + [Log(LogError)];
  }

  /** An explicit build number is returned as it is, without asking the server. */
  lemma ExplicitNumberKept(buildNumber: Option<string>, buildConfigurationId: Option<string>, branch: Option<string>,
                           reply: Reply<Option<string>>)
    requires PredefinedConstant(buildNumber).None?
    ensures var l := ResolveBuildNumber(buildNumber, buildConfigurationId, branch, reply);
      l.result == Ok(buildNumber) && GetCount(l.effects) == 0
  {
  }

  /** Resolution throws only for a constant without a configuration ID; then nothing is
      requested. */
  lemma ResolutionThrowsOnlyForMissingId(buildNumber: Option<string>, buildConfigurationId: Option<string>, branch: Option<string>,
                                         reply: Reply<Option<string>>)
    ensures var l := ResolveBuildNumber(buildNumber, buildConfigurationId, branch, reply);
      && (l.result.Err? <==> PredefinedConstant(buildNumber).Some? && buildConfigurationId.None?)
      && (l.result.Err? ==> l.effects == [])
  {
  }

  /** Each constant's own token is recognised as that constant. */
  lemma ConstantRecognized(c: Constant)
    ensures PredefinedConstant(Some(ConstantName(c))) == Some(c)
  {
    PredefinedConstantOfToken(Some(ConstantName(c)));
    SameIgnoringCaseReflexive(ConstantName(c));
  }

  /** The requests and the answer of resolving through one locator request. */
  lemma LocatorLookup(url: string, reply: Reply<Option<string>>)
    ensures var asked := [Log(LogDebug), Get(url)];
      var l := if reply.Received? && reply.body.Some? then Traced(Ok(reply.body), asked)
               else Traced(Ok(None), asked + [Log(LogError)]);
      && GetCount(l.effects) == 1
      && Get(url) in l.effects
      && l.result == Ok(if reply.Received? then reply.body else None)
      && (Log(LogError) in l.effects <==> l.result.value.None?)
  {
    var get := Get(url);
    var asked := [Log(LogDebug), get];
    assert asked == [Log(LogDebug)] + [get];
    GetCountAppend([Log(LogDebug)], [get]);
    GetCountAppend(asked, [Log(LogError)]);
    GetCountSingleton(Log(LogDebug));
    GetCountSingleton(get);
    GetCountSingleton(Log(LogError));
  }

  /** A constant is resolved by exactly one request, for the constant's locator of the
      configuration, narrowed to the branch when one is set; the answer is the number
      TeamCity returned, or null with an error logged. */
  lemma {:induction false} ConstantResolvedByOneRequest(c: Constant, buildConfigurationId: string, branch: Option<string>,
                                                        reply: Reply<Option<string>>)
    ensures var l := ResolveBuildNumber(Some(ConstantName(c)), Some(buildConfigurationId), branch, reply);
      && GetCount(l.effects) == 1
      && Get(ConstantUrl(c, buildConfigurationId) + BranchCondition(branch)) in l.effects
      && l.result == Ok(if reply.Received? then reply.body else None)
      && (Log(LogError) in l.effects <==> l.result.value.None?)
  {
    ConstantRecognized(c);
    assert TryGetPredefinedConstantBuildNumberApiUrl(Some(ConstantName(c)), Some(buildConfigurationId))
        == Ok(Some(ConstantUrl(c, buildConfigurationId)));
    LocatorLookup(ConstantUrl(c, buildConfigurationId) + BranchCondition(branch), reply);
  }
}
