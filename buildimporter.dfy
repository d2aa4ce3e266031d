/** `TeamCityBuildImporter`: the build-importer extension. It hands the import to a
    `TeamCityArtifactImporter` configured with its own properties, records the build number
    that comes back in the `TeamCityBuildNumber` variable, and answers the build number
    it imports as a custom build-number provider. */
module BuildImporter {
  import opened Common
  import opened Text
  import opened Catalog
  import opened Configurers
  import opened BuildNumbers
  import opened ArtifactImporter

  /** The persisted properties (the display name is only shown, never used). */
  datatype BuildImporterSettings = BuildImporterSettings(
    artifactName: Option<string>, buildConfigurationId: Option<string>, buildConfigurationDisplayName: Option<string>,
    buildNumber: Option<string>, branchName: Option<string>)

  const BuildNumberVariable := "TeamCityBuildNumber"

  /** The artifact importer as `Import` configures it: artifact, chosen branch, ID and
      number; project and configuration name stay unset. */
  function ImporterFor(p: BuildImporterSettings, configurer: LegacyTeamCityConfigurer): ImporterSettings {
    ImporterSettings(p.buildConfigurationId, None, None, p.artifactName, p.buildNumber, GetBranchName(p.branchName, configurer))
  }

  /** What `Import` did: finished or the exception it let escape, and the effects. */
  datatype BuildImportRun = BuildImportRun(result: Result<()>, effects: seq<Effect>)

  /** `Import`, as a function of the properties, the configurer, the context and the
      server's answers: the artifact importer cannot be built without an application, its
      exceptions escape, and a resolved number is noted and stored in the variable. */
  function ImportBuild(p: BuildImporterSettings, configurer: LegacyTeamCityConfigurer, context: BuildMasterContext,
                       server: ImportServer): BuildImportRun
  {
    match CheckImporterArguments(Some(configurer.AsConnectionInfo()), true, Some(context))
    case Some(f) => BuildImportRun(Err(f), [])
    case None =>
      var run := Import(ImporterFor(p, configurer), server);
      match run.result
      case Err(f) => BuildImportRun(Err(f), run.effects)
      case Ok(n) => BuildImportRun(Ok(()), run.effects + [Log(LogDebug), SetVariable(BuildNumberVariable, n)])
  }

  /** `ICustomBuildNumberProvider.BuildNumber`: the property's own number resolved for the
      chosen branch, without the `lastSuccessful` default that `Import` applies. */
  function ProvidedBuildNumber(p: BuildImporterSettings, configurer: LegacyTeamCityConfigurer,
                               reply: Reply<Option<string>>): Traced<Option<string>>
  {
    ResolveBuildNumber(p.buildNumber, p.buildConfigurationId, GetBranchName(p.branchName, configurer), reply)
  }

  // ---------------------------------------------------------------- properties

  /** Without an application in the context nothing happens and the import fails. */
  lemma NoApplicationNoImport(p: BuildImporterSettings, configurer: LegacyTeamCityConfigurer, context: BuildMasterContext,
                              server: ImportServer)
    ensures ImportBuild(p, configurer, context, server).result.Err? <==>
      context.applicationId.None? || Import(ImporterFor(p, configurer), server).result.Err?
    ensures context.applicationId.None? ==> ImportBuild(p, configurer, context, server) == BuildImportRun(Err(InvalidOperation), [])
  {
  }

  /** The build importer never sets the names, so the build-types query is never made: the
      import does not depend on its answer, and the ID downloaded from is the property's. */
  lemma {:induction false} NoNameResolution(p: BuildImporterSettings, configurer: LegacyTeamCityConfigurer,
                                            context: BuildMasterContext, server: ImportServer,
                                            buildTypes: Reply<seq<BuildTypeElement>>)
    ensures ImportBuild(p, configurer, context, server) == ImportBuild(p, configurer, context, server.(buildTypes := buildTypes))
    ensures var s := ImporterFor(p, configurer);
      !ResolvesByName(s) && Import(s, server).settings.buildConfigurationId == p.buildConfigurationId
  {
    var s := ImporterFor(p, configurer);
    assert ResolveId(s, server.buildTypes) == ResolveId(s, buildTypes) == Traced(Ok(p.buildConfigurationId), []);
    assert Import(s, server) == Import(s, server.(buildTypes := buildTypes));
  }

  /** The artifact importer works with the branch chosen from the property and the
      configurer's default. */
  lemma ChosenBranchPassed(p: BuildImporterSettings, configurer: LegacyTeamCityConfigurer)
    ensures var b := ImporterFor(p, configurer).branchName;
      && (b.Some? <==> !IsNullOrEmpty(p.branchName) || !IsNullOrEmpty(configurer.defaultBranchName))
      && (!IsNullOrEmpty(p.branchName) ==> b == p.branchName)
      && (IsNullOrEmpty(p.branchName) && b.Some? ==> b == configurer.defaultBranchName)
  {
  }

  /** The variable is set exactly when the import succeeds, as the last effect, to the
      number the artifact importer returned. */
  lemma {:induction false} VariableHoldsImportedNumber(p: BuildImporterSettings, configurer: LegacyTeamCityConfigurer,
                                                       context: BuildMasterContext, server: ImportServer)
    ensures var run := ImportBuild(p, configurer, context, server);
      var imported := Import(ImporterFor(p, configurer), server);
      && (run.result.Ok? <==> context.applicationId.Some? && imported.result.Ok?)
      && (run.result.Ok? ==>
            && |run.effects| == |imported.effects| + 2
            && run.effects[..|imported.effects|] == imported.effects
            && run.effects[|run.effects| - 1] == SetVariable(BuildNumberVariable, imported.result.value))
      && (run.result.Err? ==> SetsNoVariable(run.effects))
  {
    var run := ImportBuild(p, configurer, context, server);
    var imported := Import(ImporterFor(p, configurer), server);
    if context.applicationId.Some? && imported.result.Err? {
      ImportSetsNoVariable(ImporterFor(p, configurer), server);
    }
  }

  /** The artifact importer sets no variable. */
  lemma {:induction false} ImportSetsNoVariable(s: ImporterSettings, server: ImportServer)
    ensures SetsNoVariable(Import(s, server).effects)
  {
    var resolved := ResolveId(s, server.buildTypes);
    PreparedEffects(s, server.buildTypes);
    var prepared := [Log(LogInformation)] + resolved.effects + Preamble(s);
    assert SetsNoVariable(prepared);
    if resolved.result.Err? {
      assert Import(s, server).effects == [Log(LogInformation)] + resolved.effects;
      assert Import(s, server).effects == prepared[..|Import(s, server).effects|];
    } else {
      var s1 := Resolved(s, resolved.result.value);
      var url := DownloadUrl(resolved.result.value, s1.buildNumber.value, s.artifactName, s.branchName);
      var fetched := Fetch(url, server.download, TrimWhitespaceAndZipExtension(s.artifactName));
      assert SetsNoVariable(fetched.effects);
      SetsNoVariableAppend(prepared, fetched.effects);
      if fetched.result.Ok? {
        var closing := [Log(LogInformation)] + ActualBuildNumber(s1, server.numberReply).effects;
        ClosingEffects(s1, server.numberReply);
        SetsNoVariableAppend(prepared + fetched.effects, closing);
        AppendAssoc(prepared + fetched.effects, [Log(LogInformation)], ActualBuildNumber(s1, server.numberReply).effects);
      }
    }
  }

  predicate SetsNoVariable(t: seq<Effect>) {
    forall e :: e in t ==> !e.SetVariable?
  }

  lemma SetsNoVariableAppend(a: seq<Effect>, b: seq<Effect>)
    requires SetsNoVariable(a) && SetsNoVariable(b)
    ensures SetsNoVariable(a + b)
  {
  }

  /** For an explicit, non-empty build number the provider and the import agree: the
      variable holds the number the provider answers for the same server reply. */
  lemma {:induction false} ProviderAgreesWithImport(p: BuildImporterSettings, configurer: LegacyTeamCityConfigurer,
                                                    context: BuildMasterContext, server: ImportServer)
    requires !IsNullOrEmpty(p.buildNumber)
    requires ImportBuild(p, configurer, context, server).result.Ok?
    ensures var run := ImportBuild(p, configurer, context, server);
      run.effects[|run.effects| - 1] == SetVariable(BuildNumberVariable, ProvidedBuildNumber(p, configurer, server.numberReply).result.value)
  {
    var s := ImporterFor(p, configurer);
    var imported := Import(s, server);
    VariableHoldsImportedNumber(p, configurer, context, server);
    ImportAnswersActualNumber(s, server);
  }

  /** A successful import answers the shared resolution of its (defaulted) number. */
  lemma ImportAnswersActualNumber(s: ImporterSettings, server: ImportServer)
    requires Import(s, server).result.Ok?
    ensures var run := Import(s, server);
      run.result == ResolveBuildNumber(run.settings.buildNumber, run.settings.buildConfigurationId, s.branchName, server.numberReply).result
      && run.settings.buildNumber == Some(EffectiveBuildNumber(s.buildNumber))
  {
  }

  /** Without a build number the provider answers nothing and asks nothing, although
      `Import` downloads and resolves `lastSuccessful`. */
  lemma {:induction false} ProviderDoesNotDefault(p: BuildImporterSettings, configurer: LegacyTeamCityConfigurer,
                                                  reply: Reply<Option<string>>)
    requires p.buildNumber.None?
    ensures ProvidedBuildNumber(p, configurer, reply) == Traced(Ok(None), [Log(LogDebug)])
    ensures ImporterFor(p, configurer).buildNumber.None? && EffectiveBuildNumber(ImporterFor(p, configurer).buildNumber) == LastSuccessful
  {
    assert PredefinedConstant(None).None?;
  }

  /** The provider asks the server only for a reserved token and then narrows the locator to
      the chosen branch; an explicit number is answered as it is. */
  lemma ProviderNarrowsToBranch(p: BuildImporterSettings, configurer: LegacyTeamCityConfigurer, reply: Reply<Option<string>>)
    requires p.buildConfigurationId.Some?
    ensures var l := ProvidedBuildNumber(p, configurer, reply);
      var branch := GetBranchName(p.branchName, configurer);
      && (PredefinedConstant(p.buildNumber).None? ==> l == Traced(Ok(p.buildNumber), [Log(LogDebug)]))
      && (PredefinedConstant(p.buildNumber).Some? ==>
            l.effects[1] == Get(ConstantUrl(PredefinedConstant(p.buildNumber).value, p.buildConfigurationId.value) + BranchCondition(branch)))
  {
  }

  // ---------------------------------------------------------------- the extension object

  class TeamCityBuildImporter {
    var artifactName: Option<string>
    var buildConfigurationId: Option<string>
    var buildConfigurationDisplayName: Option<string>
    var buildNumber: Option<string>
    var branchName: Option<string>
    /** Everything logged, requested and stored through the importer so far. */
    var trace: seq<Effect>

    constructor (p: BuildImporterSettings)
      ensures Properties() == p && trace == []
    {
      artifactName := p.artifactName;
      buildConfigurationId := p.buildConfigurationId;
      buildConfigurationDisplayName := p.buildConfigurationDisplayName;
      buildNumber := p.buildNumber;
      branchName := p.branchName;
      trace := [];
    }

    function Properties(): BuildImporterSettings
      reads this
    {
      BuildImporterSettings(artifactName, buildConfigurationId, buildConfigurationDisplayName, buildNumber, branchName)
    }

    /** `Import`; the artifact importer logs through this object, so its trace is ours. */
    method Import(configurer: LegacyTeamCityConfigurer, context: BuildMasterContext, server: ImportServer)
      returns (r: Result<()>)
      modifies this`trace
      ensures var run := ImportBuild(old(Properties()), configurer, context, server);
        r == run.result && trace == old(trace) + run.effects
    {
      var check := CheckImporterArguments(Some(configurer.AsConnectionInfo()), true, Some(context));
      if check.Some? {
        r := Err(check.value);
        return;
      }
      var importer := new TeamCityArtifactImporter(configurer.AsConnectionInfo(), context);
      importer.artifactName := artifactName;
      importer.branchName := GetBranchName(branchName, configurer);
      importer.buildConfigurationId := buildConfigurationId;
      importer.buildNumber := buildNumber;
      ghost var s := ImporterFor(Properties(), configurer);
      assert importer.Settings() == s;
      ghost var run := ArtifactImporter.Import(s, server);
      var n := importer.ImportAsync(server);
      assert n == run.result && importer.trace == run.effects;
      trace := trace + importer.trace;
      if n.Err? {
        assert ImportBuild(old(Properties()), configurer, context, server) == BuildImportRun(Err(n.fault), run.effects);
        r := Err(n.fault);
        return;
      }
      var closing := [Log(LogDebug), SetVariable(BuildNumberVariable, n.value)];
      assert ImportBuild(old(Properties()), configurer, context, server) == BuildImportRun(Ok(()), run.effects + closing);
      trace := trace + closing;
      AppendAssoc(old(trace), run.effects, closing);
      r := Ok(());
    }

    /** `GetActualBuildNumber` of the build importer: the shared resolution for the chosen
        branch, without a note of its own. */
    method GetActualBuildNumber(configurer: LegacyTeamCityConfigurer, buildNumber: Option<string>,
                                reply: Reply<Option<string>>) returns (r: Result<Option<string>>)
      modifies this`trace
      ensures var l := ResolveBuildNumber(buildNumber, buildConfigurationId, GetBranchName(branchName, configurer), reply);
        r == l.result && trace == old(trace) + l.effects
    {
      var l := ResolveBuildNumber(buildNumber, buildConfigurationId, GetBranchName(branchName, configurer), reply);
      trace := trace + l.effects;
      r := l.result;
    }

    /** `ICustomBuildNumberProvider.BuildNumber`. */
    method ProvidedNumber(configurer: LegacyTeamCityConfigurer, reply: Reply<Option<string>>) returns (r: Result<Option<string>>)
      modifies this`trace
      ensures var l := ProvidedBuildNumber(old(Properties()), configurer, reply);
        r == l.result && trace == old(trace) + l.effects
    {
      r := GetActualBuildNumber(configurer, buildNumber, reply);
    }
  }
}
