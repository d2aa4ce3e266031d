/** The legacy `GetArtifactAction`: the same download-then-deploy-or-copy action, but
    restricted to a branch (the explicit one, else the configurer's default) whenever one
    is chosen, and described with a rich description. */
module LegacyGetArtifact {
  import opened Common
  import opened Text
  import opened Configurers
  import opened GetArtifact
  import ArtifactImporter

  /** The persisted properties, with the inherited target-directory override. */
  datatype LegacyGetArtifactSettings = LegacyGetArtifactSettings(
    artifactName: Option<string>, buildConfigurationId: Option<string>, buildNumber: Option<string>,
    branchName: Option<string>, extractFilesToTargetDirectory: bool, overriddenTargetDirectory: Option<string>)

  /** The relative URL: the artifact path, restricted to the chosen branch. */
  function LegacyArtifactUrl(s: LegacyGetArtifactSettings, configurer: LegacyTeamCityConfigurer): string {
    var branch := GetBranchName(s.branchName, configurer);
    ArtifactPath(s.buildConfigurationId, s.buildNumber, s.artifactName)
      + (if branch.Some? then "?branch=" + EscapeDataString(branch.value) else "")
  }

  /** `Execute`: the branch note when a branch is chosen, then as the current action. */
  function LegacyGetArtifact(s: LegacyGetArtifactSettings, configurer: LegacyTeamCityConfigurer, ctx: AgentContext,
                             download: Reply<()>): ActionRun
  {
    var note := if GetBranchName(s.branchName, configurer).Some? then [Log(LogDebug)] else [];
    var run := Download(LegacyArtifactUrl(s, configurer), download, Transfer(s.extractFilesToTargetDirectory, s.artifactName, ctx));
    ActionRun(run.result, note + [Log(LogDebug)] + run.effects)
  }

  /** The branch query is added exactly when a branch is chosen, that is when the explicit
      branch or the default is neither null nor empty, and it is then the query the artifact
      importer adds for that branch. */
  lemma LegacyUrlBranch(s: LegacyGetArtifactSettings, configurer: LegacyTeamCityConfigurer)
    ensures var path := ArtifactPath(s.buildConfigurationId, s.buildNumber, s.artifactName);
      var url := LegacyArtifactUrl(s, configurer);
      && path <= url
      && (url == path <==> IsNullOrEmpty(s.branchName) && IsNullOrEmpty(configurer.defaultBranchName))
      && url == ArtifactImporter.DownloadUrl(s.buildConfigurationId, OrEmpty(s.buildNumber), s.artifactName,
                                             GetBranchName(s.branchName, configurer))
  {
  }

  /** The legacy action writes what the current one writes, only from the URL restricted
      to the branch: the download first, nothing more when it fails, else exactly one of the
      two paths. */
  lemma {:induction false} LegacyFileEffects(s: LegacyGetArtifactSettings, configurer: LegacyTeamCityConfigurer,
                                             ctx: AgentContext, download: Reply<()>)
    ensures var run := LegacyGetArtifact(s, configurer, ctx, download);
      var w := if s.extractFilesToTargetDirectory then ctx.tempDirectory else ctx.targetDirectory;
      && (run.result.Ok? <==> download.Received?)
      && (download.HttpFailure? ==> run.result == Err(Web(download.status)))
      && FileEffects(run.effects) ==
           [DownloadFile(LegacyArtifactUrl(s, configurer))]
           + (if download.HttpFailure? then []
              else [WriteFile(w, s.artifactName)]
                   + (if s.extractFilesToTargetDirectory
                      then [ExtractZip(ctx.tempDirectory, s.artifactName, ctx.targetDirectory, true)] else []))
  {
    var url := LegacyArtifactUrl(s, configurer);
    var after := Transfer(s.extractFilesToTargetDirectory, s.artifactName, ctx);
    var note := if GetBranchName(s.branchName, configurer).Some? then [Log(LogDebug)] else [];
    DownloadFileEffects(url, download, after);
    TransferFileEffects(s.extractFilesToTargetDirectory, s.artifactName, ctx);
    FileEffectsSingleton(Log(LogDebug));
    FileEffectsOfNotes(note);
    FileEffectsAppend(note, [Log(LogDebug)]);
    FileEffectsAppend(note + [Log(LogDebug)], Download(url, download, after).effects);
  }

  // ---------------------------------------------------------------- GetActionDescription

  /** An `ExtendedRichDescription`: the short line and the detail line, as plain text. */
  datatype RichDescription = RichDescription(summary: string, details: string)

  const OfBuild := "of build "

  /** The mark put before the build number: `#` when it parsed as an integer. */
  function NumberMarker(parsed: Option<int>): string {
    if parsed.Some? then "#" else ""
  }

  /** `GetActionDescription`, given what `int.TryParse` made of the build number; the
      directory is shown as given. */
  function Description(s: LegacyGetArtifactSettings, parsed: Option<int>): RichDescription {
    RichDescription("Get TeamCity " + OrEmpty(s.artifactName) + " Artifact ", Details(NumberMarker(parsed), s))
  }

  /** The detail line, given the marker put before the build number. */
  function Details(marker: string, s: LegacyGetArtifactSettings): string {
    OfBuild + marker + OrEmpty(s.buildNumber)
      + (if !IsNullOrEmpty(s.branchName) then " on branch " + s.branchName.value else "")
      + " of the configuration \"" + OrEmpty(s.buildConfigurationId) + "\" and "
      + ModeText(s.extractFilesToTargetDirectory) + " to " + OrEmpty(s.overriddenTargetDirectory)
  }

  /** The detail line opens with "of build ", the marker and the build number. */
  lemma DetailsStart(marker: string, s: LegacyGetArtifactSettings)
    ensures var d := Details(marker, s);
      var k := |OfBuild|;
      var n := OrEmpty(s.buildNumber);
      && |d| >= k + |marker| + |n|
      && d[..k] == OfBuild && d[k..k + |marker|] == marker && d[k + |marker|..k + |marker| + |n|] == n
  {
    var d := Details(marker, s);
    var k := |OfBuild|;
    var head := OfBuild + marker + OrEmpty(s.buildNumber);
    assert d == head + d[|head|..];
    assert head[..k] == OfBuild;
    assert head[k..k + |marker|] == marker;
    assert head[k + |marker|..] == OrEmpty(s.buildNumber);
  }

  /** The build number is marked with `#` exactly when it parsed as an integer: then it
      follows the mark, otherwise it follows "of build " directly. */
  lemma {:induction false} NumberMarkedWhenNumeric(s: LegacyGetArtifactSettings, parsed: Option<int>)
    ensures var d := Description(s, parsed).details;
      var n := OrEmpty(s.buildNumber);
      var k := |OfBuild|;
      && |d| >= k && d[..k] == OfBuild
      && (parsed.Some? ==> |d| >= k + 1 + |n| && d[k] == '#' && d[k + 1..k + 1 + |n|] == n)
      && (parsed.None? ==> |d| >= k + |n| && d[k..k + |n|] == n)
  {
    var m := NumberMarker(parsed);
    var d := Details(m, s);
    var k := |OfBuild|;
    DetailsStart(m, s);
    if parsed.Some? {
      assert d[k..k + 1] == "#";
      assert d[k] == d[k..k + 1][0];
    }
  }

  /** A number written out from a 32-bit integer parses, so it is marked. */
  lemma IntegerBuildNumberMarked(s: LegacyGetArtifactSettings, i: int)
    requires Int32Min <= i <= Int32Max && s.buildNumber == Some(IntToString(i))
    ensures ParseInt(s.buildNumber) == Some(i)
    ensures var d := Description(s, Some(i)).details;
      |d| > |OfBuild| && d[|OfBuild|] == '#'
  {
    ParseIntOfIntToString(i);
    NumberMarkedWhenNumeric(s, Some(i));
  }

  // ---------------------------------------------------------------- the action object

  class LegacyGetArtifactAction {
    var artifactName: Option<string>
    var buildConfigurationId: Option<string>
    var buildNumber: Option<string>
    var branchName: Option<string>
    var extractFilesToTargetDirectory: bool
    var overriddenTargetDirectory: Option<string>
    /** Everything the action has logged, downloaded and written so far. */
    var trace: seq<Effect>

    /** A new action deploys the artifact's contents (the property initializer). */
    constructor ()
      ensures Settings() == LegacyGetArtifactSettings(None, None, None, None, true, None)
      ensures trace == []
    {
      artifactName := None;
      buildConfigurationId := None;
      buildNumber := None;
      branchName := None;
      extractFilesToTargetDirectory := true;
      overriddenTargetDirectory := None;
      trace := [];
    }

    function Settings(): LegacyGetArtifactSettings
      reads this
    {
      LegacyGetArtifactSettings(artifactName, buildConfigurationId, buildNumber, branchName,
                                extractFilesToTargetDirectory, overriddenTargetDirectory)
    }

    function GetActionDescription(): RichDescription
      reads this
    {
      Description(Settings(), ParseInt(buildNumber))
    }

    /** `Execute`. */
    method Execute(configurer: LegacyTeamCityConfigurer, ctx: AgentContext, download: Reply<()>) returns (r: Result<()>)
      modifies this`trace
      ensures var run := LegacyGetArtifact(Settings(), configurer, ctx, download);
        r == run.result && trace == old(trace) + run.effects
    {
      ghost var s := Settings();
      var url := ArtifactPath(buildConfigurationId, buildNumber, artifactName);
      var branch := GetBranchName(branchName, configurer);
      var done: seq<Effect> := [];
      if branch.Some? {
        done := [Log(LogDebug)];
        url := url + "?branch=" + EscapeDataString(branch.value);
      }
      assert url == LegacyArtifactUrl(s, configurer);
      ghost var note := done;
      done := done + [Log(LogDebug)] + [CreateTempFile, DownloadFile(url)];
      if download.HttpFailure? {
        r := Err(Web(download.status));
        assert LegacyGetArtifact(s, configurer, ctx, download) == ActionRun(r, done);
        trace := trace + done;
        return;
      }
      var transfer: seq<Effect>;
      if extractFilesToTargetDirectory {
        transfer := [Log(LogDebug), WriteFile(ctx.tempDirectory, artifactName),
                     Log(LogDebug), ExtractZip(ctx.tempDirectory, artifactName, ctx.targetDirectory, true)];
      } else {
        transfer := [Log(LogDebug), WriteFile(ctx.targetDirectory, artifactName)];
      }
      assert transfer == Transfer(s.extractFilesToTargetDirectory, s.artifactName, ctx);
      r := Ok(());
      AppendAssoc(note + [Log(LogDebug)], [CreateTempFile, DownloadFile(url)], transfer + [Log(LogInformation)]);
      assert LegacyGetArtifact(s, configurer, ctx, download) == ActionRun(r, done + (transfer + [Log(LogInformation)]));
      trace := trace + (done + (transfer + [Log(LogInformation)]));
    }
  }
}
