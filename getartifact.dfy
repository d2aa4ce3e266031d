/** `GetArtifactAction`: the action that downloads one artifact of a TeamCity build into a
    temporary file and either deploys its contents (copy to the agent's temporary
    directory, then extract into the target directory) or copies the artifact itself into
    the target directory. This revision has no branch support. */
module GetArtifact {
  import opened Common
  import opened Text

  /** The agent-side directories of the execution context. */
  datatype AgentContext = AgentContext(targetDirectory: Option<string>, tempDirectory: Option<string>)

  /** The persisted properties, with the inherited target-directory override. */
  datatype GetArtifactSettings = GetArtifactSettings(
    artifactName: Option<string>, buildConfigurationId: Option<string>, buildNumber: Option<string>,
    extractFilesToTargetDirectory: bool, overriddenTargetDirectory: Option<string>)

  /** The artifact's path under the REST root; a null part is formatted as empty. */
  function ArtifactPath(buildConfigurationId: Option<string>, buildNumber: Option<string>, artifactName: Option<string>): string {
    "repository/download/" + OrEmpty(buildConfigurationId) + "/" + OrEmpty(buildNumber) + "/" + OrEmpty(artifactName)
  }

  /** What happens once the artifact is in the temporary file: deploy its contents through
      the temporary directory, or copy it to the target directory. */
  function Transfer(extract: bool, artifactName: Option<string>, ctx: AgentContext): seq<Effect> {
    if extract then
      [Log(LogDebug), WriteFile(ctx.tempDirectory, artifactName),
       Log(LogDebug), ExtractZip(ctx.tempDirectory, artifactName, ctx.targetDirectory, true)]
    else
      [Log(LogDebug), WriteFile(ctx.targetDirectory, artifactName)]
  }

  /** What `Execute` did: finished or the exception it let escape, and the effects. */
  datatype ActionRun = ActionRun(result: Result<()>, effects: seq<Effect>)

  /** The download into a fresh temporary file; a failed request escapes. */
  function Download(url: string, download: Reply<()>, after: seq<Effect>): ActionRun {
    var fetched := [CreateTempFile, DownloadFile(url)];
    match download
    case HttpFailure(status) => ActionRun(Err(Web(status)), fetched)
    case Received(_) => ActionRun(Ok(()), fetched + after + [Log(LogInformation)])
  }

  /** `Execute`, as a function of the properties, the agent's directories and the server's
      answer to the download. */
  function GetArtifact(s: GetArtifactSettings, ctx: AgentContext, download: Reply<()>): ActionRun {
    var url := ArtifactPath(s.buildConfigurationId, s.buildNumber, s.artifactName);
    var run := Download(url, download, Transfer(s.extractFilesToTargetDirectory, s.artifactName, ctx));
    ActionRun(run.result, [Log(LogDebug)] + run.effects)
  }

  // ---------------------------------------------------------------- file effects

  predicate IsFileEffect(e: Effect) {
    e.DownloadFile? || e.WriteFile? || e.ExtractZip?
  }

  /** The downloads, writes and extractions of a trace, in order. */
  function FileEffects(t: seq<Effect>): seq<Effect>
  {
    if t == [] then [] else (if IsFileEffect(t[0]) then [t[0]] else []) + FileEffects(t[1..])
  }

  lemma {:induction false} FileEffectsAppend(a: seq<Effect>, b: seq<Effect>)
    ensures FileEffects(a + b) == FileEffects(a) + FileEffects(b)
  {
    if a == [] {
      assert a + b == b;
    } else {
      var h := if IsFileEffect(a[0]) then [a[0]] else [];
      assert (a + b)[0] == a[0] && (a + b)[1..] == a[1..] + b;
      FileEffectsAppend(a[1..], b);
      assert FileEffects(a + b) == h + FileEffects(a[1..] + b);
      AppendAssoc(h, FileEffects(a[1..]), FileEffects(b));
    }
  }

  lemma FileEffectsOfNotes(t: seq<Effect>)
    requires forall e :: e in t ==> !IsFileEffect(e)
    ensures FileEffects(t) == []
  {
    if t != [] {
      FileEffectsOfNotes(t[1..]);
    }
  }

  lemma FileEffectsSingleton(e: Effect)
    ensures FileEffects([e]) == if IsFileEffect(e) then [e] else []
  {
    assert [e][1..] == [];
  }

  /** Exactly one of the two paths runs: deploying writes the artifact into the temporary
      directory and then extracts it into the target, overwriting; copying writes it into
      the target. */
  lemma {:induction false} TransferFileEffects(extract: bool, artifactName: Option<string>, ctx: AgentContext)
    ensures FileEffects(Transfer(extract, artifactName, ctx)) ==
      if extract then [WriteFile(ctx.tempDirectory, artifactName), ExtractZip(ctx.tempDirectory, artifactName, ctx.targetDirectory, true)]
      else [WriteFile(ctx.targetDirectory, artifactName)]
  {
    var w := if extract then ctx.tempDirectory else ctx.targetDirectory;
    FileEffectsSingleton(Log(LogDebug));
    FileEffectsSingleton(WriteFile(w, artifactName));
    FileEffectsAppend([Log(LogDebug)], [WriteFile(w, artifactName)]);
    if extract {
      var x := ExtractZip(ctx.tempDirectory, artifactName, ctx.targetDirectory, true);
      FileEffectsSingleton(x);
      FileEffectsAppend([Log(LogDebug)], [x]);
      assert Transfer(extract, artifactName, ctx) == [Log(LogDebug), WriteFile(w, artifactName)] + [Log(LogDebug), x];
      FileEffectsAppend([Log(LogDebug), WriteFile(w, artifactName)], [Log(LogDebug), x]);
    }
  }

  /** The download, and after it the path's writes or nothing: the file is in the
      temporary file before anything is written, and nothing is written when the download
      fails. */
  lemma {:induction false} DownloadFileEffects(url: string, download: Reply<()>, after: seq<Effect>)
    ensures var run := Download(url, download, after);
      && run.result.Ok? == download.Received?
      && (download.HttpFailure? ==> run.result == Err(Web(download.status)))
      && FileEffects(run.effects) == [DownloadFile(url)] + (if download.Received? then FileEffects(after) else [])
      && run.effects[0] == CreateTempFile && DeleteTempFile !in run.effects[..2]
  {
    var fetched := [CreateTempFile, DownloadFile(url)];
    FileEffectsSingleton(CreateTempFile);
    FileEffectsSingleton(DownloadFile(url));
    FileEffectsAppend([CreateTempFile], [DownloadFile(url)]);
    assert [CreateTempFile] + [DownloadFile(url)] == fetched;
    assert FileEffects(fetched) == [DownloadFile(url)];
    if download.Received? {
      FileEffectsSingleton(Log(LogInformation));
      FileEffectsAppend(fetched, after);
      FileEffectsAppend(fetched + after, [Log(LogInformation)]);
      assert Download(url, download, after).effects == fetched + after + [Log(LogInformation)];
    } else {
      assert Download(url, download, after).effects == fetched;
    }
  }

  /** The whole action's downloads and writes: the artifact path without any branch, then,
      after a successful download, exactly one of the two paths. */
  lemma {:induction false} ExecuteFileEffects(s: GetArtifactSettings, ctx: AgentContext, download: Reply<()>)
    ensures var run := GetArtifact(s, ctx, download);
      var w := if s.extractFilesToTargetDirectory then ctx.tempDirectory else ctx.targetDirectory;
      && (run.result.Ok? <==> download.Received?)
      && (download.HttpFailure? ==> run.result == Err(Web(download.status)))
      && FileEffects(run.effects) ==
           [DownloadFile(ArtifactPath(s.buildConfigurationId, s.buildNumber, s.artifactName))]
           + (if download.HttpFailure? then []
              else [WriteFile(w, s.artifactName)]
                   + (if s.extractFilesToTargetDirectory
                      then [ExtractZip(ctx.tempDirectory, s.artifactName, ctx.targetDirectory, true)] else []))
  {
    var url := ArtifactPath(s.buildConfigurationId, s.buildNumber, s.artifactName);
    var after := Transfer(s.extractFilesToTargetDirectory, s.artifactName, ctx);
    DownloadFileEffects(url, download, after);
    TransferFileEffects(s.extractFilesToTargetDirectory, s.artifactName, ctx);
    FileEffectsSingleton(Log(LogDebug));
    FileEffectsAppend([Log(LogDebug)], Download(url, download, after).effects);
  }

  /** The temporary file is created but never removed, on either path. */
  lemma TempFileKept(s: GetArtifactSettings, ctx: AgentContext, download: Reply<()>)
    ensures var run := GetArtifact(s, ctx, download);
      CreateTempFile in run.effects && DeleteTempFile !in run.effects
  {
    var run := GetArtifact(s, ctx, download);
    assert run.effects[1] == CreateTempFile;
  }

  // ---------------------------------------------------------------- ToString

  const DeployMode := "deploy its contents"
  const CopyMode := "copy the artifact"
  const DefaultDirectory := "the default directory"

  function ModeText(extract: bool): string {
    if extract then DeployMode else CopyMode
  }

  function DescriptionPrefix(s: GetArtifactSettings): string {
    "Get the artifact \"" + OrEmpty(s.artifactName) + "\" of Build #" + OrEmpty(s.buildNumber)
      + " of the configuration \"" + OrEmpty(s.buildConfigurationId) + "\" from TeamCity and "
  }

  /** `ToString`. */
  function Describe(s: GetArtifactSettings): string {
    DescriptionPrefix(s) + ModeText(s.extractFilesToTargetDirectory) + " to "
      + CoalesceStr(s.overriddenTargetDirectory, DefaultDirectory) + "."
  }

  /** The description names the mode right after its fixed prefix, so the two modes are
      told apart, and ends with the override directory or, without one, the default
      directory. */
  lemma {:induction false} DescribeModeAndDirectory(s: GetArtifactSettings)
    ensures var d := Describe(s);
      var p := |DescriptionPrefix(s)|;
      var dir := if IsNullOrEmpty(s.overriddenTargetDirectory) then DefaultDirectory else s.overriddenTargetDirectory.value;
      && |d| > p
      && d[p] == (if s.extractFilesToTargetDirectory then 'd' else 'c')
      && d[..p] == DescriptionPrefix(s)
      && d[|d| - |dir| - 1..] == dir + "."
    ensures Describe(s.(extractFilesToTargetDirectory := true)) != Describe(s.(extractFilesToTargetDirectory := false))
  {
    var d := Describe(s);
    var p := DescriptionPrefix(s);
    var m := ModeText(s.extractFilesToTargetDirectory);
    var dir := CoalesceStr(s.overriddenTargetDirectory, DefaultDirectory);
    assert d == p + (m + " to " + dir + ".");
    assert (m + " to " + dir + ".")[0] == m[0];
    var t := s.(extractFilesToTargetDirectory := true);
    var f := s.(extractFilesToTargetDirectory := false);
    assert DescriptionPrefix(t) == p == DescriptionPrefix(f);
    assert Describe(t)[|p|] == 'd';
    assert Describe(f)[|p|] == 'c';
  }

  // ---------------------------------------------------------------- the action object

  class GetArtifactAction {
    var artifactName: Option<string>
    var buildConfigurationId: Option<string>
    var buildNumber: Option<string>
    var extractFilesToTargetDirectory: bool
    var overriddenTargetDirectory: Option<string>
    /** Everything the action has logged, downloaded and written so far. */
    var trace: seq<Effect>

    /** A new action deploys the artifact's contents. */
    constructor ()
      ensures Settings() == GetArtifactSettings(None, None, None, true, None)
      ensures trace == []
    {
      artifactName := None;
      buildConfigurationId := None;
      buildNumber := None;
      extractFilesToTargetDirectory := true;
      overriddenTargetDirectory := None;
      trace := [];
    }

    function Settings(): GetArtifactSettings
      reads this
    {
      GetArtifactSettings(artifactName, buildConfigurationId, buildNumber, extractFilesToTargetDirectory, overriddenTargetDirectory)
    }

    function ToString(): string
      reads this
    {
      Describe(Settings())
    }

    /** `Execute`. */
    method Execute(ctx: AgentContext, download: Reply<()>) returns (r: Result<()>)
      modifies this`trace
      ensures var run := GetArtifact(Settings(), ctx, download);
        r == run.result && trace == old(trace) + run.effects
    {
      var url := ArtifactPath(buildConfigurationId, buildNumber, artifactName);
      trace := trace + [Log(LogDebug)];
      trace := trace + [CreateTempFile, DownloadFile(url)];
      if download.HttpFailure? {
        r := Err(Web(download.status));
        AppendAssoc(old(trace), [Log(LogDebug)], [CreateTempFile, DownloadFile(url)]);
        return;
      }
      ghost var fetched := trace;
      var transfer: seq<Effect>;
      if extractFilesToTargetDirectory {
        transfer := [Log(LogDebug), WriteFile(ctx.tempDirectory, artifactName),
                     Log(LogDebug), ExtractZip(ctx.tempDirectory, artifactName, ctx.targetDirectory, true)];
      } else {
        transfer := [Log(LogDebug), WriteFile(ctx.targetDirectory, artifactName)];
      }
      trace := trace + transfer + [Log(LogInformation)];
      r := Ok(());
      assert trace == old(trace) + [Log(LogDebug)] + [CreateTempFile, DownloadFile(url)] + transfer + [Log(LogInformation)];
      assert [Log(LogDebug)] + Download(url, download, transfer).effects
          == [Log(LogDebug)] + [CreateTempFile, DownloadFile(url)] + transfer + [Log(LogInformation)];
    }
  }
}
