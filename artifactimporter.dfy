/** `TeamCityArtifactImporter`: downloads one artifact of a build into a temporary file,
    stores it as a BuildMaster artifact, and resolves the build number it came from.
    The build-configuration ID may first be looked up from the project and configuration
    names. */
module ArtifactImporter {
  import opened Common
  import opened Text
  import opened Connection
  import opened Catalog
  import opened Resolution
  import opened BuildNumbers

  // ---------------------------------------------------------------- construction

  /** The argument checks of the constructor, in the order it makes them; `None` when the
      importer can be built. */
  function CheckImporterArguments(connectionInfo: Option<ConnectionInfo>, hasLogger: bool, context: Option<BuildMasterContext>): Option<Fault>
  {
    if connectionInfo.None? then Some(ArgumentNull("connectionInfo"))
    else if !hasLogger then Some(ArgumentNull("logger"))
    else if context.None? then Some(ArgumentNull("context"))
    else if context.value.applicationId.None? then Some(InvalidOperation)
    else None
  }

  /** The importer can be built exactly when every argument is present and the context
      names an application; a missing connection is reported before anything else, and a
      context without an application only once every argument is present. */
  lemma ImporterArgumentsAccepted(connectionInfo: Option<ConnectionInfo>, hasLogger: bool, context: Option<BuildMasterContext>)
    ensures CheckImporterArguments(connectionInfo, hasLogger, context).None?
        <==> connectionInfo.Some? && hasLogger && context.Some? && context.value.applicationId.Some?
    ensures connectionInfo.None? ==> CheckImporterArguments(connectionInfo, hasLogger, context) == Some(ArgumentNull("connectionInfo"))
    ensures CheckImporterArguments(connectionInfo, hasLogger, context) == Some(InvalidOperation)
        <==> connectionInfo.Some? && hasLogger && context.Some? && context.value.applicationId.None?
  {
  }

  // ---------------------------------------------------------------- the stored name

  const ZipExtension := ".zip"

  /** `TrimWhitespaceAndZipExtension`: the file name of the artifact, trimmed, without a
      trailing `.zip` in any case; a null name is dereferenced. */
  function TrimWhitespaceAndZipExtension(artifactName: Option<string>): (r: Result<string>)
    ensures r.Err? <==> artifactName.None?
    ensures r.Err? ==> r.fault == NullReference
  {
    if artifactName.None? then Err(NullReference)
    else Ok(StripZipExtension(Trim(GetFileName(artifactName.value))))
  }

  function StripZipExtension(file: string): string {
    if EndsWithIgnoringCase(file, ZipExtension) then file[..|file| - |ZipExtension|] else file
  }

  /** Stripping cuts off a trailing `.zip` in any case, and nothing else. */
  lemma StripZipExtensionShape(file: string)
    ensures var r := StripZipExtension(file);
      && r == file[..|r|]
      && (EndsWithIgnoringCase(file, ZipExtension) ==> r + file[|r|..] == file && SameIgnoringCase(file[|r|..], ZipExtension))
      && (!EndsWithIgnoringCase(file, ZipExtension) ==> r == file)
  {
    var r := StripZipExtension(file);
    assert |ZipExtension| == 4;
    if EndsWithIgnoringCase(file, ZipExtension) {
      assert file[|r|..] == file[|file| - |ZipExtension|..];
    }
  }

  /** Trimming keeps only characters it was given, so it adds no directory separator. */
  lemma TrimAddsNoSeparator(s: string)
    requires forall i :: 0 <= i < |s| ==> !IsDirectorySeparator(s[i])
    ensures forall i :: 0 <= i < |Trim(s)| ==> !IsDirectorySeparator(Trim(s)[i])
  {
    var t := TrimStart(s);
    TrimStartShape(s);
    TrimTrailingShape(t);
    assert forall i :: 0 <= i < |t| ==> t[i] == s[|s| - |t| + i];
    var u := TrimTrailing(t);
    assert forall i :: 0 <= i < |u| ==> u[i] == t[i];
  }

  /** The stored name is a plain file name: no directory part survives. */
  lemma {:induction false} StoredNameIsFileName(artifactName: string)
    ensures var r := TrimWhitespaceAndZipExtension(Some(artifactName)).value;
      forall i :: 0 <= i < |r| ==> !IsDirectorySeparator(r[i])
  {
    var name := GetFileName(artifactName);
    GetFileNameShape(artifactName);
    var file := Trim(name);
    TrimAddsNoSeparator(name);
    StripZipExtensionShape(file);
    PrefixKeepsNoSeparator(file, StripZipExtension(file));
  }

  lemma PrefixKeepsNoSeparator(file: string, r: string)
    requires |r| <= |file| && r == file[..|r|]
    requires forall i :: 0 <= i < |file| ==> !IsDirectorySeparator(file[i])
    ensures forall i :: 0 <= i < |r| ==> !IsDirectorySeparator(r[i])
  {
    assert forall i :: 0 <= i < |r| ==> r[i] == file[i];
  }

  /** The stored name is the trimmed file name with a trailing `.zip`, in any case, cut off,
      and exactly the trimmed file name when that has no such extension. */
  lemma {:induction false} StoredNameStripsZip(artifactName: string)
    ensures var file := Trim(GetFileName(artifactName));
      var r := TrimWhitespaceAndZipExtension(Some(artifactName)).value;
      && (EndsWithIgnoringCase(file, ZipExtension) ==> r + file[|r|..] == file && SameIgnoringCase(file[|r|..], ZipExtension))
      && (!EndsWithIgnoringCase(file, ZipExtension) ==> r == file)
  {
    StripZipExtensionShape(Trim(GetFileName(artifactName)));
  }

  /** Only a trailing `.zip`, in any case, is removed. */
  lemma ZipExtensionExample()
    ensures TrimWhitespaceAndZipExtension(Some("Package.ZIP")) == Ok("Package")
  {
    SameIgnoringCaseByChars(".ZIP", ".zip");
    ExampleNameIsFileName();
    assert "Package.ZIP"[7..] == ".ZIP";
    assert EndsWithIgnoringCase("Package.ZIP", ZipExtension);
    assert StripZipExtension("Package.ZIP") == "Package.ZIP"[..7] == "Package";
  }

  lemma ExampleNameIsFileName()
    ensures Trim(GetFileName("Package.ZIP")) == "Package.ZIP"
  {
    var s := "Package.ZIP";
    assert forall i :: 0 <= i < |s| ==> !IsDirectorySeparator(s[i]);
    FileNameWithoutSeparators(s);
    TrimUntouched(s);
  }

  /** A name without a directory separator is its own file name. */
  lemma {:induction false} FileNameWithoutSeparators(s: string)
    requires forall i :: 0 <= i < |s| ==> !IsDirectorySeparator(s[i])
    ensures GetFileName(s) == s
  {
    if |s| > 0 {
      FileNameWithoutSeparators(s[..|s| - 1]);
    }
  }

  // ---------------------------------------------------------------- settings and replies

  /** The importer's settable properties. */
  datatype ImporterSettings = ImporterSettings(
    buildConfigurationId: Option<string>, projectName: Option<string>, buildConfigurationName: Option<string>,
    artifactName: Option<string>, buildNumber: Option<string>, branchName: Option<string>)

  /** The server's answers: to the build-types query, to the artifact download, and to the
      locator request for the actual build number (`None` when it holds no number). */
  datatype ImportServer = ImportServer(
    buildTypes: Reply<seq<BuildTypeElement>>, download: Reply<()>, numberReply: Reply<Option<string>>)

  /** The ID is looked up by name only when both names are set and no ID is. */
  predicate ResolvesByName(s: ImporterSettings) {
    s.buildConfigurationName.Some? && s.projectName.Some? && s.buildConfigurationId.None?
  }

  /** `SetBuildConfigurationIdFromName`: two notes, the build-types query, then the exact
      match of both names, noted when found. */
  function ResolveByName(buildTypes: Reply<seq<BuildTypeElement>>, projectName: string, name: string): Traced<string>
  {
    var asked := [Log(LogDebug), Log(LogDebug), Get(BuildTypesUrl)];
    match buildTypes
    case HttpFailure(status) => Traced(Err(Web(status)), asked)
    case Received(es) =>
      match ResolveExact(es, projectName, name)
      case Err(f) => Traced(Err(f), asked)
      case Ok(id) => Traced(Ok(id), asked + [Log(LogDebug)])
  }

  /** The ID the import works with: looked up by name when it should be, else as set. */
  function ResolveId(s: ImporterSettings, buildTypes: Reply<seq<BuildTypeElement>>): Traced<Option<string>> {
    if !ResolvesByName(s) then Traced(Ok(s.buildConfigurationId), [])
    else
      var r := ResolveByName(buildTypes, s.projectName.value, s.buildConfigurationName.value);
      match r.result
      case Err(f) => Traced(Err(f), r.effects)
      case Ok(id) => Traced(Ok(Some(id)), r.effects)
  }

  /** The build number downloaded: `lastSuccessful` when none is given. */
  function EffectiveBuildNumber(buildNumber: Option<string>): string {
    if IsNullOrEmpty(buildNumber) then LastSuccessful else buildNumber.value
  }

  function DownloadPath(buildConfigurationId: Option<string>, buildNumber: string, artifactName: Option<string>): string {
    "repository/download/" + OrEmpty(buildConfigurationId) + "/" + buildNumber + "/" + OrEmpty(artifactName)
  }

  /** The download URL, with the `branch` query when a branch name is given. */
  function DownloadUrl(buildConfigurationId: Option<string>, buildNumber: string, artifactName: Option<string>,
                       branchName: Option<string>): string
  {
    DownloadPath(buildConfigurationId, buildNumber, artifactName)
      + (if IsNullOrEmpty(branchName) then "" else "?branch=" + EscapeDataString(branchName.value))
  }

  /** An empty branch name leaves the download unrestricted, yet the build-number locator,
      which only tests for null, is still narrowed to the empty branch. */
  lemma EmptyBranchNarrowsOnlyTheLocator(buildConfigurationId: Option<string>, buildNumber: string, artifactName: Option<string>)
    ensures DownloadUrl(buildConfigurationId, buildNumber, artifactName, Some("")) == DownloadPath(buildConfigurationId, buildNumber, artifactName)
    ensures BranchCondition(Some("")) == ",branch:"
  {
    assert EscapeDataString("") == "";
  }

  /** The try/finally block: create the temporary file, download into it (a 404 is warned
      about, every failure rethrown), store it under its trimmed name with overwriting, and
      in every case remove the temporary file. */
  function Fetch(url: string, download: Reply<()>, name: Result<string>): Traced<string>
  {
    var stored := Stored(download, name);
    Traced(stored.result, [CreateTempFile, Log(LogDebug), DownloadFile(url)] + stored.effects
                          + [Log(LogDebug), DeleteTempFile])
  }

  /** What happens between the download and the clean-up: the 404 warning, or the
      storage of the downloaded file under its trimmed name. */
  function Stored(download: Reply<()>, name: Result<string>): Traced<string>
  {
    match download
    case HttpFailure(status) =>
      Traced(Err(Web(status)), if status == NotFound then [Log(LogWarning)] else [])
    case Received(_) =>
      match name
      case Err(f) => Traced(Err(f), [Log(LogInformation)])
      case Ok(n) => Traced(Ok(n), [Log(LogInformation), StoreArtifact(n, true)])
  }

  /** The temporary file is created first and removed last, once each, whatever happens in
      between. */
  lemma FetchCleansUp(url: string, download: Reply<()>, name: Result<string>)
    ensures var f := Fetch(url, download, name);
      && |f.effects| >= 5 && f.effects[0] == CreateTempFile && f.effects[2] == DownloadFile(url)
      && f.effects[|f.effects| - 1] == DeleteTempFile
      && Count(f.effects, CreateTempFile) == 1 && Count(f.effects, DeleteTempFile) == 1
  {
    var f := Fetch(url, download, name);
    var middle := Stored(download, name).effects;
    assert CreateTempFile !in middle && DeleteTempFile !in middle;
    var afterCreate := [Log(LogDebug), DownloadFile(url)] + middle + [Log(LogDebug), DeleteTempFile];
    assert f.effects == [] + [CreateTempFile] + afterCreate;
    CountOnce([], CreateTempFile, afterCreate);
    var beforeDelete := [CreateTempFile, Log(LogDebug), DownloadFile(url)] + middle + [Log(LogDebug)];
    assert f.effects == beforeDelete + [DeleteTempFile] + [];
    CountOnce(beforeDelete, DeleteTempFile, []);
  }

  /** A failed download stores nothing and is rethrown, warned about exactly when it is a
      404; a stored artifact overwrites and carries the trimmed name. */
  lemma FetchOutcomes(url: string, download: Reply<()>, name: Result<string>)
    ensures var f := Fetch(url, download, name);
      && (Log(LogWarning) in f.effects <==> download == HttpFailure(NotFound))
      && (download.HttpFailure? ==> f.result == Err(Web(download.status)) && forall e :: e in f.effects ==> !e.StoreArtifact?)
      && (f.result.Ok? ==> StoreArtifact(f.result.value, true) in f.effects)
      && (forall e :: e in f.effects && e.StoreArtifact? ==>
            e.overwrite && Ok(e.artifactName) == name)
  {
  }

  /** `GetActualBuildNumber` of the importer: a note, then the shared resolution, narrowed
      to the importer's branch name whenever it is not null. */
  function ActualBuildNumber(s: ImporterSettings, reply: Reply<Option<string>>): Traced<Option<string>> {
    var l := ResolveBuildNumber(s.buildNumber, s.buildConfigurationId, s.branchName, reply);
    Traced(l.result, [Log(LogDebug)] + l.effects)
  }

  /** The notes made before the download: the defaulted build number, the branch, the URL. */
  function Preamble(s: ImporterSettings): seq<Effect> {
    (if IsNullOrEmpty(s.buildNumber) then [Log(LogDebug)] else [])
      + (if IsNullOrEmpty(s.branchName) then [] else [Log(LogDebug)])
      + [Log(LogDebug)]
  }

  /** What `ImportAsync` did: the actual build number or an exception, the effects, and the
      properties as it left them. */
  datatype ImportRun = ImportRun(result: Result<Option<string>>, effects: seq<Effect>, settings: ImporterSettings)

  /** The properties once the ID is resolved and the build number defaulted. */
  function Resolved(s: ImporterSettings, id: Option<string>): ImporterSettings {
    s.(buildConfigurationId := id, buildNumber := Some(EffectiveBuildNumber(s.buildNumber)))
  }

  /** `ImportAsync`, as a function of the properties and the server's answers. */
  function Import(s: ImporterSettings, server: ImportServer): ImportRun
  {
    var start := [Log(LogInformation)];
    var resolved := ResolveId(s, server.buildTypes);
    match resolved.result
    case Err(f) => ImportRun(Err(f), start + resolved.effects, s)
    case Ok(id) =>
      var s1 := Resolved(s, id);
      var prepared := start + resolved.effects + Preamble(s);
      var fetched := Fetch(DownloadUrl(id, s1.buildNumber.value, s.artifactName, s.branchName), server.download, TrimWhitespaceAndZipExtension(s.artifactName));
      if fetched.result.Err? then ImportRun(Err(fetched.result.fault), prepared + fetched.effects, s1)
      else
        var actual := ActualBuildNumber(s1, server.numberReply);
        ImportRun(actual.result, prepared + fetched.effects + [Log(LogInformation)] + actual.effects, s1)
  }

  // ---------------------------------------------------------------- properties

  /** The effects before the download are status requests and notes: no temporary-file
      effect, no store and no warning. */
  lemma PreparedEffects(s: ImporterSettings, buildTypes: Reply<seq<BuildTypeElement>>)
    ensures var e := [Log(LogInformation)] + ResolveId(s, buildTypes).effects + Preamble(s);
      && RequestsAndNotes(e)
      && CreateTempFile !in e && DeleteTempFile !in e && Log(LogWarning) !in e
      && (forall x :: x in e ==> !x.StoreArtifact?)
  {
    var asked := [Log(LogDebug), Log(LogDebug), Get(BuildTypesUrl)];
    var r := ResolveId(s, buildTypes).effects;
    assert r == [] || r == asked || r == asked + [Log(LogDebug)];
    assert RequestsAndNotes(Preamble(s));
    NotesTouchNoFiles([Log(LogInformation)] + r + Preamble(s));
  }

  /** The same holds for the effects after the download. */
  lemma ClosingEffects(s: ImporterSettings, reply: Reply<Option<string>>)
    ensures var e := [Log(LogInformation)] + ActualBuildNumber(s, reply).effects;
      && RequestsAndNotes(e)
      && CreateTempFile !in e && DeleteTempFile !in e && Log(LogWarning) !in e
      && (forall x :: x in e ==> !x.StoreArtifact?)
  {
    ResolutionRequestsAndNotes(s.buildNumber, s.buildConfigurationId, s.branchName, reply);
    NotesTouchNoFiles([Log(LogInformation)] + ActualBuildNumber(s, reply).effects);
  }

  lemma NotesTouchNoFiles(t: seq<Effect>)
    requires RequestsAndNotes(t)
    ensures CreateTempFile !in t && DeleteTempFile !in t && Log(LogWarning) !in t
    ensures forall x :: x in t ==> !x.StoreArtifact?
  {
  }

  /** Once the ID is resolved the temporary file is created exactly once and removed exactly
      once, later, however the download and the storing end; before that nothing is
      created. */
  lemma {:induction false} TempFileAlwaysRemoved(s: ImporterSettings, server: ImportServer)
    ensures var run := Import(s, server);
      && Count(run.effects, CreateTempFile) == Count(run.effects, DeleteTempFile)
      && (Count(run.effects, CreateTempFile) == 1 <==> ResolveId(s, server.buildTypes).result.Ok?)
      && (Count(run.effects, CreateTempFile) == 0 <==> ResolveId(s, server.buildTypes).result.Err?)
      && (CreateTempFile in run.effects ==>
            exists i, j :: 0 <= i < j < |run.effects| && run.effects[i] == CreateTempFile && run.effects[j] == DeleteTempFile)
  {
    var run := Import(s, server);
    var resolved := ResolveId(s, server.buildTypes);
    PreparedEffects(s, server.buildTypes);
    var prepared := [Log(LogInformation)] + resolved.effects + Preamble(s);
    if resolved.result.Err? {
      assert run.effects == [Log(LogInformation)] + resolved.effects;
      assert CreateTempFile !in run.effects && DeleteTempFile !in run.effects;
      CountAbsent(run.effects, CreateTempFile);
      CountAbsent(run.effects, DeleteTempFile);
    } else {
      var id := resolved.result.value;
      var s1 := Resolved(s, id);
      var url := DownloadUrl(id, s1.buildNumber.value, s.artifactName, s.branchName);
      var fetched := Fetch(url, server.download, TrimWhitespaceAndZipExtension(s.artifactName));
      FetchCleansUp(url, server.download, TrimWhitespaceAndZipExtension(s.artifactName));
      CountAbsent(prepared, CreateTempFile);
      CountAbsent(prepared, DeleteTempFile);
      CountAppend(prepared, fetched.effects, CreateTempFile);
      CountAppend(prepared, fetched.effects, DeleteTempFile);
      var i := |prepared|;
      var j := |prepared| + |fetched.effects| - 1;
      assert (prepared + fetched.effects)[i] == CreateTempFile && (prepared + fetched.effects)[j] == DeleteTempFile;
      if fetched.result.Ok? {
        var closing := [Log(LogInformation)] + ActualBuildNumber(s1, server.numberReply).effects;
        ClosingEffects(s1, server.numberReply);
        AppendAssoc(prepared + fetched.effects, [Log(LogInformation)], ActualBuildNumber(s1, server.numberReply).effects);
        assert run.effects == (prepared + fetched.effects) + closing;
        CountAbsent(closing, CreateTempFile);
        CountAbsent(closing, DeleteTempFile);
        CountAppend(prepared + fetched.effects, closing, CreateTempFile);
        CountAppend(prepared + fetched.effects, closing, DeleteTempFile);
        assert run.effects[i] == CreateTempFile && run.effects[j] == DeleteTempFile;
      }
    }
  }

  /** A failed download ends the import with the web exception after the clean-up, and
      nothing is stored; the warning is logged exactly when the server answered 404. */
  lemma {:induction false} NotFoundWarned(s: ImporterSettings, server: ImportServer)
    requires ResolveId(s, server.buildTypes).result.Ok?
    ensures var run := Import(s, server);
      && (Log(LogWarning) in run.effects <==> server.download == HttpFailure(NotFound))
      && (server.download.HttpFailure? ==>
            && run.result == Err(Web(server.download.status))
            && run.effects[|run.effects| - 1] == DeleteTempFile
            && forall e :: e in run.effects ==> !e.StoreArtifact?)
  {
    var resolved := ResolveId(s, server.buildTypes);
    PreparedEffects(s, server.buildTypes);
    var prepared := [Log(LogInformation)] + resolved.effects + Preamble(s);
    var id := resolved.result.value;
    var s1 := Resolved(s, id);
    var url := DownloadUrl(id, s1.buildNumber.value, s.artifactName, s.branchName);
    var fetched := Fetch(url, server.download, TrimWhitespaceAndZipExtension(s.artifactName));
    FetchCleansUp(url, server.download, TrimWhitespaceAndZipExtension(s.artifactName));
    FetchOutcomes(url, server.download, TrimWhitespaceAndZipExtension(s.artifactName));
    if fetched.result.Ok? {
      ClosingEffects(s1, server.numberReply);
      AppendAssoc(prepared + fetched.effects, [Log(LogInformation)], ActualBuildNumber(s1, server.numberReply).effects);
    }
  }

  /** Without a build number the import downloads, and then resolves, `lastSuccessful`, and
      leaves that number set; a given number is kept. */
  lemma {:induction false} BuildNumberDefaulted(s: ImporterSettings, server: ImportServer)
    requires ResolveId(s, server.buildTypes).result.Ok?
    ensures var run := Import(s, server);
      var id := ResolveId(s, server.buildTypes).result.value;
      && run.settings.buildNumber == (if IsNullOrEmpty(s.buildNumber) then Some(LastSuccessful) else s.buildNumber)
      && DownloadFile(DownloadUrl(id, run.settings.buildNumber.value, s.artifactName, s.branchName)) in run.effects
      && run.settings.buildConfigurationId == id
  {
    var resolved := ResolveId(s, server.buildTypes);
    var prepared := [Log(LogInformation)] + resolved.effects + Preamble(s);
    var id := resolved.result.value;
    var s1 := Resolved(s, id);
    var url := DownloadUrl(id, s1.buildNumber.value, s.artifactName, s.branchName);
    var fetched := Fetch(url, server.download, TrimWhitespaceAndZipExtension(s.artifactName));
    assert fetched.effects[2] == DownloadFile(url);
    assert (prepared + fetched.effects)[|prepared| + 2] == DownloadFile(url);
    if fetched.result.Ok? {
      var run := Import(s, server);
      AppendAssoc(prepared + fetched.effects, [Log(LogInformation)], ActualBuildNumber(s1, server.numberReply).effects);
      assert run.effects[|prepared| + 2] == DownloadFile(url);
    }
  }

  /** The ID is looked up by name only when both names are given and no ID is: then the
      build-types query follows the opening notes, a failed lookup ends the import before
      anything is downloaded, and a found ID is the one left set; otherwise the ID is kept
      as set, with nothing asked. */
  lemma {:induction false} ResolutionOnlyByName(s: ImporterSettings, server: ImportServer)
    ensures var run := Import(s, server);
      && (!ResolvesByName(s) ==> ResolveId(s, server.buildTypes) == Traced(Ok(s.buildConfigurationId), []))
      && (ResolvesByName(s) ==> run.effects[3] == Get(BuildTypesUrl))
      && (ResolvesByName(s) && server.buildTypes.Received? ==>
            var exact := ResolveExact(server.buildTypes.body, s.projectName.value, s.buildConfigurationName.value);
            && (exact.Err? ==> run.result == Err(ExecutionFailure) && |run.effects| == 4)
            && (exact.Ok? ==> run.settings.buildConfigurationId == Some(exact.value)))
  {
    var run := Import(s, server);
    if ResolvesByName(s) {
      var resolved := ResolveId(s, server.buildTypes);
      assert resolved.effects[2] == Get(BuildTypesUrl);
      assert ([Log(LogInformation)] + resolved.effects)[3] == Get(BuildTypesUrl);
      if resolved.result.Ok? {
        var prepared := [Log(LogInformation)] + resolved.effects + Preamble(s);
        assert prepared[3] == Get(BuildTypesUrl);
        var s1 := Resolved(s, resolved.result.value);
        var url := DownloadUrl(resolved.result.value, s1.buildNumber.value, s.artifactName, s.branchName);
        var fetched := Fetch(url, server.download, TrimWhitespaceAndZipExtension(s.artifactName));
        assert (prepared + fetched.effects)[3] == Get(BuildTypesUrl);
        if fetched.result.Ok? {
          AppendAssoc(prepared + fetched.effects, [Log(LogInformation)], ActualBuildNumber(s1, server.numberReply).effects);
        }
      }
    }
  }

  /** A downloaded artifact with a name is stored under its trimmed name, overwriting, and
      the import answers the build number the shared resolution yields for the number
      downloaded and the importer's branch. */
  lemma {:induction false} ImportedArtifactStored(s: ImporterSettings, server: ImportServer)
    requires ResolveId(s, server.buildTypes).result.Ok? && server.download.Received? && s.artifactName.Some?
    ensures var run := Import(s, server);
      var id := ResolveId(s, server.buildTypes).result.value;
      && StoreArtifact(TrimWhitespaceAndZipExtension(s.artifactName).value, true) in run.effects
      && run.result == ResolveBuildNumber(Some(EffectiveBuildNumber(s.buildNumber)), id, s.branchName, server.numberReply).result
  {
    var resolved := ResolveId(s, server.buildTypes);
    var prepared := [Log(LogInformation)] + resolved.effects + Preamble(s);
    var id := resolved.result.value;
    var s1 := Resolved(s, id);
    var url := DownloadUrl(id, s1.buildNumber.value, s.artifactName, s.branchName);
    var fetched := Fetch(url, server.download, TrimWhitespaceAndZipExtension(s.artifactName));
    FetchOutcomes(url, server.download, TrimWhitespaceAndZipExtension(s.artifactName));
    var store := StoreArtifact(TrimWhitespaceAndZipExtension(s.artifactName).value, true);
    assert store in prepared + fetched.effects;
    AppendAssoc(prepared + fetched.effects, [Log(LogInformation)], ActualBuildNumber(s1, server.numberReply).effects);
  }

  /** Every artifact stored overwrites and is named by the trimmed artifact name. */
  lemma {:induction false} StoresOnlyTheTrimmedName(s: ImporterSettings, server: ImportServer)
    ensures var run := Import(s, server);
      forall e :: e in run.effects && e.StoreArtifact? ==>
        e.overwrite && Ok(e.artifactName) == TrimWhitespaceAndZipExtension(s.artifactName)
  {
    var resolved := ResolveId(s, server.buildTypes);
    PreparedEffects(s, server.buildTypes);
    if resolved.result.Ok? {
      var prepared := [Log(LogInformation)] + resolved.effects + Preamble(s);
      var id := resolved.result.value;
      var s1 := Resolved(s, id);
      var url := DownloadUrl(id, s1.buildNumber.value, s.artifactName, s.branchName);
      var fetched := Fetch(url, server.download, TrimWhitespaceAndZipExtension(s.artifactName));
      FetchOutcomes(url, server.download, TrimWhitespaceAndZipExtension(s.artifactName));
      if fetched.result.Ok? {
        ClosingEffects(s1, server.numberReply);
        AppendAssoc(prepared + fetched.effects, [Log(LogInformation)], ActualBuildNumber(s1, server.numberReply).effects);
      }
    }
  }

  // ---------------------------------------------------------------- the object

  class TeamCityArtifactImporter {
    var buildConfigurationId: Option<string>
    var projectName: Option<string>
    var buildConfigurationName: Option<string>
    var artifactName: Option<string>
    var buildNumber: Option<string>
    var branchName: Option<string>
    const connectionInfo: ConnectionInfo
    const context: BuildMasterContext
    /** Everything the importer has logged, requested, downloaded and stored so far. */
    var trace: seq<Effect>

    constructor (connectionInfo: ConnectionInfo, context: BuildMasterContext)
      requires CheckImporterArguments(Some(connectionInfo), true, Some(context)).None?
      ensures this.connectionInfo == connectionInfo && this.context == context
      ensures Settings() == ImporterSettings(None, None, None, None, None, None)
      ensures trace == []
    {
      this.connectionInfo := connectionInfo;
      this.context := context;
      buildConfigurationId := None;
      projectName := None;
      buildConfigurationName := None;
      artifactName := None;
      buildNumber := None;
      branchName := None;
      trace := [];
    }

    function Settings(): ImporterSettings
      reads this
    {
      ImporterSettings(buildConfigurationId, projectName, buildConfigurationName, artifactName, buildNumber, branchName)
    }

    /** `SetBuildConfigurationIdFromName`; called only with both names set. */
    method SetBuildConfigurationIdFromName(buildTypes: Reply<seq<BuildTypeElement>>) returns (r: Result<string>)
      requires projectName.Some? && buildConfigurationName.Some?
      modifies this`trace, this`buildConfigurationId
      ensures var spec := ResolveByName(buildTypes, projectName.value, buildConfigurationName.value);
        r == spec.result && trace == old(trace) + spec.effects
      ensures buildConfigurationId == (if r.Ok? then Some(r.value) else old(buildConfigurationId))
    {
      trace := trace + [Log(LogDebug), Log(LogDebug), Get(BuildTypesUrl)];
      match buildTypes
      case HttpFailure(status) =>
        r := Err(Web(status));
      case Received(es) =>
        r := ResolveExact(es, projectName.value, buildConfigurationName.value);
        if r.Ok? {
          buildConfigurationId := Some(r.value);
          AppendAssoc(old(trace), [Log(LogDebug), Log(LogDebug), Get(BuildTypesUrl)], [Log(LogDebug)]);
          trace := trace + [Log(LogDebug)];
        }
    }

    /** The try/finally block of `ImportAsync`. */
    method DownloadArtifactAsync(url: string, download: Reply<()>) returns (r: Result<string>)
      modifies this`trace
      ensures var f := Fetch(url, download, TrimWhitespaceAndZipExtension(artifactName));
        r == f.result && trace == old(trace) + f.effects
    {
      ghost var f := Fetch(url, download, TrimWhitespaceAndZipExtension(artifactName));
      var begun := [CreateTempFile, Log(LogDebug), DownloadFile(url)];
      var removed := [Log(LogDebug), DeleteTempFile];
      var middle: seq<Effect>;
      match download {
        case HttpFailure(status) =>
          middle := if status == NotFound then [Log(LogWarning)] else [];
          r := Err(Web(status));
        case Received(_) =>
          r := TrimWhitespaceAndZipExtension(artifactName);
          middle := if r.Ok? then [Log(LogInformation), StoreArtifact(r.value, true)] else [Log(LogInformation)];
      }
      trace := trace + begun + middle + removed;
      AppendAssoc(old(trace), begun, middle);
      AppendAssoc(old(trace), begun + middle, removed);
    }

    /** `GetActualBuildNumber`. */
    method GetActualBuildNumber(reply: Reply<Option<string>>) returns (r: Result<Option<string>>)
      modifies this`trace
      ensures var a := ActualBuildNumber(Settings(), reply);
        r == a.result && trace == old(trace) + a.effects
    {
      var l := ResolveBuildNumber(buildNumber, buildConfigurationId, branchName, reply);
      trace := trace + [Log(LogDebug)] + l.effects;
      AppendAssoc(old(trace), [Log(LogDebug)], l.effects);
      r := l.result;
    }

    /** `ImportAsync`. */
    method ImportAsync(server: ImportServer) returns (r: Result<Option<string>>)
      modifies this`trace, this`buildConfigurationId, this`buildNumber
      ensures var run := Import(old(Settings()), server);
        r == run.result && trace == old(trace) + run.effects && Settings() == run.settings
    {
      ghost var s := Settings();
      ghost var t0 := trace;
      var start := [Log(LogInformation)];
      trace := trace + start;
      ghost var resolved := ResolveId(s, server.buildTypes);
      if buildConfigurationName.Some? && projectName.Some? && buildConfigurationId.None? {
        var byName := SetBuildConfigurationIdFromName(server.buildTypes);
        AppendAssoc(t0, start, resolved.effects);
        if byName.Err? {
          r := Err(byName.fault);
          return;
        }
      }
      assert trace == t0 + (start + resolved.effects);
      assert buildConfigurationId == resolved.result.value;
      var preamble := Preamble(Settings());
      buildNumber := Some(EffectiveBuildNumber(buildNumber));
      var url := DownloadUrl(buildConfigurationId, buildNumber.value, artifactName, branchName);
      trace := trace + preamble;
      AppendAssoc(t0, start + resolved.effects, preamble);
      ghost var prepared := start + resolved.effects + preamble;
      assert Settings() == Resolved(s, resolved.result.value);
      var fetched := DownloadArtifactAsync(url, server.download);
      ghost var f := Fetch(url, server.download, TrimWhitespaceAndZipExtension(artifactName));
      AppendAssoc(t0, prepared, f.effects);
      if fetched.Err? {
        r := Err(fetched.fault);
        return;
      }
      trace := trace + [Log(LogInformation)];
      AppendAssoc(t0, prepared + f.effects, [Log(LogInformation)]);
      r := GetActualBuildNumber(server.numberReply);
      ghost var a := ActualBuildNumber(Settings(), server.numberReply);
      AppendAssoc(t0, prepared + f.effects + [Log(LogInformation)], a.effects);
    }
  }
}
