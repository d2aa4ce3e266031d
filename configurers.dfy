/** The two revisions of `TeamCityConfigurer`: the current one (server URL, user name,
    password, `BaseUrl`, an empty `ToString`) and the legacy one, which also carries a
    default branch, exposes itself as an `ITeamCityConnectionInfo`, and selects a stored
    profile in `GetConfigurer`. */
module Configurers {
  import opened Common
  import opened Text
  import opened Connection

  /** TeamCityConfigurer.cs. */
  datatype TeamCityConfigurer = TeamCityConfigurer(serverUrl: string, username: Option<string>, password: Option<string>)
  {
    function BaseUrl(): string {
      AuthenticatedUrl(serverUrl, username)
    }

    /** `ToString` describes nothing. */
    function ToString(): (r: string)
      ensures r == ""
    {
      ""
    }
  }

  /** The base URL of a configurer is the API URL of the same server and user. */
  lemma BaseUrlIsApiUrl(c: TeamCityConfigurer)
    ensures c.BaseUrl() == ApiUrl(ConnectionInfo(c.serverUrl, c.username, c.password))
  {
  }

  /** Legacy/TeamCityConfigurer.cs. */
  datatype LegacyTeamCityConfigurer = LegacyTeamCityConfigurer(
    serverUrl: string, username: Option<string>, password: Option<string>, defaultBranchName: Option<string>)
  {
    function BaseUrl(): string {
      AuthenticatedUrl(serverUrl, username)
    }

    /** The configurer seen as an `ITeamCityConnectionInfo`: `UserName` is `Username`. */
    function AsConnectionInfo(): (ci: ConnectionInfo)
      ensures ci.serverUrl == serverUrl && ci.userName == username && ci.password == password
    {
      ConnectionInfo(serverUrl, username, password)
    }
  }

  /** The legacy base URL equals `GetApiUrl` of the configurer's own connection view,
      and the default branch plays no part in it. */
  lemma LegacyBaseUrlIsApiUrl(c: LegacyTeamCityConfigurer)
    ensures c.BaseUrl() == ApiUrl(c.AsConnectionInfo())
    ensures c.BaseUrl() == c.(defaultBranchName := None).BaseUrl()
  {
  }

  /** `GetBranchName`, which the trigger action (both revisions), the legacy artifact action
      and the build importer carry in identical copies: the explicit branch when it is
      neither null nor empty, else the configurer's default branch on the same terms, else
      null. */
  function GetBranchName(branchName: Option<string>, configurer: LegacyTeamCityConfigurer): (r: Option<string>)
    ensures r.Some? <==> !IsNullOrEmpty(branchName) || !IsNullOrEmpty(configurer.defaultBranchName)
    ensures r.Some? ==> r.value != "" && (r == branchName || r == configurer.defaultBranchName)
    ensures !IsNullOrEmpty(branchName) ==> r == branchName
  {
    if !IsNullOrEmpty(branchName) then branchName
    else if !IsNullOrEmpty(configurer.defaultBranchName) then configurer.defaultBranchName
    else None
  }

  /** One row of `ExtensionConfiguration_GetConfigurations`, already deserialized. */
  datatype ProfileRecord = ProfileRecord(
    configurationId: int, profileName: Option<string>, isDefault: bool, configuration: LegacyTeamCityConfigurer)

  /** The first query of `GetConfigurer`: the profile has the requested ID, or its name
      equals the requested name ignoring case (two null names are equal). */
  predicate Selects(p: ProfileRecord, profileName: Option<string>, configurerId: Option<int>) {
    (configurerId.Some? && p.configurationId == configurerId.value) || EqualsIgnoreCase(profileName, p.profileName)
  }

  /** Index of the first selected profile at or after `from`. */
  function FirstSelected(profiles: seq<ProfileRecord>, profileName: Option<string>, configurerId: Option<int>, from: nat): (r: Option<nat>)
    requires from <= |profiles|
    ensures r.Some? ==> from <= r.value < |profiles| && Selects(profiles[r.value], profileName, configurerId)
    ensures r.Some? ==> forall j :: from <= j < r.value ==> !Selects(profiles[j], profileName, configurerId)
    ensures r.None? ==> forall j :: from <= j < |profiles| ==> !Selects(profiles[j], profileName, configurerId)
    decreases |profiles| - from
  {
    if from == |profiles| then None
    else if Selects(profiles[from], profileName, configurerId) then Some(from)
    else FirstSelected(profiles, profileName, configurerId, from + 1)
  }

  /** Index of the first default profile at or after `from`. */
  function FirstDefault(profiles: seq<ProfileRecord>, from: nat): (r: Option<nat>)
    requires from <= |profiles|
    ensures r.Some? ==> from <= r.value < |profiles| && profiles[r.value].isDefault
    ensures r.Some? ==> forall j :: from <= j < r.value ==> !profiles[j].isDefault
    ensures r.None? ==> forall j :: from <= j < |profiles| ==> !profiles[j].isDefault
    decreases |profiles| - from
  {
    if from == |profiles| then None
    else if profiles[from].isDefault then Some(from)
    else FirstDefault(profiles, from + 1)
  }

  /** `GetConfigurer` over the stored profiles: the first profile matching the ID or the
      name, else the first default profile, else null. */
  function GetConfigurer(profiles: seq<ProfileRecord>, profileName: Option<string>, configurerId: Option<int>): (r: Option<LegacyTeamCityConfigurer>)
    ensures forall i :: (0 <= i < |profiles| && Selects(profiles[i], profileName, configurerId)
                         && (forall j :: 0 <= j < i ==> !Selects(profiles[j], profileName, configurerId)))
                         ==> r == Some(profiles[i].configuration)
    ensures (forall j :: 0 <= j < |profiles| ==> !Selects(profiles[j], profileName, configurerId)) ==>
              forall i :: (0 <= i < |profiles| && profiles[i].isDefault && (forall j :: 0 <= j < i ==> !profiles[j].isDefault))
                          ==> r == Some(profiles[i].configuration)
    ensures r.None? <==> forall j :: 0 <= j < |profiles| ==> !Selects(profiles[j], profileName, configurerId) && !profiles[j].isDefault
  {
    match FirstSelected(profiles, profileName, configurerId, 0)
    case Some(i) => Some(profiles[i].configuration)
    case None =>
      match FirstDefault(profiles, 0)
      case Some(i) => Some(profiles[i].configuration)
      case None => None
  }
}
