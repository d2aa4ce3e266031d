/** `ITeamCityConnectionInfo` and its `GetApiUrl` extension: the API base URL is the
    server URL without trailing slashes, followed by `guestAuth/` for anonymous access
    or `httpAuth/` when a user name is configured. */
module Connection {
  import opened Common
  import opened Text

  /** The connection settings. The server URL is taken to be non-null (see `ApiUrl`). */
  datatype ConnectionInfo = ConnectionInfo(serverUrl: string, userName: Option<string>, password: Option<string>)

  const GuestSegment: string := "guestAuth"
  const HttpSegment: string := "httpAuth"

  /** The authentication path segment chosen by the user name. */
  function AuthSegment(userName: Option<string>): string {
    if IsNullOrEmpty(userName) then GuestSegment else HttpSegment
  }

  /** `{serverUrl.TrimEnd('/')}/{guestAuth|httpAuth}/`, the expression shared by
      `GetApiUrl` and both revisions of `TeamCityConfigurer.BaseUrl`. */
  function AuthenticatedUrl(serverUrl: string, userName: Option<string>): string {
    TrimEnd(serverUrl, '/') + "/" + AuthSegment(userName) + "/"
  }

  /** `GetApiUrl`. */
  function ApiUrl(ci: ConnectionInfo): string {
    AuthenticatedUrl(ci.serverUrl, ci.userName)
  }

  /** The URL is the server URL cut before its trailing slashes, then the segment:
      the host part is a prefix of the server URL that does not end in `/`, and
      everything of the server URL after it is slashes. */
  lemma ApiUrlShape(ci: ConnectionInfo)
    ensures var r := ApiUrl(ci);
      var seg := AuthSegment(ci.userName);
      var host := r[..|r| - |seg| - 2];
      && EndsWith(r, "/" + seg + "/")
      && |host| <= |ci.serverUrl| && host == ci.serverUrl[..|host|]
      && (host == [] || host[|host| - 1] != '/')
      && (forall i :: |host| <= i < |ci.serverUrl| ==> ci.serverUrl[i] == '/')
  {
    var r := ApiUrl(ci);
    var seg := AuthSegment(ci.userName);
    var t := TrimEnd(ci.serverUrl, '/');
    assert r == t + ("/" + seg + "/");
    assert r[..|r| - |seg| - 2] == t;
  }

  /** Each segment's URL ends in that segment and not in the other one. */
  lemma SegmentSuffixes(t: string)
    ensures EndsWith(t + "/guestAuth/", "/guestAuth/") && !EndsWith(t + "/guestAuth/", "/httpAuth/")
    ensures EndsWith(t + "/httpAuth/", "/httpAuth/") && !EndsWith(t + "/httpAuth/", "/guestAuth/")
  {
    var g := t + "/guestAuth/";
    var h := t + "/httpAuth/";
    EndsWithAppend(t, "/guestAuth/", "/guestAuth/");
    EndsWithAppend(t, "/httpAuth/", "/httpAuth/");
    assert g[|g| - 10] == 'g';
    assert h[|h| - 10] == '/';
  }

  /** The segment is `guestAuth` exactly when the user name is null or empty. */
  lemma {:induction false} GuestExactlyWithoutUser(ci: ConnectionInfo)
    ensures EndsWith(ApiUrl(ci), "/guestAuth/") <==> IsNullOrEmpty(ci.userName)
    ensures EndsWith(ApiUrl(ci), "/httpAuth/") <==> !IsNullOrEmpty(ci.userName)
  {
    var t := TrimEnd(ci.serverUrl, '/');
    if IsNullOrEmpty(ci.userName) {
      assert ApiUrl(ci) == t + "/guestAuth/";
      SegmentSuffixes(t);
    } else {
      assert ApiUrl(ci) == t + "/httpAuth/";
      SegmentSuffixes(t);
    }
  }

  /** Trailing slashes on the server URL do not change the API URL. */
  lemma TrailingSlashesIgnored(serverUrl: string, userName: Option<string>, password: Option<string>, n: nat)
    ensures ApiUrl(ConnectionInfo(serverUrl + Repeat('/', n), userName, password))
         == ApiUrl(ConnectionInfo(serverUrl, userName, password))
  {
    TrimEndIgnoresAppended(serverUrl, '/', n);
  }

  /** The password never reaches the URL. */
  lemma PasswordIgnored(ci: ConnectionInfo, otherPassword: Option<string>)
    ensures ApiUrl(ci.(password := otherPassword)) == ApiUrl(ci)
  {
  }
}
