/** The state `TeamCityWebClient` keeps: the base address every relative request is
    resolved against, the credential cache installed for an authenticated user, and the
    content type it stamps on POST requests. */
module WebClient {
  import opened Common
  import opened Text
  import opened Connection

  /** One `CredentialCache` entry: the URI prefix, the authentication scheme and the
      `NetworkCredential`. */
  datatype CredentialEntry = CredentialEntry(uriPrefix: string, authType: string, userName: string, password: Option<string>)

  const BasicScheme: string := "Basic"
  const XmlContentType: string := "application/xml"

  /** The credentials the constructor installs: none for anonymous access, else one Basic
      entry for the API URL. */
  function CredentialsFor(ci: ConnectionInfo): Option<CredentialEntry> {
    if IsNullOrEmpty(ci.userName) then None
    else Some(CredentialEntry(ApiUrl(ci), BasicScheme, ci.userName.value, ci.password))
  }

  /** Credentials are installed exactly when the API URL goes through `httpAuth`, and they
      are Basic credentials of the configured user scoped to that same URL (so that they
      follow the server's redirects below it). */
  lemma CredentialsMatchAuthSegment(ci: ConnectionInfo)
    ensures CredentialsFor(ci).Some? <==> EndsWith(ApiUrl(ci), "/httpAuth/")
    ensures CredentialsFor(ci).None? <==> EndsWith(ApiUrl(ci), "/guestAuth/")
    ensures CredentialsFor(ci).Some? ==>
      && CredentialsFor(ci).value.uriPrefix == ApiUrl(ci)
      && CredentialsFor(ci).value.authType == BasicScheme
      && Some(CredentialsFor(ci).value.userName) == ci.userName
      && CredentialsFor(ci).value.password == ci.password
  {
    GuestExactlyWithoutUser(ci);
  }

  /** A request the client is about to send. */
  class WebRequest {
    var httpMethod: string
    var contentType: Option<string>

    constructor (httpMethod: string)
      ensures this.httpMethod == httpMethod && contentType.None?
    {
      this.httpMethod := httpMethod;
      contentType := None;
    }
  }

  class TeamCityWebClient {
    var baseAddress: string
    var credentials: Option<CredentialEntry>

    /** The constructor: the base address is the API URL, and credentials are installed only
        for a non-empty user name. */
    constructor (ci: ConnectionInfo)
      ensures baseAddress == ApiUrl(ci)
      ensures credentials == CredentialsFor(ci)
    {
      baseAddress := ApiUrl(ci);
      credentials := CredentialsFor(ci);
    }

    /** `GetWebRequest`: a POST request carries an XML body; other requests are left as
        they were. */
    method GetWebRequest(request: WebRequest)
      modifies request
      ensures request.httpMethod == old(request.httpMethod)
      ensures request.contentType == (if request.httpMethod == "POST" then Some(XmlContentType) else old(request.contentType))
    {
      if request.httpMethod == "POST" {
        request.contentType := Some(XmlContentType);
      }
    }
  }
}
