/** The `Bitbucket` client's own state: base address, API version, token and
    attached authenticator, and the transitions that change them. */
module Client {
  import opened Wrappers
  import opened Auth

  /** The default of the constructor's `version` argument. */
  const DefaultVersion := "1.0"

  /** A client. `token` and `auth` are separate fields and the code does not
      keep them in step: `Login(c, None)` clears the first and keeps the second. */
  datatype Client = Client(version: string, url: string, token: Option<string>, auth: Option<BitbucketAuth>)

  /** `"{0}/{1}".format(url or BITBUCKET_URL, version)`: a missing or empty
      address falls back to the configured one. */
  function BaseUrl(url: Option<string>, configured: string, version: string): (r: string)
    ensures url.Some? && url.value != "" ==> r == url.value + "/" + version
    ensures url.None? || url.value == "" ==> r == configured + "/" + version
  {
    var base := if url.Some? && url.value != "" then url.value else configured;
    base + "/" + version
  }

  /** `logged_in`: whether a token is stored. */
  function LoggedIn(c: Client): (r: bool)
    ensures r <==> c.token != None
  {
    c.token.Some?
  }

  /** `logged_in` is decided by the token alone, whatever authenticator is
      attached. */
  lemma LoggedInIgnoresAuth(c: Client, a: Option<BitbucketAuth>)
    ensures LoggedIn(c.(auth := a)) == LoggedIn(c)
  {
  }

  /** `login(token)`: the token is stored first; only a present token also
      attaches a fresh authenticator, whose token is then stored again. */
  function Login(c: Client, token: Option<string>): (r: Client)
    ensures r.version == c.version && r.url == c.url
    ensures r.token == token
    ensures LoggedIn(r) <==> token.Some?
    ensures token.Some? ==> r.auth == Some(BitbucketAuth(token.value))
    ensures token.None? ==> r.auth == c.auth
  {
    var stored := c.(token := token);
    if token.None? then stored
    else
      var a := NewAuth(token).value;
      stored.(auth := Some(a), token := Some(a.token))
  }

  /** Constructing `Bitbucket(token, url, version)`: no token and no
      authenticator, then `login(token)`. `configured` is `BITBUCKET_URL`. */
  function NewClient(token: Option<string>, url: Option<string>, version: string, configured: string): (c: Client)
    ensures c.version == version && c.url == BaseUrl(url, configured, version)
    ensures c.token == token
    ensures c.auth == if token.Some? then Some(BitbucketAuth(token.value)) else None
  {
    Login(Client(version, BaseUrl(url, configured, version), None, None), token)
  }

  /** `Bitbucket(token, url)`: the constructor with `version` left at its
      default `"1.0"`. */
  function NewDefaultClient(token: Option<string>, url: Option<string>, configured: string): (c: Client)
    ensures c.version == DefaultVersion && c.url == BaseUrl(url, configured, DefaultVersion)
    ensures c.token == token
    ensures c.auth == if token.Some? then Some(BitbucketAuth(token.value)) else None
  {
    NewClient(token, url, DefaultVersion, configured)
  }

  /** The `token` property setter: replaces the token and nothing else. */
  function SetToken(c: Client, value: Option<string>): (r: Client)
    ensures r.token == value && r.auth == c.auth
    ensures r.url == c.url && r.version == c.version
    ensures LoggedIn(r) <==> value.Some?
  {
    c.(token := value)
  }

  /** `_api_url(path)`: the client's address, the path, and a trailing slash. */
  function ApiUrl(c: Client, path: string): (r: string)
    ensures |r| == |c.url| + |path| + 2
    ensures r[..|c.url|] == c.url && r[|c.url|] == '/' && r[|r| - 1] == '/'
    ensures r[|c.url| + 1..|r| - 1] == path
  {
    c.url + "/" + path + "/"
  }

  /** Logging in is idempotent, and a later login with a token wins outright. */
  lemma LoginLastTokenWins(c: Client, t: Option<string>, u: string)
    ensures Login(Login(c, t), t) == Login(c, t)
    ensures Login(Login(c, t), Some(u)) == Login(c, Some(u))
  {
  }

  /** Logging in with `None` after a token leaves the client logged out yet
      still holding the old authenticator, so the statement "logged in exactly
      when an authenticator is attached" does not hold of the code. */
  lemma LogoutKeepsAuth(c: Client, t: string)
    ensures var r := Login(Login(c, Some(t)), None);
      !LoggedIn(r) && r.auth == Some(BitbucketAuth(t))
  {
  }

  /** A client is logged in exactly when an authenticator is attached while
      only construction and logins with a token have happened. */
  lemma FreshClientConsistent(token: Option<string>, url: Option<string>, version: string, configured: string, t: string)
    ensures var c := NewClient(token, url, version, configured);
      (LoggedIn(c) <==> c.auth.Some?) && LoggedIn(Login(c, Some(t))) && Login(c, Some(t)).auth.Some?
  {
  }
}
