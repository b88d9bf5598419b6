/**
 * The token cache (`TokenManager`): one nullable string, filled lazily by an
 * authentication call, never expired, cleared only by `InvalidateToken`.
 */
module TokenManager {
  import opened Wrappers
  import opened JavaText
  import opened Server

  /** Username and password read from the configuration; opaque to the core. */
  datatype Credentials = Credentials(username: string, password: string)

  function AuthRequest(cred: Credentials): Request {
    Authenticate(cred.username, cred.password)
  }

  const GenerateFailurePrefix := "Failed to generate token. Status code: "

  /**
   * `generateToken`: one authentication call. On 200 the reply's `token`
   * field is returned, null included; any other status throws, and the
   * message ends with that status in decimal. The cache is not touched.
   */
  function GenerateToken(service: Service, cred: Credentials, s: Session): (r: Outcome<Option<string>>)
    ensures r.session == s.(sent := s.sent + [AuthRequest(cred)])
    ensures var reply := service(|s.sent|, AuthRequest(cred));
            && (r.Done? <==> reply.status == 200)
            && (r.Done? ==> r.value == TokenField(reply))
            && (r.Thrown? ==> && GenerateFailurePrefix <= r.message
                              && ParseInt(r.message[|GenerateFailurePrefix|..]) == Some(reply.status))
  {
    var (reply, s') := Send(service, s, AuthRequest(cred));
    if reply.status == 200 then
      Done(TokenField(reply), s')
    else
      IntToStringRoundTrip(reply.status);
      assert (GenerateFailurePrefix + IntToString(reply.status))[|GenerateFailurePrefix|..] == IntToString(reply.status);
      Thrown(GenerateFailurePrefix + IntToString(reply.status), s')
  }

  /**
   * `getToken`: a cached token is handed back with no call; otherwise one
   * authentication call is made and its result is both stored and returned.
   * If that call throws, the assignment never happens and the cache stays null.
   */
  function GetToken(service: Service, cred: Credentials, s: Session): (r: Outcome<Option<string>>)
    ensures s.cache.Some? ==> r == Done(s.cache, s)
    ensures s.cache.None? ==> r.session.sent == s.sent + [AuthRequest(cred)]
    ensures s.cache.None? && r.Done? ==> r.value == TokenField(service(|s.sent|, AuthRequest(cred)))
    ensures s.cache.None? && r.Thrown? ==> service(|s.sent|, AuthRequest(cred)).status != 200
    ensures r.Done? ==> r.session.cache == r.value
    ensures r.Thrown? ==> r.session.cache == None
  {
    if s.cache.Some? then
      Done(s.cache, s)
    else
      match GenerateToken(service, cred, s)
      case Done(t, s') => Done(t, s'.(cache := t))
      case Thrown(m, s') => Thrown(m, s')
  }

  /** `invalidateToken`: the cache becomes null; nothing is sent. */
  function InvalidateToken(s: Session): (r: Session)
    ensures r.cache.None? && r.sent == s.sent
  {
    s.(cache := None)
  }

  /**
   * `generateTokenResponse`: one authentication call with the given
   * credentials, bypassing the cache, whose raw reply is returned.
   */
  function GenerateTokenResponse(service: Service, username: string, password: string, s: Session): (r: (Response, Session))
    ensures r.0 == service(|s.sent|, Authenticate(username, password))
    ensures r.1.cache == s.cache
    ensures r.1.sent == s.sent + [Authenticate(username, password)]
  {
    Send(service, s, Authenticate(username, password))
  }

  /** Once a non-null token is cached, asking again returns the same value and sends nothing. */
  lemma GetTokenIsStable(service: Service, cred: Credentials, s: Session)
    requires GetToken(service, cred, s).Done? && GetToken(service, cred, s).value.Some?
    ensures var r1 := GetToken(service, cred, s);
            GetToken(service, cred, r1.session) == Done(r1.value, r1.session)
  {
  }

  /**
   * A 200 reply without a `token` field stores null, so the next request for
   * a token authenticates again.
   */
  lemma NullTokenIsFetchedAgain(service: Service, cred: Credentials, s: Session)
    requires s.cache.None?
    requires service(|s.sent|, AuthRequest(cred)).status == 200
    requires TokenField(service(|s.sent|, AuthRequest(cred))).None?
    ensures var r1 := GetToken(service, cred, s);
            && r1 == Done(None, Session(None, s.sent + [AuthRequest(cred)]))
            && GetToken(service, cred, r1.session).session.sent == s.sent + [AuthRequest(cred), AuthRequest(cred)]
  {
  }

  /** Invalidating and then asking for a token makes exactly one authentication call, whatever was cached. */
  lemma InvalidateThenGetAuthenticatesOnce(service: Service, cred: Credentials, s: Session)
    ensures var r := GetToken(service, cred, InvalidateToken(s));
            && s.sent <= r.session.sent
            && Added(s, r.session) == [AuthRequest(cred)]
            && AuthenticationCalls(Added(s, r.session)) == 1
  {
    var r := GetToken(service, cred, InvalidateToken(s));
    assert Added(s, r.session) == [AuthRequest(cred)];
  }

  /** A failed authentication throws and leaves the cache null, so nothing stale can be returned later. */
  lemma FailedAuthenticationLeavesCacheEmpty(service: Service, cred: Credentials, s: Session)
    requires s.cache.None?
    requires service(|s.sent|, AuthRequest(cred)).status != 200
    ensures GetToken(service, cred, s).Thrown?
    ensures GetToken(service, cred, s).session.cache.None?
    ensures GetToken(service, cred, GetToken(service, cred, s).session).session.sent
            == s.sent + [AuthRequest(cred), AuthRequest(cred)]
  {
  }
}
