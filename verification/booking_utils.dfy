/**
 * Booking requests (`BookingUtils`): resource paths, the default booking, the
 * update and delete wrappers that retry once after a 403, and the variants
 * that send exactly once with a caller-supplied token.
 */
module BookingUtils {
  import opened Wrappers
  import opened JavaText
  import opened Server
  import opened TokenManager
  import opened BookingPayloads

  const BookingResourcePath := "/booking"

  /** `bookingResourcePath + "/" + bookingId`. */
  function ResourcePath(bookingId: string): string {
    BookingResourcePath + "/" + bookingId
  }

  /** The booking id a resource path names, if it is a booking path at all. */
  function BookingIdOf(path: string): Option<string> {
    if "/booking/" <= path then Some(path[9..]) else None
  }

  /** Every id, the empty one included, lands after `/booking/` and can be read back. */
  lemma ResourcePathRoundTrip(bookingId: string)
    ensures ResourcePath(bookingId) == "/booking/" + bookingId
    ensures BookingIdOf(ResourcePath(bookingId)) == Some(bookingId)
  {
    assert ResourcePath(bookingId) == "/booking/" + bookingId;
    assert ("/booking/" + bookingId)[..9] == "/booking/";
    assert ("/booking/" + bookingId)[9..] == bookingId;
  }

  /** An `int` id is written in decimal, so the path still determines it. */
  lemma IntResourcePathRoundTrip(bookingId: int)
    ensures var id := BookingIdOf(ResourcePath(IntToString(bookingId)));
            id.Some? && ParseInt(id.value) == Some(bookingId)
  {
    ResourcePathRoundTrip(IntToString(bookingId));
    IntToStringRoundTrip(bookingId);
  }

  /* ---------------------------------------------------------------------
   * The authenticated operations and the single retry.
   * --------------------------------------------------------------------- */

  /** What an authenticated call sends apart from the token: `sendUpdateRequest` or `sendDeleteRequest`. */
  datatype Operation = UpdateOp(path: string, payload: string) | DeleteOp(path: string)

  function WithToken(op: Operation, token: Option<string>): Request {
    match op
    case UpdateOp(path, payload) => Update(path, token, Some(payload))
    case DeleteOp(path) => Delete(path, token)
  }

  /** The operation a request carries, forgetting its token. */
  function OperationOf(req: Request): Option<Operation> {
    match req
    case Update(path, _, Some(payload)) => Some(UpdateOp(path, payload))
    case Delete(path, _) => Some(DeleteOp(path))
    case _ => None
  }

  /** Attaching a token changes nothing else: the operation and the token are both recoverable. */
  lemma WithTokenRoundTrip(op: Operation, token: Option<string>)
    ensures OperationOf(WithToken(op, token)) == Some(op)
    ensures WithToken(op, token).token == token
  {
  }

  /**
   * The retry shared by `updateSpecificBooking`, `deleteTestBookingId` and
   * `updateEmptyBookingId`: send with `token`; on 403 clear the cache, fetch a
   * token (which may throw) and send the same operation once more, returning
   * that second reply whatever its status. No other status is retried.
   */
  function SendWithRetry(service: Service, cred: Credentials, s: Session, op: Operation, token: Option<string>): (r: Outcome<Response>)
    ensures s.sent + [WithToken(op, token)] <= r.session.sent
    ensures var first := service(|s.sent|, WithToken(op, token));
            first.status != 403 ==> r == Done(first, s.(sent := s.sent + [WithToken(op, token)]))
    ensures var first := service(|s.sent|, WithToken(op, token));
            var auth := service(|s.sent| + 1, AuthRequest(cred));
            first.status == 403 ==>
              && (r.Thrown? <==> auth.status != 200)
              && (r.Thrown? ==> Added(s, r.session) == [WithToken(op, token), AuthRequest(cred)]
                                && r.session.cache.None?)
              && (r.Done? ==> && r.session.cache == TokenField(auth)
                              && Added(s, r.session) == [WithToken(op, token), AuthRequest(cred), WithToken(op, TokenField(auth))]
                              && r.value == service(|s.sent| + 2, WithToken(op, TokenField(auth))))
    ensures r.Done? ==> && AnswersLast(service, r.session, r.value)
                        && (LastSent(r.session) == WithToken(op, token) || LastSent(r.session) == WithToken(op, r.session.cache))
    ensures r.Done? && LastSent(r.session) != WithToken(op, token) ==> r.session.cache == TokenField(service(|s.sent| + 1, AuthRequest(cred)))
    ensures r.Thrown? ==> r.session.cache.None?
  {
    var (first, s1) := Send(service, s, WithToken(op, token));
    if first.status != 403 then
      Done(first, s1)
    else
      match GetToken(service, cred, InvalidateToken(s1))
      case Thrown(m, s2) => Thrown(m, s2)
      case Done(renewed, s2) =>
        var sent := Send(service, s2, WithToken(op, renewed));
        Done(sent.0, sent.1)
  }

  /** The last request of a non-empty run. */
  function LastSent(s: Session): Request
    requires |s.sent| > 0
  {
    s.sent[|s.sent| - 1]
  }

  /** `reply` is the service's answer to the last request of the run. */
  predicate AnswersLast(service: Service, s: Session, reply: Response) {
    |s.sent| > 0 && reply == service(|s.sent| - 1, LastSent(s))
  }

  /**
   * The cached token is fetched first (an authentication failure throws
   * before any booking request is sent), then the retry runs. A returned
   * reply answers the last request, which carries the token now cached.
   */
  function WithCachedToken(service: Service, cred: Credentials, s: Session, op: Operation): (r: Outcome<Response>)
    ensures s.sent <= r.session.sent
    ensures s.cache.Some? ==> s.sent + [WithToken(op, s.cache)] <= r.session.sent
    ensures s.cache.None? ==> s.sent + [AuthRequest(cred)] <= r.session.sent
    ensures s.cache.None? && service(|s.sent|, AuthRequest(cred)).status != 200 ==>
              r.Thrown? && Added(s, r.session) == [AuthRequest(cred)]
    ensures r.Done? ==> AnswersLast(service, r.session, r.value) && LastSent(r.session) == WithToken(op, r.session.cache)
    ensures r.Thrown? ==> r.session.cache.None?
  {
    match GetToken(service, cred, s)
    case Thrown(m, s1) => Thrown(m, s1)
    case Done(token, s1) => SendWithRetry(service, cred, s1, op, token)
  }

  /** `updateSpecificBooking`: PUT the templated payload to `/booking/<id>` with the cached token, one retry on 403. */
  function UpdateSpecificBooking(service: Service, cred: Credentials, s: Session, bookingId: int, b: BookingRequest): (r: Outcome<Response>)
    ensures s.cache.Some? ==> s.sent + [Update("/booking/" + IntToString(bookingId), s.cache, Some(CreateBookingPayload(b)))] <= r.session.sent
    ensures r.Done? ==> && AnswersLast(service, r.session, r.value)
                        && LastSent(r.session) == Update("/booking/" + IntToString(bookingId), r.session.cache, Some(CreateBookingPayload(b)))
    ensures r.Thrown? ==> r.session.cache.None?
  {
    ResourcePathRoundTrip(IntToString(bookingId));
    WithCachedToken(service, cred, s, UpdateOp(ResourcePath(IntToString(bookingId)), CreateBookingPayload(b)))
  }

  /** `deleteTestBookingId(String, String)`: delete with the caller's token, one retry on 403. */
  function DeleteTestBookingIdWith(service: Service, cred: Credentials, s: Session, bookingId: string, token: Option<string>): (r: Outcome<Response>)
    ensures s.sent + [Delete("/booking/" + bookingId, token)] <= r.session.sent
    ensures r.Done? ==> && AnswersLast(service, r.session, r.value)
                        && (LastSent(r.session) == Delete("/booking/" + bookingId, token)
                            || LastSent(r.session) == Delete("/booking/" + bookingId, r.session.cache))
    ensures r.Thrown? ==> r.session.cache.None?
  {
    ResourcePathRoundTrip(bookingId);
    SendWithRetry(service, cred, s, DeleteOp(ResourcePath(bookingId)), token)
  }

  /** `deleteTestBookingId(String)` and `deleteTestBookingId(int)`: the same, with the cached token. */
  function DeleteTestBookingId(service: Service, cred: Credentials, s: Session, bookingId: string): (r: Outcome<Response>)
    ensures s.cache.Some? ==> s.sent + [Delete("/booking/" + bookingId, s.cache)] <= r.session.sent
    ensures r.Done? ==> && AnswersLast(service, r.session, r.value)
                        && LastSent(r.session) == Delete("/booking/" + bookingId, r.session.cache)
    ensures r.Thrown? ==> r.session.cache.None?
  {
    ResourcePathRoundTrip(bookingId);
    WithCachedToken(service, cred, s, DeleteOp(ResourcePath(bookingId)))
  }

  /** `updateEmptyBookingId(String, String)`: update with the invalid-booking payload and the caller's token. */
  function UpdateEmptyBookingIdWith(service: Service, cred: Credentials, s: Session, bookingId: string, token: Option<string>, invalidPayload: string): (r: Outcome<Response>)
    ensures s.sent + [Update("/booking/" + bookingId, token, Some(invalidPayload))] <= r.session.sent
    ensures r.Done? ==> && AnswersLast(service, r.session, r.value)
                        && (LastSent(r.session) == Update("/booking/" + bookingId, token, Some(invalidPayload))
                            || LastSent(r.session) == Update("/booking/" + bookingId, r.session.cache, Some(invalidPayload)))
    ensures r.Thrown? ==> r.session.cache.None?
  {
    ResourcePathRoundTrip(bookingId);
    SendWithRetry(service, cred, s, UpdateOp(ResourcePath(bookingId), invalidPayload), token)
  }

  /** `updateEmptyBookingId(String)` and `updateInvalidBookingId`: the same, with the cached token. */
  function UpdateEmptyBookingId(service: Service, cred: Credentials, s: Session, bookingId: string, invalidPayload: string): (r: Outcome<Response>)
    ensures s.cache.Some? ==> s.sent + [Update("/booking/" + bookingId, s.cache, Some(invalidPayload))] <= r.session.sent
    ensures r.Done? ==> && AnswersLast(service, r.session, r.value)
                        && LastSent(r.session) == Update("/booking/" + bookingId, r.session.cache, Some(invalidPayload))
    ensures r.Thrown? ==> r.session.cache.None?
  {
    ResourcePathRoundTrip(bookingId);
    WithCachedToken(service, cred, s, UpdateOp(ResourcePath(bookingId), invalidPayload))
  }

  /** `UpdateBookingWithNoAuthTest`: one PUT without a body, with the given token, and nothing else. */
  function UpdateBookingWithNoAuth(service: Service, s: Session, bookingId: int, token: Option<string>): (r: (Response, Session))
    ensures r.1.cache == s.cache
    ensures r.1.sent == s.sent + [Update(ResourcePath(IntToString(bookingId)), token, None)]
    ensures r.0 == service(|s.sent|, Update(ResourcePath(IntToString(bookingId)), token, None))
  {
    Send(service, s, Update(ResourcePath(IntToString(bookingId)), token, None))
  }

  /** `deleteBookingWithNoAuthTest`: one DELETE with the given token, and nothing else. */
  function DeleteBookingWithNoAuth(service: Service, s: Session, bookingId: int, token: Option<string>): (r: (Response, Session))
    ensures r.1.cache == s.cache
    ensures r.1.sent == s.sent + [Delete(ResourcePath(IntToString(bookingId)), token)]
    ensures r.0 == service(|s.sent|, Delete(ResourcePath(IntToString(bookingId)), token))
  {
    Send(service, s, Delete(ResourcePath(IntToString(bookingId)), token))
  }

  /** The fixed fields of `createTestBooking(firstName, lastName)`. */
  function TestBooking(firstName: Option<string>, lastName: Option<string>): BookingRequest {
    BookingRequest(firstName, lastName, 111, true, Some("2023-01-01"), Some("2023-01-02"), Some("Breakfast"))
  }

  /** `createTestBooking(firstName, lastName)`: one unauthenticated POST of the templated booking. */
  function CreateTestBooking(service: Service, s: Session, firstName: Option<string>, lastName: Option<string>): (r: (Response, Session))
    ensures r.1.cache == s.cache
    ensures |r.1.sent| == |s.sent| + 1 && r.1.sent[..|s.sent|] == s.sent
    ensures r.1.sent[|s.sent|].Create? && r.1.sent[|s.sent|].path == "/booking"
    ensures r.0 == service(|s.sent|, r.1.sent[|s.sent|])
  {
    Send(service, s, Create(BookingResourcePath, CreateBookingPayload(TestBooking(firstName, lastName))))
  }

  /** `createTestBooking()`: the default booking for Jim Brown. */
  function CreateDefaultTestBooking(service: Service, s: Session): (r: (Response, Session))
    ensures r.1.cache == s.cache
    ensures |r.1.sent| == |s.sent| + 1 && r.1.sent[..|s.sent|] == s.sent
    ensures r.1.sent[|s.sent|].Create? && r.1.sent[|s.sent|].path == "/booking"
    ensures r.0 == service(|s.sent|, r.1.sent[|s.sent|])
  {
    CreateTestBooking(service, s, Some("Jim"), Some("Brown"))
  }

  /** The posted payload reads back as the given names plus the fixed defaults. */
  lemma CreateTestBookingPayload(service: Service, s: Session, firstName: Option<string>, lastName: Option<string>)
    requires QuoteFree(firstName) && QuoteFree(lastName)
    ensures var req := CreateTestBooking(service, s, firstName, lastName).1.sent[|s.sent|];
            ParseBookingPayload(req.payload)
            == Some(BookingRequest(firstName, lastName, 111, true, Some("2023-01-01"), Some("2023-01-02"), Some("Breakfast")))
  {
    ParseCreateBookingPayload(TestBooking(firstName, lastName));
  }

  /** The default booking is Jim / Brown / 111 / true / 2023-01-01 / 2023-01-02 / Breakfast. */
  lemma DefaultTestBookingPayload(service: Service, s: Session)
    ensures var req := CreateDefaultTestBooking(service, s).1.sent[|s.sent|];
            ParseBookingPayload(req.payload)
            == Some(BookingRequest(Some("Jim"), Some("Brown"), 111, true, Some("2023-01-01"), Some("2023-01-02"), Some("Breakfast")))
  {
    CreateTestBookingPayload(service, s, Some("Jim"), Some("Brown"));
  }

  /* ---------------------------------------------------------------------
   * Properties of the retry.
   * --------------------------------------------------------------------- */

  /** Every booking call in `reqs` carries `op`; only the token may differ between them. */
  predicate OnlyOperation(reqs: seq<Request>, op: Operation) {
    forall i | 0 <= i < |reqs| :: !IsAuthentication(reqs[i]) ==> OperationOf(reqs[i]) == Some(op)
  }

  lemma CallCounts(a: Request, b: Request, c: Request)
    requires !IsAuthentication(a) && IsAuthentication(b) && !IsAuthentication(c)
    ensures BookingCalls([a]) == 1 && AuthenticationCalls([a]) == 0
    ensures BookingCalls([a, b]) == 1 && AuthenticationCalls([a, b]) == 1
    ensures BookingCalls([a, b, c]) == 2 && AuthenticationCalls([a, b, c]) == 1
  {
    assert [a, b][1..] == [b];
    assert [a, b, c][1..] == [b, c];
    assert [b, c][1..] == [c];
    assert BookingCalls([c]) == 1 && AuthenticationCalls([c]) == 0;
    assert BookingCalls([b, c]) == 1 && AuthenticationCalls([b, c]) == 1;
  }

  /**
   * At most one retry: a call sends the operation once or twice and
   * authenticates at most once; a second send happens only after a 403, and
   * both sends carry the identical path and payload.
   */
  lemma RetryAtMostOnce(service: Service, cred: Credentials, s: Session, op: Operation, token: Option<string>)
    ensures var r := SendWithRetry(service, cred, s, op, token);
            var added := Added(s, r.session);
            && 1 <= BookingCalls(added) <= 2
            && AuthenticationCalls(added) <= 1
            && OnlyOperation(added, op)
            && (BookingCalls(added) == 2 ==> service(|s.sent|, WithToken(op, token)).status == 403)
  {
    var r := SendWithRetry(service, cred, s, op, token);
    var auth := service(|s.sent| + 1, AuthRequest(cred));
    WithTokenRoundTrip(op, token);
    WithTokenRoundTrip(op, TokenField(auth));
    CallCounts(WithToken(op, token), AuthRequest(cred), WithToken(op, TokenField(auth)));
    assert Added(s, s.(sent := s.sent + [WithToken(op, token)])) == [WithToken(op, token)];
  }

  /** A status other than 403, 404 and 405 included, is returned as it came, after one send, with the cache untouched. */
  lemma NonForbiddenPassesThrough(service: Service, cred: Credentials, s: Session, op: Operation, token: Option<string>)
    requires service(|s.sent|, WithToken(op, token)).status != 403
    ensures var r := SendWithRetry(service, cred, s, op, token);
            && r.Done? && r.value == service(|s.sent|, WithToken(op, token))
            && r.session.cache == s.cache
            && Added(s, r.session) == [WithToken(op, token)]
  {
    var r := SendWithRetry(service, cred, s, op, token);
    assert Added(s, r.session) == [WithToken(op, token)];
  }

  /**
   * The retry sends the token just fetched from the service, never the one the
   * caller passed in, even when the caller's token is still cached.
   */
  lemma RetryUsesFreshToken(service: Service, cred: Credentials, s: Session, op: Operation, token: Option<string>)
    requires service(|s.sent|, WithToken(op, token)).status == 403
    requires service(|s.sent| + 1, AuthRequest(cred)).status == 200
    ensures var r := SendWithRetry(service, cred, s, op, token);
            var renewed := TokenField(service(|s.sent| + 1, AuthRequest(cred)));
            && r.Done?
            && r.session.sent[|r.session.sent| - 1] == WithToken(op, renewed)
            && r.session.cache == renewed
            && (renewed != token ==> r.session.sent[|r.session.sent| - 1].token != token)
  {
    var r := SendWithRetry(service, cred, s, op, token);
    var renewed := TokenField(service(|s.sent| + 1, AuthRequest(cred)));
    assert r.session.sent == s.sent + Added(s, r.session);
    WithTokenRoundTrip(op, renewed);
  }

  /** An expired token is repaired: 403, then a good token, then 200 gives the 200 reply and a refreshed cache. */
  lemma RetryRecovers(service: Service, cred: Credentials, s: Session, op: Operation, token: Option<string>, renewed: string)
    requires service(|s.sent|, WithToken(op, token)).status == 403
    requires service(|s.sent| + 1, AuthRequest(cred)).status == 200
    requires TokenField(service(|s.sent| + 1, AuthRequest(cred))) == Some(renewed)
    requires service(|s.sent| + 2, WithToken(op, Some(renewed))).status == 200
    ensures var r := SendWithRetry(service, cred, s, op, token);
            && r.Done? && r.value.status == 200
            && r.session.cache == Some(renewed)
            && AuthenticationCalls(Added(s, r.session)) == 1
  {
    CallCounts(WithToken(op, token), AuthRequest(cred), WithToken(op, Some(renewed)));
  }

  /** A second 403 is final: it is returned and no third send is made. */
  lemma RetryGivesUp(service: Service, cred: Credentials, s: Session, op: Operation, token: Option<string>)
    requires service(|s.sent|, WithToken(op, token)).status == 403
    requires service(|s.sent| + 1, AuthRequest(cred)).status == 200
    requires service(|s.sent| + 2, WithToken(op, TokenField(service(|s.sent| + 1, AuthRequest(cred))))).status == 403
    ensures var r := SendWithRetry(service, cred, s, op, token);
            && r.Done? && r.value.status == 403
            && |r.session.sent| == |s.sent| + 3
            && BookingCalls(Added(s, r.session)) == 2
  {
    var renewed := TokenField(service(|s.sent| + 1, AuthRequest(cred)));
    CallCounts(WithToken(op, token), AuthRequest(cred), WithToken(op, renewed));
  }

  lemma OnlyOperationAppend(a: seq<Request>, b: seq<Request>, op: Operation)
    requires forall i | 0 <= i < |a| :: IsAuthentication(a[i])
    requires OnlyOperation(b, op)
    ensures OnlyOperation(a + b, op)
  {
    forall i | 0 <= i < |a + b| && !IsAuthentication((a + b)[i])
      ensures OperationOf((a + b)[i]) == Some(op)
    {
      assert (a + b)[i] == b[i - |a|];
    }
  }

  /**
   * Fetching the cached token and then retrying: an authentication happens
   * first only when nothing is cached; at most two booking calls follow, all
   * carrying the same operation.
   */
  lemma CachedTokenShape(service: Service, cred: Credentials, s: Session, op: Operation)
    ensures var r := WithCachedToken(service, cred, s, op);
            && s.sent <= r.session.sent
            && BookingCalls(Added(s, r.session)) <= 2
            && AuthenticationCalls(Added(s, r.session)) <= 2
            && OnlyOperation(Added(s, r.session), op)
            && (s.cache.Some? ==> AuthenticationCalls(Added(s, r.session)) <= 1)
  {
    var g := GetToken(service, cred, s);
    if g.Done? {
      var r := SendWithRetry(service, cred, g.session, op, g.value);
      assert WithCachedToken(service, cred, s, op) == r;
      RetryAtMostOnce(service, cred, g.session, op, g.value);
      assert Added(s, g.session) == (if s.cache.None? then [AuthRequest(cred)] else []);
      SessionsCompose(s, g.session, r.session, op, AuthRequest(cred));
    } else {
      assert Added(s, g.session) == [AuthRequest(cred)];
      assert Added(s, g.session)[1..] == [];
    }
  }

  /** An optional authentication, then one retried call, seen as one stretch of the run. */
  lemma SessionsCompose(s: Session, m: Session, t: Session, op: Operation, auth: Request)
    requires IsAuthentication(auth)
    requires s.sent <= m.sent && m.sent <= t.sent
    requires Added(s, m) == [] || Added(s, m) == [auth]
    requires BookingCalls(Added(m, t)) <= 2 && AuthenticationCalls(Added(m, t)) <= 1 && OnlyOperation(Added(m, t), op)
    ensures s.sent <= t.sent
    ensures BookingCalls(Added(s, t)) <= 2
    ensures AuthenticationCalls(Added(s, t)) <= 2
    ensures OnlyOperation(Added(s, t), op)
    ensures Added(s, m) == [] ==> AuthenticationCalls(Added(s, t)) <= 1
  {
    assert Added(s, t) == Added(s, m) + Added(m, t);
    TokenThenRetry(Added(s, m), Added(m, t), op, auth);
  }

  /** An optional authentication followed by one retried call keeps the retry's bounds. */
  lemma TokenThenRetry(pre: seq<Request>, post: seq<Request>, op: Operation, auth: Request)
    requires IsAuthentication(auth)
    requires pre == [] || pre == [auth]
    requires BookingCalls(post) <= 2 && AuthenticationCalls(post) <= 1 && OnlyOperation(post, op)
    ensures BookingCalls(pre + post) <= 2
    ensures AuthenticationCalls(pre + post) <= 2
    ensures OnlyOperation(pre + post, op)
    ensures pre == [] ==> AuthenticationCalls(pre + post) <= 1
  {
    CountsAppend(pre, post);
    if pre == [auth] {
      assert pre[1..] == [];
    }
    OnlyOperationAppend(pre, post, op);
  }

  /** `updateSpecificBooking`: every update sent goes to `/booking/<id>` with the templated payload, at most twice. */
  lemma UpdateSpecificBookingShape(service: Service, cred: Credentials, s: Session, bookingId: int, b: BookingRequest)
    ensures var r := UpdateSpecificBooking(service, cred, s, bookingId, b);
            && s.sent <= r.session.sent
            && BookingCalls(Added(s, r.session)) <= 2
            && OnlyOperation(Added(s, r.session), UpdateOp("/booking/" + IntToString(bookingId), CreateBookingPayload(b)))
  {
    ResourcePathRoundTrip(IntToString(bookingId));
    CachedTokenShape(service, cred, s, UpdateOp(ResourcePath(IntToString(bookingId)), CreateBookingPayload(b)));
  }

  /** `deleteTestBookingId`: every delete sent goes to `/booking/<id>`, at most twice. */
  lemma DeleteTestBookingIdShape(service: Service, cred: Credentials, s: Session, bookingId: string)
    ensures var r := DeleteTestBookingId(service, cred, s, bookingId);
            && s.sent <= r.session.sent
            && BookingCalls(Added(s, r.session)) <= 2
            && OnlyOperation(Added(s, r.session), DeleteOp("/booking/" + bookingId))
  {
    ResourcePathRoundTrip(bookingId);
    CachedTokenShape(service, cred, s, DeleteOp(ResourcePath(bookingId)));
  }

  /** `updateEmptyBookingId("")` updates the collection path `/booking/` itself. */
  lemma UpdateEmptyBookingIdShape(service: Service, cred: Credentials, s: Session, invalidPayload: string)
    ensures var r := UpdateEmptyBookingId(service, cred, s, "", invalidPayload);
            && s.sent <= r.session.sent
            && BookingCalls(Added(s, r.session)) <= 2
            && OnlyOperation(Added(s, r.session), UpdateOp("/booking/", invalidPayload))
  {
    ResourcePathRoundTrip("");
    assert "/booking/" + "" == "/booking/";
    CachedTokenShape(service, cred, s, UpdateOp(ResourcePath(""), invalidPayload));
  }

  /**
   * A caller's rejected token cannot make `deleteTestBookingId(id, token)`
   * report 403: the refused delete is repeated with a fresh token, and a
   * service that accepts that token answers the call with its own status.
   */
  lemma RejectedCallerTokenIsReplaced(service: Service, cred: Credentials, s: Session, bookingId: string, token: Option<string>)
    requires service(|s.sent|, Delete(ResourcePath(bookingId), token)).status == 403
    requires service(|s.sent| + 1, AuthRequest(cred)).status == 200
    requires service(|s.sent| + 2, Delete(ResourcePath(bookingId), TokenField(service(|s.sent| + 1, AuthRequest(cred))))).status != 403
    ensures var r := DeleteTestBookingIdWith(service, cred, s, bookingId, token);
            && r.Done? && r.value.status != 403
            && r.session.sent[|r.session.sent| - 1] == Delete(ResourcePath(bookingId), TokenField(service(|s.sent| + 1, AuthRequest(cred))))
  {
    RetryUsesFreshToken(service, cred, s, DeleteOp(ResourcePath(bookingId)), token);
  }

  /**
   * The single-send variant reports the service's refusal of the caller's
   * token as it came: nothing is retried, so a 403 for that token is the
   * call's answer.
   */
  lemma NoAuthDeleteKeepsRejection(service: Service, s: Session, bookingId: int, token: Option<string>)
    requires service(|s.sent|, Delete("/booking/" + IntToString(bookingId), token)).status == 403
    ensures var r := DeleteBookingWithNoAuth(service, s, bookingId, token);
            && r.0.status == 403
            && Added(s, r.1) == [Delete("/booking/" + IntToString(bookingId), token)]
            && AuthenticationCalls(Added(s, r.1)) == 0
  {
    ResourcePathRoundTrip(IntToString(bookingId));
    var r := DeleteBookingWithNoAuth(service, s, bookingId, token);
    assert Added(s, r.1) == [Delete("/booking/" + IntToString(bookingId), token)];
    assert Added(s, r.1)[1..] == [];
  }
}
