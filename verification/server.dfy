/**
 * The booking service as the harness sees it. The network is replaced by an
 * oracle: a total function from (position of the request in the run, request)
 * to the response. Indexing by position lets the same request be answered
 * differently later in the run (a booking deleted twice answers 201, then 405).
 */
module Server {
  import opened Wrappers

  /** The requests the core sends; `token` is the credential attached as a cookie. */
  datatype Request =
    | Authenticate(username: string, password: string)
    | Create(path: string, payload: string)
    | Update(path: string, token: Option<string>, body: Option<string>)
    | Delete(path: string, token: Option<string>)

  /** What the core reads from a reply: the status, the body text, and its top-level JSON string fields. */
  datatype Response = Response(status: int, body: string, json: map<string, string>)

  /** `jsonPath().getString(key)`: null when the field is absent. */
  function JsonString(r: Response, key: string): Option<string> {
    if key in r.json then Some(r.json[key]) else None
  }

  /** The `token` field of an authentication reply. */
  function TokenField(r: Response): Option<string> {
    JsonString(r, "token")
  }

  /** The service's reply to the request sent at a given position of the run. */
  type Service = (nat, Request) -> Response

  /**
   * The process-wide state of one sequential run: the static token field of
   * the token manager and every request sent so far, in order.
   */
  datatype Session = Session(cache: Option<string>, sent: seq<Request>)

  /** A step that either returns a value or lets a `RuntimeException` escape. */
  datatype Outcome<+T> =
    | Done(value: T, session: Session)
    | Thrown(message: string, session: Session)

  /** One blocking call: the request is appended to the run and answered by the service. */
  function Send(service: Service, s: Session, req: Request): (Response, Session) {
    (service(|s.sent|, req), s.(sent := s.sent + [req]))
  }

  predicate IsAuthentication(req: Request) {
    req.Authenticate?
  }

  /** Number of booking requests (everything but authentication calls) in a stretch of the run. */
  function BookingCalls(reqs: seq<Request>): nat
    decreases |reqs|
  {
    if |reqs| == 0 then 0
    else (if IsAuthentication(reqs[0]) then 0 else 1) + BookingCalls(reqs[1..])
  }

  /** Number of authentication calls in a stretch of the run. */
  function AuthenticationCalls(reqs: seq<Request>): nat
    decreases |reqs|
  {
    if |reqs| == 0 then 0
    else (if IsAuthentication(reqs[0]) then 1 else 0) + AuthenticationCalls(reqs[1..])
  }

  /** The requests a step added to the run. */
  function Added(before: Session, after: Session): seq<Request>
    requires before.sent <= after.sent
  {
    after.sent[|before.sent|..]
  }

  /** Counting calls distributes over consecutive stretches of the run. */
  lemma {:induction false} CountsAppend(a: seq<Request>, b: seq<Request>)
    ensures BookingCalls(a + b) == BookingCalls(a) + BookingCalls(b)
    ensures AuthenticationCalls(a + b) == AuthenticationCalls(a) + AuthenticationCalls(b)
    decreases |a|
  {
    if |a| > 0 {
      assert (a + b)[1..] == a[1..] + b;
      CountsAppend(a[1..], b);
    } else {
      assert a + b == b;
    }
  }
}
