# BookerAPI automation core, modelled in Dafny

This project models the core of a REST test harness for the Restful Booker
booking service, and proves properties of that model. The harness's core has
four parts:

- **Token cache** (`TokenManager`): a process-wide nullable token. It is filled
  lazily by one authentication call and cleared only on request. A non-200
  authentication throws, and the message carries the status code.
- **Request executor** (`BookingUtils`): resource paths, the templated default
  booking, and the update and delete wrappers. These retry exactly once after a
  403, with a freshly fetched token. The "no auth" variants send exactly once
  with the caller's token.
- **Payload template** (`BookingPayloads`): the booking JSON. Strings are wrapped
  in quotes without escaping, and a null field becomes the bare word `null`.
- **Soft-assertion aggregator** (`AssertionsUtils`): per-call error lists filled
  by soft checks and drained by `assertAllErrors`. Also its three batch clients,
  the hard-fail validators and the token mask used in report lines.

The network is an oracle of type `Server.Service`. It is a total function from
(the request's position in the run, the request) to the reply, so the same
request can be answered differently later in the run. `Server.Session` holds
the token cache and the list of requests sent so far. An exception that
escapes is `Server.Outcome.Thrown`. The report is an append-only list of
`AssertionsUtils.LogEntry`. A Java `null` string is `Wrappers.Option<string>`,
and string concatenation renders it as `null` (`JavaText.Show`).

Files:
- `wrappers.dfy`: the `Option` type.
- `java_text.dfy`: the pieces of Java's string library the harness relies on.
- `server.dfy`: requests, replies, the session, and call counting.
- `token_manager.dfy`, `booking_payloads.dfy`, `booking_utils.dfy`,
  `assertions_utils.dfy`: one module per source class.

Three behaviours of the code are easy to misread:

- **Hard-fail failures are not logged.** The hard-fail validators
  (`assertErrorResponse`, `assertAuthErrorResponse`,
  `assertAuthValidResponse`) catch `Exception` only. A failed JUnit assertion is
  an `Error`, so a status or message mismatch escapes with no report line.
  Any `Exception` (here: null dereferences and bad substring indices) is logged and rethrown
  (`AssertionsUtils.MismatchIsNotLogged`, `AssertionsUtils.ValidateError`).
- **The token checks are shadowed.** `assertAuthValidResponse` asserts that
  the token is non-null and non-empty, but it computes the mask first. So a null token, or one shorter than four characters, fails
  as a caught exception (logged, rethrown) and never reaches those assertions
  (`AssertionsUtils.AssertAuthValidResponse`).
- **The batch status is hard-coded.** `assertBookingResponse` compares the
  status with a literal 200, and `assertDeleteBookingResponse` with a literal
  201, not with a caller's expectation.

## Model

| member | source | states |
|---|---|---|
| `TokenManager.GenerateToken` | src/test/java/nz/co/sundar/testautomation/restfulbooker/utils/TokenManager.java:46-66 | Exactly one authentication request is appended and the cache is untouched. The call succeeds iff the reply is 200 and then yields the reply's `token` field, null included. Otherwise it throws a message that starts with the fixed prefix and whose remainder parses back to the status code. |
| `TokenManager.GetToken` | src/test/java/nz/co/sundar/testautomation/restfulbooker/utils/TokenManager.java:30-35 | A cached token is returned with no request. Otherwise exactly one authentication request is sent, and on success the cache holds exactly the returned value. A throw happens only on a non-200 reply and leaves the cache null. |
| `TokenManager.GetTokenIsStable` | src/test/java/nz/co/sundar/testautomation/restfulbooker/utils/TokenManager.java:30-35 | Once a non-null token is cached, asking again returns the same token and sends nothing. |
| `TokenManager.NullTokenIsFetchedAgain` | src/test/java/nz/co/sundar/testautomation/restfulbooker/utils/TokenManager.java:31-33 | A 200 reply with no `token` field caches null, so the next request for a token authenticates again. |
| `TokenManager.FailedAuthenticationLeavesCacheEmpty` | src/test/java/nz/co/sundar/testautomation/restfulbooker/utils/TokenManager.java:61-64 | A failed authentication throws and leaves the cache null, so the next request for a token authenticates again. |
| `TokenManager.InvalidateToken` | src/test/java/nz/co/sundar/testautomation/restfulbooker/utils/BookingUtils.java:99 | The cache becomes null and nothing is sent; `TokenManager.InvalidateThenGetAuthenticatesOnce` shows the next `getToken` then authenticates exactly once. |
| `TokenManager.InvalidateThenGetAuthenticatesOnce` | src/test/java/nz/co/sundar/testautomation/restfulbooker/utils/BookingUtils.java:99-100 | Clearing the cache and asking for a token adds exactly one request to the run, an authentication, whatever was cached. |
| `TokenManager.GenerateTokenResponse` | src/test/java/nz/co/sundar/testautomation/restfulbooker/tests/AuthTokenTests.java:19 | The raw reply to one authentication with the given credentials, bypassing and preserving the cache. |
| `JavaText.IntToStringRoundTrip` | src/test/java/nz/co/sundar/testautomation/restfulbooker/utils/TokenManager.java:64 | The decimal rendering of an `int` (status codes, ids, prices) reads back as the same integer. |
| `JavaText.ListToStringContainsEach` | src/test/java/nz/co/sundar/testautomation/restfulbooker/utils/AssertionsUtils.java:153 | Every element of a list appears, contiguously, in the list's `toString`. |
| `JavaText.TrimEmptyIffBlank` | src/test/java/nz/co/sundar/testautomation/restfulbooker/utils/AssertionsUtils.java:210 | `trim().isEmpty()` holds exactly when every character is at or below U+0020. |
| `BookingPayloads.CreateBookingPayload` | src/test/java/nz/co/sundar/testautomation/restfulbooker/payloads/BookingPayloads.java:4-18 | The filled template always ends with the object's closing brace; its contents are stated by `BookingPayloads.ParseCreateBookingPayload`, `BookingPayloads.ScalarFieldsUnquoted`, `BookingPayloads.NullFieldIsBareNull` and `BookingPayloads.NullFieldsAreBareNull`. |
| `BookingPayloads.NormaliseString` | src/test/java/nz/co/sundar/testautomation/restfulbooker/payloads/BookingPayloads.java:20-28 | Null stays null. Any other string gains exactly one double quote at each end, and its content is unchanged. |
| `BookingPayloads.ParseCreateBookingPayload` | src/test/java/nz/co/sundar/testautomation/restfulbooker/payloads/BookingPayloads.java:4-18 | Round trip: when no string field holds a double quote, the payload reads back as exactly the seven fields, nulls included. |
| `BookingPayloads.CreateBookingPayloadInjective` | src/test/java/nz/co/sundar/testautomation/restfulbooker/payloads/BookingPayloads.java:4-18 | Two quote-free bookings have the same payload only if they are the same booking. |
| `BookingPayloads.ScalarFieldsUnquoted` | src/test/java/nz/co/sundar/testautomation/restfulbooker/payloads/BookingPayloads.java:9-10 | The price is written as bare decimal digits and the deposit flag as bare `true`/`false`, each directly between its key and the next, without quotes. |
| `BookingPayloads.UnescapedQuoteCollision` | src/test/java/nz/co/sundar/testautomation/restfulbooker/payloads/BookingPayloads.java:25 | With no escaping, two different bookings can produce the same payload: a quote-and-key sequence moves text from the first name into the last name. |
| `BookingPayloads.NullFieldIsBareNull` | src/test/java/nz/co/sundar/testautomation/restfulbooker/payloads/BookingPayloads.java:21-22 | A null first name appears as the bare literal `null` at its fixed position right after the opening key, directly followed by the next key. |
| `BookingPayloads.NullFieldsAreBareNull` | src/test/java/nz/co/sundar/testautomation/restfulbooker/payloads/BookingPayloads.java:8-17 | A null last name, check-in date, check-out date or additional needs also appears as the bare literal `null`, directly between its own key and the next one. |
| `BookingUtils.ResourcePathRoundTrip` | src/test/java/nz/co/sundar/testautomation/restfulbooker/utils/BookingUtils.java:139 | Every id, the empty one included, is placed after `/booking/` and can be read back from the path. |
| `BookingUtils.IntResourcePathRoundTrip` | src/test/java/nz/co/sundar/testautomation/restfulbooker/utils/BookingUtils.java:81 | An `int` id's path determines the id. |
| `BookingUtils.SendWithRetry` | src/test/java/nz/co/sundar/testautomation/restfulbooker/utils/BookingUtils.java:138-151 | A non-403 first reply is returned after one send. After a 403 the cache is cleared and refilled. The call throws iff that authentication fails. Otherwise the same operation is sent once more with the new token, and that second reply is returned, with the exact requests added listed. |
| `BookingUtils.RetryAtMostOnce` | src/test/java/nz/co/sundar/testautomation/restfulbooker/utils/BookingUtils.java:95-104 | One or two booking calls and at most one authentication. A second call happens only after a 403. Both calls carry the same path and payload. |
| `BookingUtils.NonForbiddenPassesThrough` | src/test/java/nz/co/sundar/testautomation/restfulbooker/utils/BookingUtils.java:97 | Any status other than 403, including 404 and 405, is returned as received after one send, and the cache is untouched. |
| `BookingUtils.RetryUsesFreshToken` | src/test/java/nz/co/sundar/testautomation/restfulbooker/utils/BookingUtils.java:99-101 | The retry carries the token just fetched, which is now cached, whatever token the caller passed. |
| `BookingUtils.RetryRecovers` | src/test/java/nz/co/sundar/testautomation/restfulbooker/utils/BookingUtils.java:95-104 | 403, then a good authentication, then 200 gives the 200 reply, a refreshed cache and exactly one authentication. |
| `BookingUtils.RetryGivesUp` | src/test/java/nz/co/sundar/testautomation/restfulbooker/utils/BookingUtils.java:101-104 | A second 403 is returned as is, and no third booking call is made. |
| `BookingUtils.WithCachedToken` | src/test/java/nz/co/sundar/testautomation/restfulbooker/utils/BookingUtils.java:134-136 | With a token cached, the first request is the operation carrying that token; with none, it is an authentication, and a refused authentication throws before any booking request. A returned reply answers the last request, which carries the token now cached. A throw leaves the cache null. |
| `BookingUtils.UpdateSpecificBooking` | src/test/java/nz/co/sundar/testautomation/restfulbooker/utils/BookingUtils.java:73-105 | With a token cached, the first request is a PUT of the templated payload to `/booking/<id>` with that token. A returned reply answers the last request, which is that same PUT carrying the token now cached. A throw leaves the cache null. |
| `BookingUtils.DeleteTestBookingIdWith` | src/test/java/nz/co/sundar/testautomation/restfulbooker/utils/BookingUtils.java:138-151 | The first request is a DELETE of `/booking/<id>` with the caller's token. A returned reply answers the last request, a DELETE of that path carrying either the caller's token or the token now cached. A throw leaves the cache null. |
| `BookingUtils.DeleteTestBookingId` | src/test/java/nz/co/sundar/testautomation/restfulbooker/utils/BookingUtils.java:130-136 | With a token cached, the first request is a DELETE of `/booking/<id>` with that token. A returned reply answers the last request, a DELETE of that path carrying the token now cached. A throw leaves the cache null. |
| `BookingUtils.UpdateEmptyBookingIdWith` | src/test/java/nz/co/sundar/testautomation/restfulbooker/utils/BookingUtils.java:192-213 | The first request is a PUT of the invalid payload to `/booking/<id>` with the caller's token. A returned reply answers the last request, a PUT of that path and payload carrying either the caller's token or the token now cached. A throw leaves the cache null. |
| `BookingUtils.UpdateEmptyBookingId` | src/test/java/nz/co/sundar/testautomation/restfulbooker/utils/BookingUtils.java:186-191 | With a token cached, the first request is a PUT of the invalid payload to `/booking/<id>` with that token. A returned reply answers the last request, the same PUT carrying the token now cached. A throw leaves the cache null. |
| `BookingUtils.CachedTokenShape` | src/test/java/nz/co/sundar/testautomation/restfulbooker/utils/BookingUtils.java:93-104 | Fetching the cached token and then retrying makes at most two booking calls, all with the same operation. A leading authentication happens only when nothing is cached. |
| `BookingUtils.UpdateSpecificBookingShape` | src/test/java/nz/co/sundar/testautomation/restfulbooker/utils/BookingUtils.java:73-105 | Every update sent targets `/booking/<id>` with the templated payload, at most twice. |
| `BookingUtils.DeleteTestBookingIdShape` | src/test/java/nz/co/sundar/testautomation/restfulbooker/utils/BookingUtils.java:130-136 | Every delete sent targets `/booking/<id>`, at most twice. |
| `BookingUtils.UpdateEmptyBookingIdShape` | src/test/java/nz/co/sundar/testautomation/restfulbooker/utils/BookingUtils.java:189-191 | An empty id updates the collection path `/booking/` itself, with the invalid-booking payload, at most twice. |
| `BookingUtils.RejectedCallerTokenIsReplaced` | src/test/java/nz/co/sundar/testautomation/restfulbooker/utils/BookingUtils.java:138-151 | A caller's rejected token cannot make the delete report 403 when the service accepts the fresh token: the last request carries the fresh token. |
| `BookingUtils.UpdateBookingWithNoAuth` | src/test/java/nz/co/sundar/testautomation/restfulbooker/utils/BookingUtils.java:157-168 | Exactly one body-less PUT to the booking's path with the caller's token. No retry, no authentication, cache untouched. |
| `BookingUtils.DeleteBookingWithNoAuth` | src/test/java/nz/co/sundar/testautomation/restfulbooker/utils/BookingUtils.java:173-184 | Exactly one DELETE to the booking's path with the caller's token. No retry, no authentication, cache untouched. |
| `BookingUtils.NoAuthDeleteKeepsRejection` | src/test/java/nz/co/sundar/testautomation/restfulbooker/utils/BookingUtils.java:173-184 | When the service refuses the caller's token with 403, the single-send delete reports that 403, after exactly one request and no authentication. |
| `BookingUtils.CreateTestBooking` | src/test/java/nz/co/sundar/testautomation/restfulbooker/utils/BookingUtils.java:21-37 | One unauthenticated POST to `/booking`, and the cache is untouched. The reply returned is the service's answer to that POST; what the POST carries is stated by `BookingUtils.CreateTestBookingPayload`. |
| `BookingUtils.CreateTestBookingPayload` | src/test/java/nz/co/sundar/testautomation/restfulbooker/utils/BookingUtils.java:23-31 | For names without a double quote, the posted payload reads back as the given names plus 111, true, 2023-01-01, 2023-01-02 and Breakfast. |
| `BookingUtils.CreateDefaultTestBooking` | src/test/java/nz/co/sundar/testautomation/restfulbooker/utils/BookingUtils.java:15-19 | `BookingUtils.CreateTestBooking` for Jim / Brown: one unauthenticated POST to `/booking`, the cache untouched, and the reply to that POST returned; its payload is stated by `BookingUtils.DefaultTestBookingPayload`. |
| `BookingUtils.DefaultTestBookingPayload` | src/test/java/nz/co/sundar/testautomation/restfulbooker/utils/BookingUtils.java:15-19 | The default booking reads back as Jim / Brown with the fixed values. |
| `AssertionsUtils.AssertEquals` | src/test/java/nz/co/sundar/testautomation/restfulbooker/utils/AssertionsUtils.java:23-33 | Exactly one report line either way, a pass iff the values are equal. A match leaves the error list unchanged. A mismatch appends exactly one error, identical to the logged failure line. |
| `AssertionsUtils.AssertTrue` | src/test/java/nz/co/sundar/testautomation/restfulbooker/utils/AssertionsUtils.java:38-48 | The same, for a boolean condition against `true`. |
| `AssertionsUtils.EqualsFailureMentions` | src/test/java/nz/co/sundar/testautomation/restfulbooker/utils/AssertionsUtils.java:29 | A failure message contains the check's name, the expected value and the actual value. |
| `AssertionsUtils.RunBlock` | src/test/java/nz/co/sundar/testautomation/restfulbooker/utils/AssertionsUtils.java:71-83 | Running a `try` block only appends: earlier errors and report lines are kept as they were. What it appends is stated by `AssertionsUtils.RunBlockErrors` and `AssertionsUtils.RunBlockLog`. |
| `AssertionsUtils.RunBlockErrors` | src/test/java/nz/co/sundar/testautomation/restfulbooker/utils/AssertionsUtils.java:71-83 | A batch's `try` block adds exactly the failures of the checks before the first exception, in order, followed by one entry for that exception. |
| `AssertionsUtils.FailuresInCheckOrder` | src/test/java/nz/co/sundar/testautomation/restfulbooker/utils/AssertionsUtils.java:71-83 | With K mismatching checks in a block, the error list holds exactly K entries, the i-th being the message of the i-th mismatching check in check order, and every mismatching check is represented. |
| `AssertionsUtils.RunBlockLog` | src/test/java/nz/co/sundar/testautomation/restfulbooker/utils/AssertionsUtils.java:71-83 | Each statement that runs writes exactly one report line, and so does the handler. Earlier lines never change. |
| `AssertionsUtils.RunBlockLines` | src/test/java/nz/co/sundar/testautomation/restfulbooker/utils/AssertionsUtils.java:71-83 | The lines a `try` block adds are exactly one per statement, in order, up to the first exception, whose handler line ends them: a pass or failure line for each check, the text of each pass log, and the "EXCEPTION: Failed to assert …" line. |
| `AssertionsUtils.RaiseSkipsRest` | src/test/java/nz/co/sundar/testautomation/restfulbooker/utils/AssertionsUtils.java:80-83 | Nothing after the first exception in a block is run. |
| `AssertionsUtils.AssertAllErrors` | src/test/java/nz/co/sundar/testautomation/restfulbooker/utils/AssertionsUtils.java:148-155 | It raises iff the list is non-null and non-empty. Before raising, it logs one info line per error, in order. The raised message starts with the fixed prefix and contains every error. Nothing else is added to the report. |
| `AssertionsUtils.RunBatch` | src/test/java/nz/co/sundar/testautomation/restfulbooker/utils/AssertionsUtils.java:69-84 | A batch raises iff its block recorded something. The raised message starts with "Test failed due to assertion errors: " and contains every recorded error, and the report ends with one "ASSERTION FAILURE: " info line per recorded error, in order. The report is exactly the earlier lines, then the block's lines as stated by `AssertionsUtils.RunBlockLines`, then those failure lines. |
| `AssertionsUtils.BookingChecksClean` | src/test/java/nz/co/sundar/testautomation/restfulbooker/utils/AssertionsUtils.java:72-79 | The booking checks record nothing iff the status is 200, the booking and its dates are non-null and all seven fields agree. A wrong status is the first error. A null booking ends the list with its exception. |
| `AssertionsUtils.NameFailuresRecorded` | src/test/java/nz/co/sundar/testautomation/restfulbooker/utils/AssertionsUtils.java:72-76 | Whatever happens later in the block, the failures of the first name, last name, price and deposit checks appear in the booking batch's error list right after the status failure, in check order. |
| `AssertionsUtils.AssertBookingResponse` | src/test/java/nz/co/sundar/testautomation/restfulbooker/utils/AssertionsUtils.java:64-86 | It raises iff the status is not 200, the booking or its dates are null, or some field differs. The raised message names every recorded error: a wrong status, a null booking's exception, each failing name or amount check (a wrong first name's "FAIL: Validating First Name …" line in particular). The report gains exactly the block's lines and then one "ASSERTION FAILURE: " line per error; the first new line is the status check's pass or failure line, and for a null booking the second is "EXCEPTION: Failed to assert booking response. Error: …". |
| `AssertionsUtils.IdListFailures` | src/test/java/nz/co/sundar/testautomation/restfulbooker/utils/AssertionsUtils.java:100-108 | A null list records two failures (not null, not empty), an empty list records one, and a non-empty list records none, after any status failure. |
| `AssertionsUtils.AssertBookingIdListResponse` | src/test/java/nz/co/sundar/testautomation/restfulbooker/utils/AssertionsUtils.java:95-120 | It raises iff the status is not 200 or the list is null or empty. The message names every recorded error: a wrong status, both list failures for a null list, the not-empty failure for an empty list. The report gains exactly the block's lines and then one "ASSERTION FAILURE: " line per error; the first new line is the status check's line, and a non-empty list's fourth new line is the pass line giving its size. |
| `AssertionsUtils.IdListLogsSize` | src/test/java/nz/co/sundar/testautomation/restfulbooker/utils/AssertionsUtils.java:110-112 | A non-empty list adds a fourth report line giving its size. |
| `AssertionsUtils.AssertDeleteBookingResponse` | src/test/java/nz/co/sundar/testautomation/restfulbooker/utils/AssertionsUtils.java:128-140 | It raises iff the response is null or its status is not 201. The message names a null response's exception, or the "expected: 201 but was: …" failure of a wrong status. The report gains exactly the block's one line, the status check's pass or failure line or else "EXCEPTION: Failed to assert delete booking response. Error: …", and then the matching "ASSERTION FAILURE: " line. |
| `AssertionsUtils.ValidateError` | src/test/java/nz/co/sundar/testautomation/restfulbooker/utils/AssertionsUtils.java:163-174 | Validated iff status and message both match. A null response is logged and rethrown. A mismatch fails with no report line. A success logs exactly one pass line. |
| `AssertionsUtils.AssertErrorResponse` | src/test/java/nz/co/sundar/testautomation/restfulbooker/utils/AssertionsUtils.java:163-174 | Validated iff the status matches and the body text equals the expected message. A mismatch is not logged. |
| `AssertionsUtils.AssertAuthErrorResponse` | src/test/java/nz/co/sundar/testautomation/restfulbooker/utils/AssertionsUtils.java:182-193 | Validated iff the status matches and the JSON `reason` field equals the expected message. A mismatch is not logged. |
| `AssertionsUtils.MismatchIsNotLogged` | src/test/java/nz/co/sundar/testautomation/restfulbooker/utils/AssertionsUtils.java:165-169 | A wrong status or body ends the call as a failed assertion, with the report unchanged. |
| `AssertionsUtils.MaskToken` | src/test/java/nz/co/sundar/testautomation/restfulbooker/utils/AssertionsUtils.java:206 | A mask exists iff the token has at least four characters. It is always twelve characters: the first four, four asterisks, the last four. |
| `AssertionsUtils.ShortTokenIsExposed` | src/test/java/nz/co/sundar/testautomation/restfulbooker/utils/AssertionsUtils.java:206 | A token of four to eight characters can be rebuilt entirely from its mask. |
| `AssertionsUtils.MaskIffEnds` | src/test/java/nz/co/sundar/testautomation/restfulbooker/utils/AssertionsUtils.java:206 | Two tokens have the same mask iff they share their first four and last four characters. |
| `AssertionsUtils.AssertAuthValidResponse` | src/test/java/nz/co/sundar/testautomation/restfulbooker/utils/AssertionsUtils.java:200-218 | Validated iff the status matches and the token is non-null, at least four characters long and not blank; the pass line shows only the mask. A null response, or a null or short token, is logged and rethrown. A wrong status or a blank token fails unlogged. |

## Findings

| source | as written | input that shows it | evidently intended | confidence | as-written member | corrected member |
|---|---|---|---|---|---|---|
| src/test/java/nz/co/sundar/testautomation/restfulbooker/tests/DeleteBookingTests.java:143-155 | `deleteWithNoAuthTest` checks the "no authentication" case through `deleteTestBookingId("1", "")`, which retries a 403 with a freshly fetched token. | The service answers 403 to the empty token, accepts the fresh token, and deletes booking 1 with 201: the call returns 201, not the 403 the test expects. | Send the empty token once through `deleteBookingWithNoAuthTest(1, "")`, which returns the service's 403 as it came. | not executed; medium | `BookingUtils.RejectedCallerTokenIsReplaced` | `BookingUtils.NoAuthDeleteKeepsRejection` |

## Left out

- Transport: RestAssured, HTTP, cookies, content types and the base URL. Each request is one call of the `Service` oracle.
- `invalidateToken` is called but not defined in `TokenManager.java`. It is modelled as setting the static token to null and sending nothing, as the call site's comment says.
- `sendUpdateRequest` and `sendDeleteRequest` are called but not defined in `TokenManager.java`. Each is modelled as one server call carrying the token. The update carries a body, and the delete carries no body.
- `generateTokenResponse` is called but not defined in `TokenManager.java`. It is modelled as one authentication call carrying the given username and password, with no token, whose raw reply is returned and which leaves the cache alone.
- The authentication payload text and the configuration lookup (`ConfigReader`) are not modelled. The credentials are a parameter, and the request carries them as two fields.
- The messages the JVM gives a `NullPointerException` or a `StringIndexOutOfBoundsException` are parameters (`npe`, `exceptionMessage`). The text of a wrapping `RuntimeException` is not modelled; only the fact that it propagates is (`Rethrown`).
- The test classes, `PojoUtils`, `ReportManager` and the CSV data sources are not part of this model. The report is an append-only list.
- `Booking.java`, `BookingDates.java` and `BookingId.java` are not part of this model. The fields the assertions read are modelled as datatypes.
- `createTestBooking` with seven arguments, and `createInvalidBooking`, serialise through Jackson or `createInvalidBookingPayload`, which `BookingPayloads.java` does not define. The invalid payload is a parameter.
- `getSpecificBookingId` and `getAllBookingIds` are plain single GETs with no logic of their own.
- Thread safety: the token field is unsynchronised static state. The model is one sequential run.
- The text block's line breaks and indentation are removed, except for one space after each comma and after each colon. JSON readers ignore that whitespace.
- `JavaText.IntToString`: `%d` in `String.formatted` writes digits of the default locale; the model assumes a locale with ASCII digits and a `-` sign.
- `int` width: the core does no arithmetic on ids, prices or status codes, so they are unbounded integers here.
- A reply whose body is not JSON, where `jsonPath()` would throw, is not modelled. The JSON fields are a map of top-level strings.
- `AssertionsUtils.AssertErrorResponse`: the thrown `RuntimeException` is not modelled as wrapping the caught exception; only the report line and the outcome are stated.
- `AssertionsUtils.MaskToken`: Java's `length()` and `substring` count UTF-16 code units, while a Dafny string counts Unicode scalar values. Only tokens made of Basic Multilingual Plane characters (one code unit each) are modelled faithfully; a token such as two emoji is four units long in Java and is masked there, but has no mask here.
- `AssertionsUtils.AssertAuthValidResponse`: for the same reason its four-character threshold is stated for BMP-only tokens; a token with characters outside the BMP may be validated in Java where the model rethrows.
- `assertBookingIdListResponse` and `assertDeleteBookingResponse` take a `reportManager` parameter that shadows the static field: the soft checks log to the static instance, while the size line, the exception handler and `assertAllErrors` log to the parameter. The model keeps one report, taking both to be the single `ReportManager.getInstance()` that every caller passes.
