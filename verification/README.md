# Chat session memory of the MultiquipUIFastApi backend

This project models the per-session conversation memory of the `/chat`
endpoint of the FastAPI backend (`main.py`). The backend keeps
`session_storage`, an in-process dictionary from a session id to a list of
`{"role", "content"}` turns. For each request it does the following:

1. It creates an empty list for an unseen id.
2. It appends the user's turn.
3. It builds the outbound payload with a context-pinning window. A log longer
   than twelve turns is sent as its first 2 turns followed by its last 10.
   A shorter log is sent whole.
4. It posts that payload upstream.
5. On a 200 response it extracts a reply from the decoded body and appends
   it as the assistant's turn.
6. On each path that the handler catches, it pops the user's turn again.
   These paths are a non-200 status, an `httpx.RequestError`, and any other
   `Exception`. The last includes a body that does not decode and a list
   reply whose first element is not an object.
7. A cancellation of the request's task while it awaits the upstream call
   raises `asyncio.CancelledError`. That is a `BaseException`, which neither
   `except` clause catches. The user's turn then stays in the log, and no
   assistant turn follows it.

Layout:

- `wrappers.dfy`: module `Wrappers`, the `Option` and `Result` types. A
  `Result` stands in for a Python call that may raise.
- `json_values.dfy`: module `JsonValues`, the decoded JSON values Python hands
  to the endpoint, and the Python type name of each.
- `digits.dfy`: module `Digits`, Python's `str()` on an integer. It is used
  to print the status code in the error reply.
- `history.dfy`: module `History`, the turns and the 2 + 10 window as pure
  functions with lemmas.
- `reply.dfy`: module `Reply`, reply extraction, the outcome of the upstream
  call, the error texts, and the `reply` value the endpoint returns.
- `session.dfy`: module `Session`. It holds the class `SessionStore`, whose
  `sessions` map field is `session_storage`. Its method `ChatExchange` is the
  endpoint. The module also holds the pure function `Exchanged`, which
  specifies one exchange, and lemmas over series of exchanges.

The upstream HTTP call is a parameter of `ChatExchange`, of type `Outcome`:

- `Response(status, body)`: a response arrived. `body` is the decoded JSON,
  or the decoder's error message.
- `TransportError(detail)`: an `httpx.RequestError` was raised.
- `OtherError(detail)`: any other `Exception` was raised while calling.
- `Cancelled`: the task was cancelled while awaiting the call.

The method returns the payload that would be posted. It also returns the
`reply` value, which is absent for a cancelled request.

Notes on what the code does:

- The window keeps the last 10 turns (`main.py:92-95`). The comment at
  `main.py:87` says "Last 20", and the model follows the code.
- A body that is neither a non-empty list nor an object is recorded as
  "Empty response" (`main.py:118-119`). This includes an empty list.
  "No content" is only the default for a missing `content` key
  (`main.py:115`, `main.py:117`).
- A non-empty list whose first element is not an object makes `.get` raise
  `AttributeError` (`main.py:115`). The generic handler catches it
  (`main.py:133-135`). The user turn is rolled back, and the reply is a
  "System Error" text carrying Python's message for it.
- An assistant turn's content is whatever JSON value `content` holds, not
  necessarily a string (`main.py:115-117`). Turns therefore carry a `Json`
  content.

## Model

| member | source | states |
|---|---|---|
| History.Window | main.py:92-97 | a log of at most 12 turns is returned unchanged; a longer log gives exactly 12 turns, position i < 2 holding log[i] and position i >= 2 holding log[len-12+i] (the last ten); a non-empty log's window ends with the log's last turn |
| History.Kept | main.py:94-97 | the positions a window keeps are below the log length and strictly increasing (order kept, no turn sent twice) |
| History.Pick | main.py:95 | taking positions from a log yields one turn per position, the turn at that position |
| History.WindowIsSubsequence | main.py:94-97 | the window is exactly the subsequence of the log at the kept positions: the first two and the last ten, or all of them |
| History.WindowAt | main.py:94-97 | the k-th turn of the window is the log's turn at the k-th kept position |
| History.KeptAt | main.py:94-97 | the k-th kept position is k for short logs and for the two pinned turns, and len-12+k for the rest |
| History.PinnedTurnsStable | main.py:87-95 | once a log has two turns, every window of any longer log that extends it starts with those same two turns |
| JsonValues.TypeName | main.py:114-116 | the Python type name of a decoded value is "dict" exactly for objects and "list" exactly for arrays; it is what the `.get` failure message names |
| Reply.ContentOf | main.py:115-117 | `get("content", "No content")`: the stored content if the key is present, otherwise "No content" |
| Reply.ParseReply | main.py:114-119 | extraction fails exactly when the body is a non-empty list whose first element is not an object, with Python's has-no-`get` message; an object, or a list headed by an object, yields that object's `content` or "No content" when the key is missing; a result other than the two defaults comes from a `content` key; a non-list non-object or an empty list yields "Empty response" |
| Reply.ParseReplyExamples | main.py:114-119 | `[{"content":"Part ABC123"}]` yields "Part ABC123"; `{}` yields "No content"; `[]` yields "Empty response"; `["x"]` fails naming `str` |
| Reply.Resolve | main.py:112-135 | for a request that was not cancelled: it succeeds exactly when the status is 200, the body decodes and extraction succeeds, and then the reply is the extracted value; any other status is an HTTP error carrying that code; a transport error becomes a connection error carrying its message, and only it does; another exception, a decoding error and a `.get` failure become a system error carrying that message |
| Reply.NoGetMessage | main.py:115 | the `AttributeError` message is the value's Python type name in quotes followed by ` object has no attribute 'get'` |
| Reply.ErrorText | main.py:125-135 | the HTTP error text is `**Error `, the decimal status code, then `:** Unable to fetch data.`; the connection text is `**Connection Error:** ` followed by the message; the system text is `**System Error:** ` followed by the message |
| Reply.ReplyValue | main.py:124-135 | the returned `reply` is the assistant's reply on success and the error text otherwise |
| Reply.ErrorTextDeterminesStatus | main.py:128 | two different status codes never produce the same error reply |
| Digits.NatDigits | main.py:128 | a natural number prints as a non-empty string of decimal digits without a leading zero |
| Digits.Decimal | main.py:128 | an integer prints as digits without a leading zero, with a leading minus sign exactly when it is negative, and those digits read back as the integer's absolute value |
| Digits.NatDigitsRoundTrip | main.py:128 | reading the printed digits back gives the original number |
| Digits.DecimalInjective | main.py:128 | distinct integers print as distinct strings |
| Session.Exchanged | main.py:81-135 | after a successful exchange the log is the old log as an unchanged prefix followed by exactly the user turn and then the assistant turn; after a caught failure the log equals the pre-request log; after a cancellation the log is the old log followed by the user turn alone |
| Session.Cancellations | main.py:99-135 | the cancelled requests and the committed ones together number at most the requests, since no request is both |
| Session.ReplayGrowth | main.py:81-135 | over any series of exchanges the log is never truncated (the old log stays a prefix) and grows by exactly two turns per successful exchange and one per cancelled exchange |
| Session.FailuresLeaveNoTrace | main.py:125-135 | any number of exchanges that end in a caught failure leave the log as it was |
| Session.ThreeExchangesFromFresh | main.py:81-97 | a fresh session after three successful exchanges holds six turns, and the next payload is the whole seven-turn log |
| Session.LongSessionKeepsLatestExchange | main.py:85-97 | a 14-turn log becomes 16 turns after a successful exchange; the next payload has 12 turns, starts with the log's first two, and ends with the previous user turn, its assistant reply and the new message |
| Session.PayloadEndsWithMessage | main.py:85-97 | the payload is built after the append, so it is non-empty, at most 12 turns long, and ends with the user turn just added |
| Session.ServerErrorScenario | main.py:125-128 | a 500 response gives the reply `**Error 500:** Unable to fetch data.` and leaves the log unchanged |
| Session.SessionStore.constructor | main.py:34 | the store starts with no sessions |
| Session.SessionStore.RecordUserTurn | main.py:80-85 | an unseen id gets a log holding exactly the user turn; a known id's log gets the user turn appended at its end; every other entry is unchanged |
| Session.SessionStore.AppendTurn | main.py:85 | appends one turn to the end of one session's log; every other entry is unchanged |
| Session.SessionStore.PopTurn | main.py:127 | removes and returns the last turn of one session's log; every other entry is unchanged |
| Session.SessionStore.Settle | main.py:112-135 | with the user turn on top of the session's log, the entry becomes `Exchanged` of the log below it: the assistant turn appended on success, the user turn popped on a caught failure; no other entry changes; the reply is the extracted value or the formatted error text |
| Session.SessionStore.ChatExchange | main.py:75-135 | the session's entry becomes `Exchanged` of its old log (an empty log for an unseen id, which keeps its entry even when the exchange fails); no other session's entry changes and no entry disappears; the payload is the window of the old log plus the new user turn; the reply is the extracted value or the formatted error text, and there is none for a cancelled request |

## Left out

- The HTTP call to the upstream API is left out, together with its 300-second timeouts, credentials, URL and JSON encoding of the payload (`main.py:99-113`). It is the `Outcome` parameter of `ChatExchange`.
- The text of exception messages (`str(e)`) for transport errors, other exceptions and JSON decoding errors is not modelled. Each is an opaque string carried in the `Outcome`. The exception is the `AttributeError` raised by `.get` on a non-object, whose message the model spells out.
- Decoded JSON numbers are integers or reals. NaN and infinities, which Python's decoder accepts, are not modelled. They only matter as content values, which are stored unchanged.
- Concurrency is left out. Two requests on the same session interleaving at the `await` could make a rollback pop the other request's turn. Each exchange is modelled as atomic.
- Cancellation is modelled only as the `Cancelled` outcome, at the `await` of the upstream call. `BaseException`s other than `asyncio.CancelledError`, such as `KeyboardInterrupt` or `SystemExit`, are not modelled. Like a cancellation, they would leave the user's turn in the log.
- Sessions are never evicted, and neither the source nor the model removes an entry.
- The `/feedback` endpoint (`main.py:137-186`) is left out. It is file I/O on `User_Feedback.json` plus a best-effort HTTP mirror.
- The `/` user-agent template choice (`main.py:62-73`) is left out. It is a call into the `user_agents` library.
- The static file allow-list (`main.py:189-208`) is left out. It is a set lookup plus a filesystem check.
- The `/send-email` endpoint and `email_utils.py` (HTML template, PDF conversion, SMTP) are left out. They are library calls with no logic of their own.
- FastAPI and pydantic wiring, `load_dotenv` and `uvicorn.run` are left out.
