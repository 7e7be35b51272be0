# vk-api long poll, modelled in Dafny

This project models the Go client library `vk_api` for the VK API. The centre is
the long-poll session of `longpoll.go`: a `LongPoll` object holds the server
address `Server`, the session key `Key` and the cursor `TS`. `NewLongPoll` fills them
through the API method `messages.getLongPollServer`. Each `Poll` sends one
request built from them, reads the `failed` code of the reply, and decodes the
new-message records (type code 4) of the `updates` list into `Message` values.
Around it sit two smaller decision procedures. `auth.go` validates the three
authentication strategies and reads the OAuth reply. `vk.go` assembles the query of an
API method call and reads the reply envelope.

Files and modules:

- `wire.dfy`, module `Wire`: decoded JSON (`JValue`), the library's errors
  (`Error`), `Result`/`Option`, the outcome of one HTTP round trip (`Reply`),
  and an issued GET request (`Get`: the URL up to `?` and the query map).
- `decimal.dfy`, module `Decimal`: `fmt.Sprint` of an integer (used for the
  cursor in the poll query) and the proof that the text reads back as the same number.
- `auth.dfy`, module `Auth`: the strategies as a tagged variant, the device
  constants, `Validate`, `ExchangeToken` and `RetrieveAccessToken`.
- `vk.dfy`, module `Vk`: `Client`, `NewClient`, `QueryFor` and the loop
  `BuildQuery`, `Envelope`, and `Request`.
- `longpoll.dfy`, module `LongPolling`:
  - the flag constants and `Message.HasFlag`;
  - record decoding: `DecodeRecord`, the reference function `DecodeAll`, and the loop `DecodeUpdates`;
  - the decoding of the refresh reply into the session (`Overlay`);
  - the class `LongPoll` with `Update` and `Poll`, and `NewLongPoll`.

Each HTTP round trip is an input of type `Reply<T>`. It is either the error of the
request, of reading the body or of parsing it (`Failed`), or the decoded value (`Received`).
Every operation of the long-poll session, and `Vk.Request`, also returns the `Get`
values it sent, in order. This is how "exactly one refresh, and no second poll" is
stated. For the OAuth strategies the request is the `Exchange` grant of `Auth.Validate`,
and `Auth.NoRequestUnlessExchange` shows that the OAuth reply matters only then. A Go runtime panic
is the error value `Panic(...)`: the call ends there, and the state stays as it was
at that point.

The model follows the code where the code differs from what a reader of a long-poll
client might expect, or, for `HasFlag`, from its own doc comment (longpoll.go:132):

- On codes 2 and 3, `Poll` refreshes the session once and returns the refresh's error, or no messages and no error. It does not poll again.
- On any other unknown code, `Poll` returns no messages and no error.
- A refresh overwrites only the members present in its reply. It does not replace the session wholesale.
- `HasFlag` compares the AND with 1. It does not test the flag's own bit.

`HasFlag` is kept as written. Its contract and three lemmas record what it
actually answers: every flag except UNREAD is always reported present, and
UNREAD is reported exactly when its bit is clear. So a message with no flags is
reported to carry all ten flags. `Carries` states the intended bit test, and it is
used only in those lemmas.

## Model

| member | source | states |
|---|---|---|
| `Decimal.DecimalString` | longpoll.go:76 | the decimal text of the cursor is well formed and reads back as the same integer, so distinct cursors give distinct `ts` parameters; it is the one canonical spelling, with no leading zero and no "-0" |
| `Decimal.ParseNatString` | longpoll.go:76 | reading back the digits of a natural number gives that number |
| `Auth.Validate` | auth.go:49-87 | NoAuthentication: its token is accepted exactly when it is non-empty, else "invalid access token". DirectAuthentication: a nil device fails with the device error whatever the login; otherwise it succeeds exactly when username and password are both non-empty, and then it requests `https://oauth.vk.com/token` with grant_type=password, the device's id and secret, the username and the password. ClientCredentialsFlow: it succeeds exactly when both ids are non-empty, and then it requests `access_token` with grant_type=client_credentials, client_id and client_secret |
| `Auth.ExchangeToken` | auth.go:89-122 | a transport, read or decode error is passed on. A non-empty `error` fails with `error_description`, even when a token is present. An empty token fails with "invalid access token". Success happens exactly when there is no error and the token is non-empty, and then it returns that token |
| `Auth.RetrieveAccessToken` | auth.go:49-122 | validation failures come first; a held token is returned; otherwise the OAuth reply decides. Every success, for every strategy, is a non-empty token |
| `Auth.NoRequestUnlessExchange` | auth.go:49-87 | a strategy that rejects its credentials or holds its token gives the same result whatever the OAuth server would answer, so no request is made before validation |
| `Vk.NewClient` | vk.go:26-32 | a client exists exactly when the strategy yields a token, and it holds that non-empty token; otherwise the strategy's error is returned |
| `Vk.QueryFor` | vk.go:36-44 | the query has exactly the parameter keys plus `access_token` and `v`. Every parameter keeps its own value, so a parameter named `access_token` or `v` overrides the default. Otherwise the token and version "5.68" remain |
| `Vk.BuildQuery` | vk.go:36-44 | setting the parameters one by one, in any order the map yields them, gives exactly `QueryFor`; the result does not depend on the order |
| `Vk.Envelope` | vk.go:57-76 | transport, read and decode failures are passed on. A body that is neither an object nor null fails to decode; a null body has no members and fails with "no response returned". An `error` member fails with `error #code: msg`, even beside a `response`; its code and message default to 0 and "" when absent or of the wrong kind. Otherwise `response` is returned unchanged. With neither member the call fails with "no response returned". A JSON null `error` or `response` member panics |
| `Vk.Request` | vk.go:35-77 | sends one GET to `https://api.vk.com/method/<name>` with `QueryFor(token, params)`, and the result is `Envelope` of the reply |
| `LongPolling.Message.HasFlag` | longpoll.go:133-135 | as written: every even flag (OUTBOX to MEDIA) is always reported present, and UNREAD is reported exactly when the mask is even; for any argument, including a combination of flags, the test answers false only when both the mask and the argument have bit 0 set |
| `LongPolling.UnreadIsInverted` | longpoll.go:132-135 | for UNREAD the test answers the opposite of "the bit is set", on every mask |
| `LongPolling.EmptyMaskHasEveryFlag` | longpoll.go:132-135 | a message with no flags is reported to carry each of the ten flags, so the promise of the doc comment fails for every flag |
| `LongPolling.UnreadChatMask` | longpoll.go:132-135 | for the mask UNREAD with CHAT, the test denies UNREAD, which is set, and affirms OUTBOX, which is not |
| `LongPolling.DecodeRecord` | longpoll.go:108-118 | a record is malformed exactly when it is empty, its type code is not a number, or it is type 4 with fewer than 7 positions or a position of the wrong kind. Any other type is skipped. A decoded message takes ID, Flags, PeerID, Timestamp, Text and Attachments from positions 1 to 6 (it re-encodes to them), and its Subject is empty |
| `LongPolling.AttachmentsMustBeObject` | longpoll.go:112-118 | a new-message record whose position 6 is not an object, such as the text "{}", is malformed, so the poll that carries it panics |
| `LongPolling.RecordRoundTrip` | longpoll.go:112-119 | encoding a message with an empty subject as a type-4 record and decoding it gives the same message, whatever positions follow |
| `LongPolling.DecodeAllAppend` | longpoll.go:107-120 | the messages of two lists of records are those of the first followed by those of the second, and one malformed record makes the whole list fail |
| `LongPolling.DecodeAllSucceeds` | longpoll.go:107-120 | decoding a list succeeds exactly when no record in it is malformed |
| `LongPolling.SkippedRecordChangesNothing` | longpoll.go:108-110 | a record of another type can be removed without changing the result |
| `LongPolling.DecodeAllSelectsNewMessages` | longpoll.go:104-120 | on success there is exactly one message per record whose type code is 4, decoded from that record, in the order of the records |
| `LongPolling.DecodeEncodedBatch` | longpoll.go:104-120 | a list of encoded messages decodes to exactly those messages |
| `LongPolling.DecodeUpdates` | longpoll.go:107-120 | the decoding loop, visiting the records in order, returns exactly the messages `DecodeAll` gives, and panics exactly when `DecodeAll` fails, that is when some record is malformed |
| `LongPolling.Overlay` | longpoll.go:64 | decoding the refresh reply into the session: each of `server`, `key` and `ts` present with the right kind overwrites its field. An absent or null member keeps the prior value. A wrong-kind member keeps the prior value and makes the decode report an error, while the other members are still taken. A value that is neither an object nor null is an error and changes nothing |
| `LongPolling.CompleteReplyReplacesSession` | longpoll.go:64 | a reply carrying all three members replaces the whole session, and nothing of the old one survives |
| `LongPolling.OverlayIdempotent` | longpoll.go:64 | decoding the same reply twice has the effect of decoding it once |
| `LongPolling.FailedRefreshKeepsSession` | longpoll.go:56-63 | a refresh whose API call fails returns that error with the session unchanged |
| `LongPolling.PollQuery` | longpoll.go:73-81 | the poll query has exactly act=a_check, key=Key, ts=TS in decimal, version=2, wait=25 and mode=2 |
| `LongPolling.LongPoll.constructor` | longpoll.go:48 | a new session holds its client, an empty server and key, and cursor 0 |
| `LongPolling.LongPoll.Update` | longpoll.go:55-68 | sends `messages.getLongPollServer` with need_pts=0 and lp_version=2. A failed call returns its error with the fields unchanged; otherwise the new fields and the error are `Overlay` of the old fields with the response |
| `LongPolling.LongPoll.Poll` | longpoll.go:72-130 | sends exactly one poll built from the session as it was. A failed round trip returns its error with no state change. Code 0 returns `DecodeAll` of the updates and takes the reply's `ts`, but a malformed record panics before `TS` is assigned. Code 1 returns nothing and takes `ts`. Codes 2 and 3 make exactly one refresh and no second poll: they return its error or nothing, and the session is the refreshed one, not the reply's `ts`. Any other code returns nothing, with no error and no change |
| `LongPolling.NewLongPoll` | longpoll.go:47-53 | a session is handed out exactly when its first refresh reports no error, and then holds the refreshed fields |

`DecodeAll`, `NewMessageRecords`, `Refreshed`, `RefreshCall`, `EncodeRecord` and
`Carries` are specification functions used by the contracts above. `ExampleSession`
walks the following example through the contracts. Bootstrap `{server:
"example.com/poll", key: "K1", ts: 100}`, then poll `{failed: 0, ts: 101, updates:
[[4,555,0,777,1600000000,"hi",{}]]}`. The result is one message, and the cursor becomes 101.

## Left out

- `upload.go` is not part of this model: it builds a multipart body from a file on disk and posts it.
- The HTTP requests, reading the response bodies and URL encoding are not modelled. Each round trip is a `Reply` input, and each request is a `Get` value carrying its query as a map.
- JSON parsing is not modelled: replies arrive already decoded.
- JSON numbers are whole numbers (`JNum(int)`). The `float64` step with its `int64` truncation, fractional numbers, and numbers outside the int64 range are left out.
- `TS`, the message fields and `failed` are unbounded integers, not `int64`. Only `HasFlag` reads 64-bit words, because its answer depends on the bits.
- encoding/json matches struct fields case-insensitively, so `"Server"` would also fill `Server`. The model matches member names exactly.
- `Vk.Envelope`: the response is returned as the decoded value, not as the exact bytes of the raw message.
- The parameters of an API call are taken as strings. The `fmt.Sprint` of arbitrary Go values is not modelled, and neither is the version constant 5.68 as a float: the version is the string "5.68".
- `LongPolling.LongPoll`: the session keeps a copy of the client (`Vk.Client` is a value), where Go keeps a pointer to it. A later change to the client's `AccessToken` is not seen by the session's refreshes; each refresh carries the token the client had when the session was created.
- The contents of a message's attachments map are carried along but not interpreted.
- The 25-second hold of a long poll, and blocking in general, are not modelled.
- A panic is an error value here. The model does not capture unwinding through the caller.
