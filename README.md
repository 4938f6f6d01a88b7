# tonconnect session handshake — a Dafny model

This project models the handshake core of a TON Connect client session
(`connect.go`): how a wallet-bridge reply is turned into an error of the
connection, item or disconnection phase; how the capability replies of a
"connect" event are split into successes and one joined error; and how
`Session.Connect` and `Session.Disconnect` update the session fields
`LastRequestID`, `ClientID` and `BridgeURL` from the messages they receive.

The Go code runs each consumer as a goroutine reading a channel that several
bridge subscriptions feed. Here each consumer is a method of the `Session`
class that walks a sequence of already-received messages in delivery order.
Running out of messages stands for the cancellation of the wait (`ctx.Err()`).

Files:

- `wire.dfy` (module `Wire`): Go's `uint64`/`int64` as ranged integers with the
  two's-complement conversions, the message records, and `strconv.FormatUint`
  with its inverse.
- `errors.dfy` (module `Errors`): the error taxonomy, the three code tables,
  `errors.Join`, and the exact error texts.
- `items.dfy` (module `Items`): `getConnectItems` as a loop, proved against two
  specification functions.
- `handshake.dfy` (module `Handshake`): the `Session` class and the outcome
  functions its methods are proved against, with the lemmas about them.

Some behaviours of the code are worth stating outright, because a reader of
the protocol might expect otherwise:

- The disconnect consumer returns after the FIRST message it receives
  (connect.go:104-125). When that message's id does not match the request id,
  the consumer ends with no error of its own and does not cancel. It never
  reads the correlated reply. The Go call then keeps waiting in `g.Wait()`
  until the caller's context ends or a bridge subscription fails. The model
  records this consumer verdict as `err == None` with `correlated == false`.
  `DisconnectExamples` shows a reply with id 7 to request 6.
- `LastRequestID` is not monotone. Every parsed id overwrites it, including a
  smaller one (connect.go:40-43, 99-102). `HarvestOverwrites` shows 5 becoming 3.
- The connect consumer harvests the id only from the "connect" event. Other
  messages' ids are ignored (connect.go:37-43).
- In the connection phase, code 400 has no entry: a bare 400 in a
  `connect_error` payload is "unknown connection error" (connect.go:144-157).
  Only the item phase and the disconnection phase map 400.
- The Go errors are `fmt.Errorf` strings, not typed values. The model keeps
  a typed `Error` and gives the exact text in `Errors.Text`. An explicit wire
  message can produce the same text as a coded error
  (`ExplicitMessageImitatesCode`).

## Model

| member | source | states |
|---|---|---|
| Wire.ToUint64 | connect.go:42 | `uint64(msgID)` is congruent to the id modulo 2^64 and lies in the uint64 range |
| Wire.ToInt64 | connect.go:104 | `int64(id)` is congruent to the id modulo 2^64 and lies in the int64 range |
| Wire.Int64RoundTrip | connect.go:101-104 | a harvested id converted to uint64 and back compares equal to the wire id |
| Wire.Uint64RoundTrip | connect.go:101-104 | a request id converted to int64 and back is the request id |
| Wire.Decimal | connect.go:80 | the decimal rendering is a non-empty digit string that starts with '0' only for zero, and is "0" for zero |
| Wire.ParseDecimal | connect.go:80 | the value of a k-digit string is below 10^k, and below 10^(k-1) when it has a leading zero |
| Wire.FormatUint | connect.go:80 | the request id string is a non-empty digit string with no leading zero |
| Wire.DecimalRoundTrip | connect.go:80 | parsing the decimal string of a number gives the number back |
| Wire.ParseDecimalRoundTrip | connect.go:80 | rendering the value of a canonical digit string gives the string back |
| Wire.FormatUintInjective | connect.go:77-80 | distinct request ids are sent as distinct strings |
| Errors.ConnectError | connect.go:139-158 | a non-empty message is returned verbatim and the code is ignored; otherwise codes 1, 2, 3, 100 and 300 map to bad request, manifest not found, manifest content error, unknown app and user declined, and every other code to unknown connection error |
| Errors.DisconnectError | connect.go:107-121 | a non-empty message is returned verbatim; otherwise 1 is bad request, 100 unknown app, 400 "sendTransaction" not supported, anything else unknown disconnection error |
| Errors.ItemError | connect.go:164-174 | a non-empty message is returned verbatim; otherwise 400 is "method not supported" and any other code "method unknown error", both naming the item |
| Errors.Join | connect.go:180 | `errors.Join` gives no error exactly for an empty list, otherwise one error holding the list in order |
| Errors.Text | connect.go:141-156 | every error text starts with the "tonconnect: " prefix |
| Errors.JoinedText | connect.go:180 | the joined text starts with the text of the first error |
| Errors.MessageOverridesCode | connect.go:140-142 | in all three phases two payloads with the same non-empty message map to the same error, whatever their codes |
| Errors.PhaseDefaultsDiffer | connect.go:112-121 | the connection and disconnection tables agree on codes 1 and 100; a code in neither table maps to different phase defaults |
| Errors.Code400ByPhase | connect.go:144-157 | a bare 400 is unknown in the connection phase, "not supported" for the item's own name and for "sendTransaction" on disconnect |
| Errors.Quote | connect.go:170-172 | the quoted name is the name with one double quote added on each side |
| Errors.MethodNotSupportedText | connect.go:170 | the text for an unsupported method "b" is `tonconnect: "b" method is not supported` |
| Errors.ExplicitMessageImitatesCode | connect.go:140-146 | a message "bad request" and code 1 give different errors with the same text |
| Items.Successes | connect.go:175-177 | the success list is no longer than the input and holds only error-free input items |
| Items.ItemErrors | connect.go:164-174 | the error list is no longer than the input and holds only item-phase errors |
| Items.GetConnectItems | connect.go:160-181 | the loop returns exactly the error-free items in order, and the join of the mapped item errors in order |
| Items.SplitDistributes | connect.go:163-178 | both lists distribute over concatenation of the input, so input order is kept |
| Items.SuccessesDistribute | connect.go:175-177 | the success list of a concatenation is the concatenation of the success lists |
| Items.ItemErrorsDistribute | connect.go:164-174 | the error list of a concatenation is the concatenation of the error lists |
| Items.SplitOne | connect.go:164-177 | a single item goes to the success list if it has no error, otherwise its mapped error goes to the error list |
| Items.SplitCounts | connect.go:163-178 | success count plus error count equals the input length |
| Items.SuccessesExactly | connect.go:175-177 | an item is in the success list iff it is in the input and has no error |
| Items.NoErrorsIff | connect.go:164-174 | the error list is empty iff no item carries an error |
| Items.AllSucceed | connect.go:175-177 | when no item carries an error the success list is the whole input |
| Items.JoinAbsentIff | connect.go:180 | the joined error is absent iff no item carries an error, iff every item is returned as a success |
| Items.PartialSuccessExample | connect.go:160-181 | items a (ok) and b (code 400) give successes [a] and a joined error holding "method not supported" for b |
| Handshake.Harvest | connect.go:40-43 | an unparsed id leaves the counter unchanged; a parsed id becomes the counter, read back as the same int64 |
| Handshake.NextRequestID | connect.go:77 | `LastRequestID + 1` wraps to 0 exactly at the largest uint64 |
| Handshake.FirstTerminal | connect.go:32-53 | the index found holds "connect" or "connect_error" and no earlier message does; none is found only if no message is terminal |
| Handshake.OnConnect | connect.go:37-50 | a "connect" event never reports cancellation; it has no error iff no item failed, and then returns every item; otherwise one joined error, with successes plus errors equal to the item count |
| Handshake.ConnectOutcome | connect.go:32-55 | the wait is cancelled iff no terminal event arrives; a cancelled wait and a connect_error leave the session unchanged and return the empty response |
| Handshake.RequestFor | connect.go:79-83 | the request has method "disconnect", no params, and an id string that parses to `LastRequestID + 1` modulo 2^64 |
| Handshake.ReplyOutcome | connect.go:104-125 | a message without an error never fails the consumer; a failure is a disconnection-phase error of a message whose parsed id is the request id, and a non-empty message is returned verbatim |
| Handshake.DisconnectOutcome | connect.go:77-125 | ClientID and BridgeURL never change; a correlated reply needs a successful send and a received message; a protocol error only comes from a correlated reply |
| Handshake.Session.Connect | connect.go:32-55 | the connect loop leaves the session and returns the response and error given by the connect outcome of the old session and the messages |
| Handshake.Session.Disconnect | connect.go:77-125 | Disconnect returns the request, the error and whether the reply was correlated (the consumer cancels), and leaves the session, as given by the disconnect outcome of the old session, the send result and the messages |
| Handshake.ConnectDecidedByFirstTerminal | connect.go:32-53 | with no terminal event the wait is cancelled and nothing changes; the first "connect" writes the session and returns the split items; the first "connect_error" fails with the mapped error |
| Handshake.ConnectWinnerWrites | connect.go:37-50 | on "connect", ClientID and BridgeURL come from the message, the id is harvested, the device is returned, the items are exactly the successes, and the error is absent iff no item failed |
| Handshake.ConnectFailureLeavesSession | connect.go:51-53 | a connect_error or a cancelled wait leaves every session field unchanged and returns the empty response |
| Handshake.ConnectIgnoresLaterMessages | connect.go:37-53 | messages after the first terminal one do not change the outcome (first responder wins) |
| Handshake.ConnectSkipsNonTerminal | connect.go:32-54 | non-terminal messages before the decisive one are skipped |
| Handshake.HarvestOverwrites | connect.go:99-102 | a parsed smaller id lowers the counter: 5 becomes 3 |
| Handshake.DisconnectRequestShape | connect.go:77-83 | the request id is the decimal string of `LastRequestID + 1` modulo 2^64, the method is "disconnect" and params are empty |
| Handshake.DisconnectCounter | connect.go:84-102 | Disconnect changes only the counter; a failed send leaves the session unchanged and fails; a successful send commits the request id unless the first reply's parsed id overwrites it |
| Handshake.DisconnectReply | connect.go:104-125 | after a successful send the first reply is correlated (and cancels) iff its id is the request id; Disconnect fails iff it is correlated and carries an error, and then with that error mapped by the disconnection table |
| Handshake.DisconnectFirstMessageDecides | connect.go:93-127 | messages after the first one play no part |
| Handshake.DisconnectExamples | connect.go:77-125 | from counter 5 the request id is "6"; reply 6 without error succeeds and leaves 6; reply 6 with code 1 is bad request; reply 7 is not correlated: the consumer stops with no error of its own, without cancelling, and leaves the counter at 7 |
| Handshake.ConnectDeclinedExample | connect.go:51-53 | a connect_error with code 300 after a non-terminal message fails as user declined, with the session unchanged |

## Left out

- The goroutines, `errgroup`, the message channel and `context` cancellation
  (connect.go:25-31, 58-66, 72-75, 93-98, 130-136). The consumers are modelled
  as sequential processing of the messages already delivered. The end of the
  sequence stands for cancellation.
- How `g.Wait()` combines the results of the tasks is not modelled. The
  bridge subscriptions' own return values are not part of this model. The
  model returns the consumer's result, and for Disconnect the send failure.
- Handshake.Session.Disconnect: the send and receive paths race in the Go
  code. The model fixes one order: the send completes, then the first message
  is judged. A failed send ends the call with no message received. So the
  model does not capture a reply harvested before the send commits its id.
- Handshake.Session.Disconnect: when `correlated` is false after a received
  message, the Go call does not return the consumer's nil. It blocks in
  `g.Wait()` until the caller's context ends or a bridge subscription fails.
  The model returns the consumer's verdict and does not model that wait.
- Handshake.Session.Disconnect: the id comparison `int64(id) == msgID` is
  modelled as a match only when the id parsed. The value `Int64()` returns
  on a parse failure belongs to a type that is not part of this model.
- `connectToBridge`, `sendMessage` and `getBridgeURLs` are not part of this
  model: they are the transport. The send result is a boolean parameter.
- The definitions of `bridgeMessage`, `payload`, `deviceInfo`, `Wallet`,
  `Session` and `bridgeMessageOption` are not part of this model. They are
  represented by the records in `wire.dfy`: the id after its tolerant parse
  as `Option<int64>`, the device as an uninterpreted record, the error as
  code plus message.
- JSON tags and encoding of the request and response (connect.go:13-22).
- Errors.Quote: Go's `%q` escapes quotes, backslashes and non-printable
  characters; the model only surrounds the name with double quotes.
- The package-level initialisers at connect.go:184-202 launch shell commands
  and have nothing to do with the handshake. They are not modelled.
