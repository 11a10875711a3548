# Chat rooms over GraphQL: page logic and subscription bookkeeping

This project models the core of a small chat application. It has a React
client talking to a GraphQL server through Apollo, and a Django Channels
server that pushes new messages over the graphql-ws subscription protocol.

- **Room page.** It keeps the cached room up to date as `newMessage`
  subscription events arrive (`updateQuery`). It opens the edit modal of
  the message whose Edit button was clicked. It sends
  `parseInt(message.id)` as the id of a message to delete. It shows the
  second member of the room as the counterpart.
- **Confirm-email page.** It sends the form's `email` value. On success it
  shows a notice and navigates to the dashboard. Otherwise it turns the
  server's `validationErrors` list into the form's error map.
- **Dashboard page.** It lists every user except the signed-in one. It
  asks to create a room with `[me.id, recipient]` and navigates to
  `dashboard/<room id>`, or logs the error the server returned.
- **Subscription server.** It covers the graphql-ws frame builder
  (`send_message`) and a connection's table of live operations:
  `on_connection_init`, `on_start`, `on_stop`, `unsubscribe`,
  `on_operation_complete` and `on_close`.

How the model is organised:

- The client callbacks are pure: each takes the server's answer and
  returns the effects it performs (alerts, navigation, `setErrors`, a log
  line) as values.
- The one loop on the client, `validationErrors.map(...)` writing into
  `errors`, is a method with a loop invariant. It is proved equal to a
  fold, and the lemmas are stated about that fold.
- The server keeps its per-connection state in the `Connection` class. Its
  operations table, the frames it sends and the iterators it disposes are
  fields that the methods update.
- JavaScript's `parseInt` is modelled on its own, far enough to say which
  number the delete request carries.

## Model

| member | source | states |
|---|---|---|
| RoomPage.UpdateQuery | client/src/pages/Room/index.js:19-30 | An event without data leaves the cache as it was. An event arriving while the room is null is a TypeError. Otherwise `newMessage` is appended after every earlier message, in order, whatever it is; a null `newMessage` is appended as null. The room's users, its typename and every other cache field are carried over. |
| RoomPage.ApplyAll | client/src/pages/Room/index.js:16-31 | After a run of events, the room's messages are the earlier messages followed by the delivered messages in arrival order. Users, typename and the rest of the cache are unchanged. |
| RoomPage.Delivered | client/src/pages/Room/index.js:20-21 | Defines the pushed messages in receipt order. Pushes that all carry data deliver one entry each, null messages included. Pushes that carry no data deliver nothing. |
| RoomPage.DeliveredTwice | client/src/pages/Room/index.js:20-25 | The same event pushed twice delivers its message twice. |
| RoomPage.DuplicatePushKeptTwice | client/src/pages/Room/index.js:25 | No de-duplication: an event received twice adds two entries to the cache, and, when its message is not null, two messages with its id. |
| RoomPage.EditOpensModalsOfSameId | client/src/pages/Room/index.js:53-80 | Clicking Edit on a message activates its modal. It activates exactly the modals of messages with the same id. With no modal chosen, none is active. |
| RoomPage.IsModalActive | client/src/pages/Room/index.js:80 | `i.id === modal`. While the modal state is undefined, no message's modal is active. |
| RoomPage.ClickEdit | client/src/pages/Room/index.js:53 | `setModal(i.id)`. The state it stores activates the clicked message's modal; EditOpensModalsOfSameId says which other modals open with it. |
| RoomPage.DeleteRequest | client/src/pages/Room/index.js:59 | `{ messageId: parseInt(i.id) }`. A number is sent only for an id that holds a decimal digit. A negative number is sent only when the id's first non-blank character is a minus sign. Which number is sent is stated by DeleteRequestOfDecimalId. |
| RoomPage.DeleteRequestOfDecimalId | client/src/pages/Room/index.js:57-59 | For a message whose id is the decimal numeral of n, the delete mutation carries the number n. |
| RoomPage.Counterpart | client/src/pages/Room/index.js:95 | The profile shown is the room's second user. It exists exactly when the room has at least two users. |
| RoomPage.CounterpartStable | client/src/pages/Room/index.js:25-95 | Incoming messages never change whose profile is shown. |
| JsParseInt.ParseInt | client/src/pages/Room/index.js:59 | `parseInt` without a radix. A blank string gives NaN. The result is negative only after a leading minus, and a leading minus never gives a positive result. The value is stated for inputs of these shapes: leading white space (ParseSkipsWhiteSpace), then an optional sign, then a decimal digit run with a tail that cannot continue it (ParseDigits, and ParseDecimal and ParseNegativeDecimal for canonical numerals), a "0x"/"0X" prefix with hexadecimal digits (ParseHexDigits) or without them (ParseHexWithoutDigits), or anything not starting with a digit (ParseNonNumeric). |
| JsParseInt.NumberNeedsDigit | client/src/pages/Room/index.js:59 | Only an input holding a decimal digit parses to a number. |
| JsParseInt.TrimStartKeeps | client/src/pages/Room/index.js:59 | Trimming leading white space keeps only characters of the input. |
| JsParseInt.DigitValue | client/src/pages/Room/index.js:59 | A character's digit value is at most 36. It is below 10 exactly for the characters 0-9. |
| JsParseInt.ParseMagnitude | client/src/pages/Room/index.js:59 | An unsigned digit run never parses to a negative number. |
| JsParseInt.DecimalString | client/src/pages/Room/index.js:59 | The decimal numeral of n is non-empty, all digits, and has no leading zero. |
| JsParseInt.DecimalValue | client/src/pages/Room/index.js:59 | The digits of the decimal numeral of n read back as n. |
| JsParseInt.DigitPrefixOfDigits | client/src/pages/Room/index.js:59 | Parsing stops at the first character that is not a digit. |
| JsParseInt.ParseDecimal | client/src/pages/Room/index.js:59 | `parseInt` of a decimal numeral followed by anything that is not a digit gives that number. A lone 0 followed by x or X is excluded (that is a hex prefix). |
| JsParseInt.ParseNegativeDecimal | client/src/pages/Room/index.js:59 | A minus sign before a numeral negates it. |
| JsParseInt.ParseSigned | client/src/pages/Room/index.js:59 | One optional sign before an unsigned string that starts with neither white space nor a sign: NaN stays NaN, and a minus negates the magnitude while a plus or no sign keeps it. |
| JsParseInt.MagnitudeOfDigits | client/src/pages/Room/index.js:59 | A decimal digit run, leading zeros allowed, with a tail that cannot continue it and no hex prefix, has its value as magnitude. |
| JsParseInt.ParseDigits | client/src/pages/Room/index.js:59 | A signed decimal digit run with such a tail parses to its value, negated after a minus: "007" is 7, "+5" is 5, "-5px" is -5. |
| JsParseInt.MagnitudeOfHex | client/src/pages/Room/index.js:59 | After "0x" or "0X", the hexadecimal digit run is read in radix 16 up to the first character that cannot continue it. |
| JsParseInt.ParseHexDigits | client/src/pages/Room/index.js:59 | A signed hexadecimal numeral parses to its value, negated after a minus: "0x1A" is 26, "-0x1A" is -26. |
| JsParseInt.ParseHexWithoutDigits | client/src/pages/Room/index.js:59 | A "0x" or "0X" prefix with no hexadecimal digit after it gives NaN. |
| JsParseInt.ParseSkipsWhiteSpace | client/src/pages/Room/index.js:59 | Leading white space is ignored. |
| JsParseInt.TrimAfterWhiteSpace | client/src/pages/Room/index.js:59 | Trimming skips any prefix of white space. |
| JsParseInt.ParseNonNumeric | client/src/pages/Room/index.js:59 | Leading white space, then at most one sign, then anything that does not start with a decimal digit, parses to NaN. This covers "", "-x", " +x" and an opaque base64 id. |
| JsParseInt.SignedNonNumeric | client/src/pages/Room/index.js:59 | The same without leading white space. |
| ConfirmEmailPage.ConfirmRequest | client/src/pages/ConfirmEmail/index.js:15-20 | The mutation carries the form's email value, and nothing when the form has none. |
| ConfirmEmailPage.Join | client/src/pages/ConfirmEmail/index.js:29-31 | The joined string has the length of the parts plus one separator between each pair of neighbours. One part joins to itself. |
| ConfirmEmailPage.KeyOf | client/src/pages/ConfirmEmail/index.js:28-34 | An entry is filed under "email" exactly when its field is "__all__" or "email". Every other entry is filed under "[object Object]". |
| ConfirmEmailPage.BuildErrors | client/src/pages/ConfirmEmail/index.js:26-36 | The loop builds exactly the map obtained by writing the entries in list order into an empty object. |
| ConfirmEmailPage.KeyPresent | client/src/pages/ConfirmEmail/index.js:26-36 | A key is in the error map if and only if some entry is filed under it. |
| ConfirmEmailPage.LastWins | client/src/pages/ConfirmEmail/index.js:28-34 | A key holds the value of the last entry filed under it. |
| ConfirmEmailPage.OnlyTwoKeys | client/src/pages/ConfirmEmail/index.js:33 | The map has no keys besides "email" and "[object Object]". An error for any other field is never filed under that field's name. |
| ConfirmEmailPage.EmailMessagesJoined | client/src/pages/ConfirmEmail/index.js:28-31 | After the last "__all__" or "email" entry, "email" holds its messages joined with one space. |
| ConfirmEmailPage.OtherMessagesUnjoined | client/src/pages/ConfirmEmail/index.js:32-34 | After the last entry for another field, "[object Object]" holds its messages unjoined. |
| ConfirmEmailPage.OnConfirmResult | client/src/pages/ConfirmEmail/index.js:21-39 | With no error: one alert "Check your email, please!", then navigation to the dashboard. With validation errors: one `setErrors` of the error map. With an error of any other type: no effect, and the promise is rejected. |
| DashboardPage.Recipients | client/src/pages/Dashboard/index.js:32-41 | Defines the listed users. Every listed user is one of the users and is not the signed-in user. Order and completeness are stated by RecipientsInOrder and RecipientsMembers. |
| DashboardPage.KeptIndices | client/src/pages/Dashboard/index.js:32-41 | The kept positions are exactly the users whose id is not the signed-in user's, in increasing order. |
| DashboardPage.RecipientsInOrder | client/src/pages/Dashboard/index.js:32-41 | The listed users are the users at the kept positions, in their original order. |
| DashboardPage.RecipientsMembers | client/src/pages/Dashboard/index.js:33 | A user is listed if and only if it is one of the users and is not the signed-in user. |
| DashboardPage.CreateRoomRequest | client/src/pages/Dashboard/index.js:8-14 | The room is requested for exactly two users, the signed-in user first and the recipient second. |
| DashboardPage.ClickRecipient | client/src/pages/Dashboard/index.js:8-35 | Clicking a listed user asks for a room of the signed-in user and that user. The recipient is never the signed-in user and is one of the users. |
| DashboardPage.OnCreateRoomResult | client/src/pages/Dashboard/index.js:15-21 | A null room rejects. The `error` is assumed to be an object (see "## Left out"), so `!error` holds exactly when it is null. Without one, there is exactly one navigation to "dashboard/" followed by the room id. With one, there is exactly one log of that error object and no navigation. |
| Common.CountWhere | client/src/pages/Room/index.js:25 | Defines the count that DuplicatePushKeptTwice uses. The count is zero exactly when no element matches. |
| Common.CountWhereAppend | client/src/pages/Room/index.js:25 | Counts add up over concatenation. |
| SubscriptionServer.BuildFrame | server/server/channels.py:53-62 | Each of "id", "type" and "payload" is present exactly when its argument is given, and holds that argument. No other key is present. The frame is empty only when all three are missing. |
| SubscriptionServer.FrameRoundTrip | server/server/channels.py:53-62 | A built frame reads back as the arguments it was built from. |
| SubscriptionServer.DataFrames | server/server/channels.py:91-96 | One data frame per result, in order. |
| SubscriptionServer.CompleteFrames | server/server/channels.py:103-122 | One GQL_COMPLETE frame per id, in order. |
| SubscriptionServer.OperationsOf | server/server/channels.py:114-118 | The operations registered under the ids, position by position. |
| SubscriptionServer.InSomeOrder | server/server/channels.py:104-107 | Every id of the set appears exactly once. |
| SubscriptionServer.UnsubscribeEffect | server/server/channels.py:114-119 | Unsubscribing removes the id and keeps every other entry. It disposes the operation only if it was registered. It always sends one GQL_COMPLETE for the id. |
| SubscriptionServer.UnsubscribeAllSent | server/server/channels.py:103-119 | Unsubscribing a run of ids sends one GQL_COMPLETE per id, in order. |
| SubscriptionServer.UnsubscribeAllOperations | server/server/channels.py:103-118 | Unsubscribing a run of ids removes exactly those ids from the table. |
| SubscriptionServer.UnsubscribeAllDisposed | server/server/channels.py:103-117 | Unsubscribing distinct registered ids disposes each of their operations once, in order. |
| SubscriptionServer.Connection.constructor | server/server/channels.py:48-51 | A new connection has no operations, has sent nothing and is open. |
| SubscriptionServer.Connection.SendMessage | server/server/channels.py:53-65 | A frame with at least one key is sent. An empty frame fails the assertion and sends nothing. |
| SubscriptionServer.Connection.OnOperationComplete | server/server/channels.py:121-122 | Sends one GQL_COMPLETE for the id. |
| SubscriptionServer.Connection.Unsubscribe | server/server/channels.py:114-119 | The new state is the unsubscribe step applied to the old one (see UnsubscribeEffect). |
| SubscriptionServer.Connection.OnStop | server/server/channels.py:111-112 | Stopping is exactly an unsubscribe. |
| SubscriptionServer.Connection.UnsubscribeEach | server/server/channels.py:104-109 | The new state is the old one with the ids unsubscribed in turn. |
| SubscriptionServer.Connection.OnClose | server/server/channels.py:103-109 | Every operation open at close is unsubscribed exactly once. The table ends empty. One GQL_COMPLETE per operation is sent. Each operation is disposed once, in the order the unsubscribes ran. |
| SubscriptionServer.Connection.OnConnectionInit | server/server/channels.py:73-79 | If `on_connect` succeeds, one GQL_CONNECTION_ACK is sent. If it raises, one GQL_CONNECTION_ERROR carrying the message is sent and the socket is closed with 1011. |
| SubscriptionServer.Connection.OnStart | server/server/channels.py:81-101 | A single result: one data frame, then GQL_COMPLETE, with the table untouched. A stream: the operation is registered and every result is sent in order, then GQL_COMPLETE. If the client stops the stream, no data is sent after the stop. The stop's GQL_COMPLETE is followed by the final one, and the iterator is disposed once. |

## Left out

- Rendering is not modelled: JSX, the `Query`/`Mutation` components, `loading`/`error` render branches, CSS classes and the forms the pages embed.
- Apollo's own machinery is not modelled: `subscribeToMore`, the cache, `refetchQueries` after a delete, and the `graphql`/`compose`/`withAuth` wrappers. `refetchQueries` asks Apollo to reload the room; it has no outcome a page decides.
- Promises are modelled only as the effects their callbacks perform and whether the chain resolves or rejects. A failed network request never reaches the callbacks.
- `closeModal={setModal}` is a plain pass-through to the modal form, which is not part of this model.
- RoomPage.DeleteRequest models `parseInt` on integers. Numbers above 2^53, which JavaScript rounds to a double, and the value -0 are not modelled.
- The GraphQL documents and route constants (`client/src/queries/index.js`, `constants/routes`) are not part of this model. The dashboard path is a parameter of OnConfirmResult.
- ConfirmEmailPage.Join: null or undefined entries, which `join` writes as empty strings, are not modelled; messages are strings.
- DashboardPage.OnCreateRoomResult: the createRoom document that `Dashboard/index.js:5` imports is missing from `client/src/queries/index.js`. `room.error` is assumed to be an object carrying its `__typename`, like the `error` of the other mutations (`client/src/queries/index.js:16-24`). A falsy error such as `""` would navigate instead of logging; the model does not express it.
- RoomPage.DeleteRequest: the variables hold NaN for an id that is not numeric. Apollo's JSON encoding sends NaN as null; that encoding is not modelled.
- The `me` query result of the dashboard is taken as loaded. Before it loads, the page reads `props.data.me.id` from undefined.
- The server's `get_graphql_params`, `AsyncioExecutor`, `handle`/`on_open` and the websocket consumer are not modelled.
- The base class `graphql_ws_django.base` is not part of this model. That covers `execute`, message parsing and dispatch, and the connection context. `send_execution_result` is taken to send one GQL_DATA frame with the result. `send_error` is taken to send one frame with the given type and a `{message}` payload.
- `on_connect` of this server always returns. Its possible exception is the `connectError` parameter of OnConnectionInit.
- SubscriptionServer.Connection.OnStart: the asyncio interleaving of a stop with the stream is reduced to one point, `stopAt`, the result during whose production the stop was handled. No other task runs in between.
- SubscriptionServer.Connection.OnStart: the iterator is not removed from the table when a stream ends normally, and the model keeps it registered, as the code does.
- SubscriptionServer.Connection.OnClose: `asyncio.wait` runs the unsubscribes concurrently. The model runs them one after another, in an order it returns.
- The JSON encoding of frames and payloads is not modelled; payloads are opaque values.
- `updateQuery` neither de-duplicates pushed messages nor checks which room a message belongs to (client/src/pages/Room/index.js:25). DuplicatePushKeptTwice states the first. The model keeps both behaviours as written. The server keeps no connection state machine beyond its operations table (server/server/channels.py:73-122).
- A null message in the cached room, which a null `newMessage` leaves there, makes the render's `i.id` throw. Rendering is not modelled, so neither is that exception.
