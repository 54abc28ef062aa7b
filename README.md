# Chat notification fan-out, modelled in Dafny

This project models the notification dispatcher of the CommunityCircle ("mojo") app. The dispatcher has two entry points:

- **`sendChatNotification`** runs when the message store records a new chat message. It validates the message and resolves the audience: the community's members without the sender. It then looks up the audience's device tokens and builds the chat payload. It sends that payload once per token, counts the sends that did not fail, and writes `notificationSent`, `notificationSentAt` and `notificationRecipients` back onto the message.
- **`sendNotificationToUsers`** is called directly. It checks that the caller is authenticated and that `userIds`, `title` and `body` are valid. It then looks up the tokens, sends once per token and returns `{success, recipients, totalTokens}`. Every error it throws reaches the caller re-wrapped as `internal`.

Modules, leaf first:

- `Values` (values.dfy): `Option`, `Result`, and `Field`. A `Field` is a string record field that is absent, `null`, or a string. The module also gives JavaScript truthiness and template-literal rendering for fields.
- `Audience` (audience.dfy): the community record and the sender filter.
- `TokenLookup` (tokens.dfy): the user store is a map from user id to the `fcmToken` field. This module has the query and the token filter.
- `Payloads` (payloads.dfy): the chat payload and the call payload.
- `Dispatch` (dispatch.dfy): the push provider and the per-token send loop. The provider is a class. It logs every attempted send, and a function settles the i-th attempt. An attempt is accepted, rejected, or throws synchronously before it returns a promise. The module also counts the sends that did not fail.
- `Handlers` (handlers.dfy): the message record, a class whose delivery fields the handler writes. The module also holds both handlers. Each handler is a method, proved equal to a pure function of its inputs and the provider's answers: `TriggerOutcome` for the trigger handler and `CallOutcome` for the call handler.
- `Scenarios` (scenarios.dfy): three end-to-end scenarios of the trigger handler on a three-member community, proved by the verifier.

Behaviour of the code worth knowing:

- The call handler throws `unauthenticated` and `invalid-argument` errors inside its `try`. The `catch` re-throws each of them as `internal`, carrying the original message. So the caller never sees `unauthenticated` or `invalid-argument` (`CallOutcome`).
- If `snap.ref.update` fails, the trigger handler re-throws the error after the sends have gone out (`TriggerOutcome`, `Failed`).
- An empty audience or an empty token set is not reported as success. The trigger handler returns `null`. The call handler returns `{success: false, message: 'No FCM tokens found'}`.
- Token lookup is one unbatched query. It is not split into chunks.
- Both users queries (chat-notification.js:61 and :164) pass `admin.firestore.FieldPath.documentId` without calling it. The client's `where` takes a field path as a string or a `FieldPath` object, and `documentId` is the static method that returns such an object. Read against that signature, both lookups throw inside the `try` before any send. The trigger handler then re-throws without writing back, and the call handler re-throws the client's message as `internal`. The sends that the rest of this description assumes happen only once `documentId()` is called. The model's lookup is that query (see `TokenLookup.QueryTokens` under "## Left out").
- `.catch` only handles a send whose promise rejects. A `messaging.send` call that throws synchronously stops `tokens.map` at that token. The sends already made stay made, and later tokens get none. The error reaches the outer `catch`: the trigger handler re-throws it without writing back, and the call handler re-throws it as `internal` (`FanoutOutcome`, `TriggerOutcome`, `CallOutcome`, scenario `OnlySendThrows`).

The chat data block's `timestamp` entry is a number whenever the message has a non-zero timestamp, and `messageType` is `null` when the record holds `null` (`ChatPayloadContents`, `ChatDataStringsOnly`). FCM data payloads are maps from string to string. Whether the provider rejects such a payload or throws on it is left to the provider input, and the model covers both outcomes.

## Model

| member | source | states |
|---|---|---|
| `Audience.Recipients` | mojo/functions/notifications/chat-notification.js:51-52 | The recipients are the members other than the sender, each kept as many times as it occurs. The sender is never a recipient, and there are never more recipients than members. |
| `Audience.RecipientsConcat` | mojo/functions/notifications/chat-notification.js:52 | The filter distributes over concatenation, so recipients keep the members' original order. |
| `Audience.RecipientsWithoutSender` | mojo/functions/notifications/chat-notification.js:52 | A member list that does not contain the sender is the audience unchanged. |
| `TokenLookup.QueryTokens` | mojo/functions/notifications/chat-notification.js:60-66 | The users query returns at most one token field per requested id, and every field it returns is non-null. |
| `TokenLookup.UsableTokens` | mojo/functions/notifications/chat-notification.js:67 | The token filter keeps only non-empty strings and never adds entries. |
| `TokenLookup.Tokens` | mojo/functions/notifications/chat-notification.js:65-67 | Every collected token is non-empty, and there are at most as many tokens as looked-up users (the call path uses the same lookup, at lines 168-170). |
| `TokenLookup.TokensNotDeduplicated` | mojo/functions/notifications/chat-notification.js:60-67 | A token occurs once for every distinct requested user whose document holds it, so tokens are not deduplicated. |
| `TokenLookup.TokenMembership` | mojo/functions/notifications/chat-notification.js:60-67 | A token is sent to if and only if it is non-empty and some requested user's document holds it. |
| `TokenLookup.SharedTokenSentTwice` | mojo/functions/notifications/chat-notification.js:65-67 | Two distinct requested users with the same device token cause two sends to that token. |
| `Payloads.ChatPayload` | mojo/functions/notifications/chat-notification.js:75-91 | The chat data block has exactly the nine keys of the source. |
| `Payloads.ChatPayloadContents` | mojo/functions/notifications/chat-notification.js:75-90 | The title is "<senderName> in <communityName>". The body is the content when the message type is "text" or absent, and "Sent a <type>" otherwise. The data has type "chat_message", clickAction "FLUTTER_NOTIFICATION_CLICK" and the message's ids. Its `messageType` is "text" when absent, the type when it is a string, and null when it is null. Its `timestamp` is the message's milliseconds when they are present and non-zero, and the clock reading as text otherwise. Its navigation route reads back as the community id. |
| `Payloads.ChatDataStringsOnly` | mojo/functions/notifications/chat-notification.js:81-91 | Every chat data value is a string if and only if the message has no non-zero timestamp and its type is not null. |
| `Payloads.CallData` | mojo/functions/notifications/chat-notification.js:184-187 | The call data block is the caller's map (empty when absent) plus `clickAction`, which overrides any supplied value. Every other supplied entry is kept. |
| `Dispatch.PushProvider.Send` | mojo/functions/notifications/chat-notification.js:112-114 | A send appends exactly that message to the provider's log and settles as the provider answers that attempt. |
| `Dispatch.Addresses` | mojo/functions/notifications/chat-notification.js:111-114 | There is exactly one addressed message per token, in token order, and each carries the shared payload. |
| `Dispatch.FirstThrow` | mojo/functions/notifications/chat-notification.js:111-119 | The result is the position of the first send that throws: that send throws and none before it does. None means no send throws. |
| `Dispatch.FanoutOutcome` | mojo/functions/notifications/chat-notification.js:111-121 | The fan-out settles if and only if no send throws. It then yields one caught result per token, in order: the message name for an accepted send and null for a rejected one. Otherwise it ends with the error of a send that threw. |
| `Dispatch.Attempted` | mojo/functions/notifications/chat-notification.js:111-119 | Without a plan no send is attempted. With one, every token gets a send when none throws. When a send throws, the sends go up to and including the first one that throws, and later tokens get none. Never more sends are attempted than there are tokens. |
| `Dispatch.Delivered` | mojo/functions/notifications/chat-notification.js:122 | There are never more successful sends than results. |
| `Dispatch.DeliveredCount` | mojo/functions/notifications/chat-notification.js:115-122 | If N sends are attempted and K fail, N - K are counted as successful. |
| `Dispatch.DeliveredExactly` | mojo/functions/notifications/chat-notification.js:115-122 | An accepted send's result is among the delivered ones exactly when that send was accepted. |
| `Dispatch.SendAll` | mojo/functions/notifications/chat-notification.js:111-121 | The loop attempts the sends `Attempted` gives, in token order, whatever earlier sends settled to. It ends as `FanoutOutcome` says: all results caught, or the first synchronous throw, which stops the loop. |
| `Handlers.MessageRecord.Update` | mojo/functions/notifications/chat-notification.js:127-131 | The write-back sets `notificationSent` to true, `notificationSentAt` to the server time, and `notificationRecipients` to the count. |
| `Handlers.ChatPlan` | mojo/functions/notifications/chat-notification.js:26-91 | The handler aborts on a missing communityId, senderId or senderName, and on an unknown community, each if and only if that condition holds. It aborts on an empty audience if and only if every member is the sender; an absent member list counts as empty. It aborts on an empty token list if and only if the audience is non-empty but holds no usable token. Otherwise the tokens are the non-empty tokens of the audience, which excludes the sender, and the payload is the chat payload. |
| `Handlers.TriggerOutcome` | mojo/functions/notifications/chat-notification.js:19-137 | The handler aborts exactly when the plan aborts, with the plan's reason. It records exactly when it dispatched, no send threw and the write-back succeeded. It then records N - K recipients, where N is the number of tokens and K the number of failed sends, so never more than N. When a send throws, the handler fails with that send's error. When no send threw, a failure carries the write-back's error. |
| `Handlers.SendChatNotification` | mojo/functions/notifications/chat-notification.js:16-139 | The trigger handler ends as `TriggerOutcome` says. It makes the sends `Attempted` gives for its plan, and none when it aborts. It writes back the recipient count if and only if it records, and leaves the message untouched otherwise. |
| `Handlers.CheckCall` | mojo/functions/notifications/chat-notification.js:148-160 | Authentication is checked first: an unauthenticated call fails with `unauthenticated` whatever its arguments. Next, a missing, non-array or empty `userIds` fails with `invalid-argument` and "userIds must be a non-empty array". Next, a falsy `title` or `body` fails with `invalid-argument` and "title and body are required". The checks pass if and only if the caller is authenticated, `userIds` is a non-empty array, and `title` and `body` are truthy. |
| `Payloads.CallPayload` | mojo/functions/notifications/chat-notification.js:178-204 | The call notification carries the caller's title and body with the default sound, over the call data block. |
| `Handlers.CallPlan` | mojo/functions/notifications/chat-notification.js:162-204 | A checked call sends if and only if the lookup yields at least one token. It sends the call payload to those tokens, at most one per requested id. |
| `Handlers.CallOutcome` | mojo/functions/notifications/chat-notification.js:145-232 | A failed check raises `internal` with the check's message. Every raised error has code `internal`. With no tokens the call returns `success: false`. Otherwise it raises if and only if a send throws, and then raises `internal` with the error of the first send that threw. When it returns, `totalTokens` is the token count and `recipients` is N - K, so `recipients` is at most `totalTokens`. |
| `Handlers.SendNotificationToUsers` | mojo/functions/notifications/chat-notification.js:145-232 | The call handler ends as `CallOutcome` says. After a failed check it sends nothing. Otherwise it makes the sends `Attempted` gives for its plan. |
| `Scenarios.CircleTokens` | mojo/functions/notifications/chat-notification.js:49-67 | In a community of u1, u2 and u3, a message from u1 leaves only u2's token: the sender is filtered out and u3's token is null. |
| `Scenarios.CirclePlan` | mojo/functions/notifications/chat-notification.js:35-91 | In that community the handler plans exactly one send, to u2's token, of the chat payload. |
| `Scenarios.OnlyOneTokenHolder` | mojo/functions/notifications/chat-notification.js:16-139 | In that community the handler makes one send, to u2's token, titled "Al in Circle" with body "hi", and records one recipient. |
| `Scenarios.OnlySendFails` | mojo/functions/notifications/chat-notification.js:111-133 | In that community, when u2's send is rejected, the handler still completes, makes one send, and records zero recipients. |
| `Scenarios.OnlySendThrows` | mojo/functions/notifications/chat-notification.js:111-137 | In that community, when u2's send throws, the handler makes that one send, fails with its error, and writes nothing back. |

## Left out

- Firebase Admin initialisation and the process-wide store and messaging clients (chat-notification.js:1-10) are foreign library calls. The community store, the user store and the push provider are inputs instead.
- TokenLookup.QueryTokens: models the users query with `FieldPath.documentId()` called. The code passes `FieldPath.documentId` uncalled (chat-notification.js:61, :164). As written, every lookup then throws, so no send is made, and the model does not capture that failure.
- Query mechanics of the users lookup. The model returns one document per distinct requested id, in the order the ids are first requested. The real order (by token, then by document id) is not modelled. Firestore's cap on the size of an `in` list is not modelled either; past that cap the query throws.
- Read failures are not modelled. When the community read or the users query fails, the trigger handler re-throws and the call handler re-wraps the error as `internal`. Only the failure of the write-back is an input (`writeError`).
- `Promise.all` runs the sends concurrently. The model runs them as a sequential loop, so the order of attempts is fixed.
- Logging (`console.log`, `console.error`, the token prefix in log lines) is left out.
- `Date.now()` and the server timestamp are inputs: `now` is the clock reading as text, and `serverTime` is the store's time for the write-back.
- The Android and APNs delivery hints are constant literals copied into every payload. They are not part of `Payload`.
- Record and argument values that are not strings are not modelled. This covers numbers, booleans and maps in message fields, a non-array `members` value (its `.filter` would throw), non-string entries in `userIds`, and a non-string `fcmToken`.
- A missing call `data` argument is not modelled. Destructuring it throws a `TypeError`, which the call handler would re-wrap as `internal`.
- Repeated triggers for the same message are not deduplicated, and each one sends again. The model describes a single invocation.
- mojo/android/app/build.gradle.kts is build configuration with no logic and is not part of this model.
