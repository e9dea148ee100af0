# Chat relay and phone verification of the law-hack backend, in Dafny

This project models the two stateful parts of a REST and realtime backend:

- **The realtime chat relay** (`src/index.ts`). A table of active chats maps
  `userId-adminId` to the two participants and the chat's message log.
  socket.io rooms carry the broadcasts. Seven socket events drive it:
  `startChat`, `sendMessage`, `offer`, `answer`, `iceCandidate`,
  `terminateChat` and `disconnect`.
- **The SMS utilities** (`src/utils/twilio.ts`). These are the phone-number
  check, the one-time verification-code store with its issue and verify
  operations, and the announcement fan-out loop.
- **The `/login` handler** (`src/routes/auth.ts`). It combines the code
  store with the user collection.

Modules follow the source files. `ChatRelay` (chat_relay.dfy) is a
`ChatServer` class with three fields:
- `activeChats: map<ChatId, Chat>`;
- `rooms: map<ChatId, set<SocketId>>`;
- `outbox: seq<Delivery>`, with one entry per `emit`: the sockets it reached
  and the event it carried.

`Inbox(outbox, s)` is what socket `s` has received, in order. The lemma
`InboxAppend` turns each handler's outbox update into a per-socket statement.
`ChatServer.Valid()` is the invariant every handler keeps:
- no room is empty;
- every room belongs to an active chat;
- every chat is stored under the key of its own user/admin pair.

`Twilio` (twilio.dfy) runs the pattern `^\+?[1-9]\d{1,14}$` as a small
automaton, `PhonePatternTest`. That is the code's check. A lemma proves it
equal to the shape predicate `E164Shape`: an optional `+`, a digit 1-9,
then 1 to 14 digits. This is the number shape of ITU-T Recommendation E.164;
country codes are not checked. The module also has:
- the rendering of a verification code, with a decimal round trip;
- the `CodeStore` class, whose field `codes` is the map of live codes;
- the announcement loop.

`Auth` (auth.dfy) has a `UserTable` class keyed by phone number and the
`Login` method, which runs over a `CodeStore` and a `UserTable`.

Inputs that the source takes from its environment are parameters:
- the clock (`now`);
- the random draw of a code, `n` in [100000, 999999];
- the sender phone number, `Option<string>`;
- each SMS provider answer (`dispatchOk`, `delivered`);
- the users of an area.

A thrown error is an `Outcome` (`Fail(e)`) or a `LoginReply.Failed(e)`.

The model keeps the code's behaviour where a stricter design might be
expected:
- `sendMessage` and the signaling events on an unknown chat are silently
  dropped; no `SessionNotFound` error is raised.
- `terminateChat` reports nothing.
- Sessions survive a disconnect.
- Timestamps are not monotone by construction.
- `startChat` overwrites a live chat's log.
- Rooms are not limited to two members.

## Model

| member | source | states |
|---|---|---|
| `ChatRelay.InboxConcat` | src/index.ts:72 | what a socket receives from two stretches of emits is its share of the first, then its share of the second |
| `ChatRelay.InboxAppend` | src/index.ts:86 | one emit adds its event exactly once, at the end, to each recipient's inbox and nothing to any other socket's |
| `ChatRelay.ChatKey` | src/index.ts:69 | the chat id is the user id, a dash, then the admin id: its length is the two lengths plus one, and it splits into exactly those three parts |
| `ChatRelay.ChatKeyCollision` | src/index.ts:69 | the chat key is not injective: ("a-b","c") and ("a","b-c") share the chat id `a-b-c` |
| `ChatRelay.ChatKeySplitsAtFirstDash` | src/index.ts:69 | for a dash-free user id, splitting the chat id at its first dash gives back the user id and the admin id |
| `ChatRelay.ChatKeyInjectiveForDashFreeUsers` | src/index.ts:69 | two pairs with dash-free user ids and the same chat id are the same pair |
| `ChatRelay.ChatServer.constructor` | src/index.ts:22 | the relay starts with no chats, no rooms and nothing emitted, and satisfies the invariant |
| `ChatRelay.ChatServer.StartChat` | src/index.ts:68-73 | the chat `userId-adminId` becomes `{userId, adminId, []}`, dropping any earlier log; the caller joins its room; every room member, caller included, receives `chatStarted{chatId}` once; other chats unchanged |
| `ChatRelay.ChatServer.SendMessage` | src/index.ts:75-88 | unknown chat: table, rooms and outbox unchanged; live chat: exactly one message appended to its log. The message has the sender and type as given, content = message for type "text" and mediaUrl otherwise, and the given timestamp. Each room member receives it once; other chats unchanged |
| `ChatRelay.ChatServer.Relay` | src/index.ts:91-101 | an offer/answer/ICE candidate goes once to every room member except the sending socket; the sender's inbox is unchanged; on a chat id that is not active no socket receives anything; chats and rooms unchanged |
| `ChatRelay.ChatServer.TerminateChat` | src/index.ts:103-107 | the chat id is removed from the table (no-op when absent); the sockets in the room before it is emptied receive `chatTerminated{chatId}`; the room is gone; other chats and rooms unchanged |
| `ChatRelay.ChatServer.Disconnect` | src/index.ts:109-111 | chats and outbox unchanged; the socket is in no room afterwards; rooms left empty disappear |
| `ChatRelay.SessionScenario` | src/index.ts:68-107 | user and admin sockets both start chat `u1-a1`; the user socket sees two `chatStarted`, the admin one; both receive "hi" once; both receive `chatTerminated`; the chat is then gone |
| `Twilio.RunDigits` | src/utils/twilio.ts:21 | within the digit run the pattern matches exactly when the rest is all digits and the run has 2 to 15 digits |
| `Twilio.PhonePatternTest` | src/utils/twilio.ts:21-22 | the regex test, run as an automaton, is true exactly on an optional `+`, a digit 1-9, then 1 to 14 digits |
| `Twilio.PhonePatternMatchesE164Shape` | src/utils/twilio.ts:21 | the pattern test accepts exactly: an optional `+`, a digit 1-9, then 1 to 14 digits, and nothing else |
| `Twilio.ValidatePhoneNumber` | src/utils/twilio.ts:20-25 | passes exactly on numbers of that shape; otherwise throws an invalid-format error naming the number |
| `Twilio.AcceptedNumberBounds` | src/utils/twilio.ts:21 | an accepted number has 2 to 15 digits (all of it but a leading `+`) and 2 to 16 characters |
| `Twilio.DecimalString` | src/utils/twilio.ts:34 | the rendering of a number is a non-empty digit string whose first digit is not 0 when the number is positive |
| `Twilio.DecimalRoundTrip` | src/utils/twilio.ts:34 | reading the rendered digits gives the number back |
| `Twilio.DecimalStringInjective` | src/utils/twilio.ts:34 | different draws give different codes |
| `Twilio.IssuedCodeShape` | src/utils/twilio.ts:34 | every draw in [100000, 999999] renders as six digits, the first not 0 |
| `Twilio.SenderUnset` | src/utils/twilio.ts:28 | `!TWILIO_PHONE_NUMBER` holds unless the sender number is present and non-empty |
| `Twilio.VerificationForm` | src/utils/twilio.ts:39-42 | the verification post has three fields: To the recipient, From the sender, and a Body made of the fixed text "Your verification code is: " followed by the code |
| `Twilio.IssueCheck` | src/utils/twilio.ts:28-32 | passes exactly when the sender is set and both numbers are valid; otherwise the first failing check's error: sender unset, then recipient invalid, then sender invalid |
| `Twilio.CodeStore.constructor` | src/utils/twilio.ts:18 | the store starts empty |
| `Twilio.CodeStore.SendVerificationCode` | src/utils/twilio.ts:27-58 | a failed check throws its error with the map unchanged and nothing sent. Otherwise the number maps to the new 6-digit code, overwriting any earlier one, and other numbers are untouched. The form (To, From, "Your verification code is: " + code) is sent; a failed dispatch throws but the code stays stored |
| `Twilio.CodeStore.VerifyCode` | src/utils/twilio.ts:60-67 | true exactly when a code is stored for the number and equals the given string, and then that entry is deleted; on false the map is unchanged |
| `Twilio.CodeReplayScenario` | src/utils/twilio.ts:60-67 | an issued code verifies once and is refused the second time |
| `Twilio.ReissueScenario` | src/utils/twilio.ts:35 | after a second issue for the same number the first code is refused and the second accepted, even when the second dispatch failed |
| `Twilio.BuildAnnouncementForm` | src/utils/twilio.ts:82-92 | the form is To, From, Body, then one MediaUrl field per URL in order |
| `Twilio.Undelivered` | src/utils/twilio.ts:104-106 | the logged failures are at most as many as the recipients |
| `Twilio.UndeliveredExactly` | src/utils/twilio.ts:104-106 | a number is logged as failed exactly when it is a recipient whose send failed |
| `Twilio.SendAnnouncementSMS` | src/utils/twilio.ts:69-107 | unset or invalid sender: throws before any send. Otherwise each sent form goes to a valid number and carries `title + "\n\n" + body` and the media URLs. The sends reach exactly the users before the first invalid number, which throws; with no invalid number every user gets one. Failed sends are only logged |
| `Auth.UserTable.CreateUser` | src/utils/mongodb.ts:17-21 | the new record is stored under its phone number and returned |
| `Auth.RoleFor` | src/routes/auth.ts:44 | a new user is `admin` exactly when the phone number is +77777777777, and `user` otherwise |
| `Auth.IsFalsy` | src/routes/auth.ts:32 | `!code` holds unless the code is present and non-empty |
| `Auth.Login` | src/routes/auth.ts:29-50 | falsy code: issues a code and replies "code sent", or fails with the issue's error; users untouched. Wrong code: 400 with nothing changed. Right code: consumes it, then returns the stored user's role unchanged or creates a user with role admin only for +77777777777 and the request's region and city. The user table changes only after a successful verification |
| `Auth.LoginReplayScenario` | src/routes/auth.ts:32-49 | a request without code sends one; one with that code logs in (as admin only for the admin number); replaying the code gets 400 |

## Left out

- socket.io transport: connection scheduling, acknowledgements and concurrent interleaving are not modelled. Each handler is one atomic step, and an emit is one outbox entry with its recipient set.
- socket.io gives each socket a private room named by its socket id; that room is not modelled. A chat id equal to a socket id would also reach that socket.
- The handler for `disconnect` only logs. The model's room leave on disconnect is socket.io's own behaviour, and sessions are not terminated.
- Absent or non-string event fields (JavaScript `undefined`, or a message whose `mediaUrl` is missing) are not modelled; every field is a string.
- `new Date()` becomes the `now` parameter, and `Math.random()` becomes the drawn number `n` in [100000, 999999]. The floating-point draw itself is not modelled.
- The axios/Twilio HTTP call, URL-encoding, credentials and environment variables are not modelled. A post is the list of form fields plus an outcome the caller supplies.
- Logging (`console.log`, `console.error`) is not modelled, except that `SendAnnouncementSMS` returns the numbers whose send failed.
- `getUsersByArea` is the input list of phone numbers for the announcement loop; database look-ups are not modelled.
- `Auth.Login`: the cookie carrying the database `_id` is not modelled. The user collection is a table keyed by phone number, so duplicate users from concurrent logins are not represented. `createdAt` is dropped.
- The Fastify schema check of the request body and the other routes are not part of this model (src/routes/admin.ts, src/routes/chat.ts, src/routes/report.ts, src/utils/openai.ts), nor are the rest of the database helpers in src/utils/mongodb.ts.
