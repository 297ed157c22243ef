# Gitter adapter for Dotbot — a Dafny model

This project models the core of `GitterAdapter`, the piece of Dotbot that
attaches the bot to Gitter's Faye (Bayeux) push endpoint and relays chat
messages to Dotbot's event queue. Three behaviours are modelled:

- **The inbound-message normaliser** (`MessageReceived`): a decoded Faye
  envelope is dropped unless its operation is "create" (ignoring case) and
  its author is not the bot; otherwise it becomes one `MessageEvent` with a
  sender copied from the Gitter author, a synthetic addressee built from the
  parsed mention token, and the parsed body. The event is appended to the
  inbox. `Normalizer.Normalize` is the decision rule as a function, and
  `GitterAdapter.Adapter.MessageReceived` is the method that appends its result.
- **Subscription planning** (`Subscribe`): one registration per room in the
  broker's order, on channel `/api/v1/rooms/{room.Id}/chatMessages`, with the
  callback bound to the bot and that room (`Subscriptions.Plan`,
  `GitterAdapter.Adapter.RegisterRooms`).
- **The run loop** (`Run`): connect, look up the bot, subscribe, move every
  present dequeue result to the outbox in order, and disconnect on every exit
  path (`GitterAdapter.Adapter.Run`). The `try`/`finally` becomes a single exit
  that always calls `DisconnectClient`. The calls made on the Faye client are
  recorded in a trace (`calls`). `RunDisconnectsOnce` proves that every
  session in that trace has one `Connect` first, one `Disconnect` last, and
  only registrations in between.

C# string references are `Option<string>` (`Models.NString`), with `None`
for null. So `sender?.Id == bot.Id` is plain equality on options, and a null
id equals a null id. `GitterMessageParser.Parse` is not part of this model:
the normaliser takes the parser as a function parameter and assumes nothing
about it. The results of the broker's lookups and the exceptions the
collaborators may throw (Connect, GetCurrentUser, GetRooms, a registration,
and Disconnect) are inputs, collected in a `Collaborators` value. The trace
records a Connect or Disconnect even when it throws, and a registration only
when it returns. The
blocking inbox is represented by the sequence of results that its dequeues
return before cancellation.

Two details of the code shape the model:
- The code always builds a sender `User`. When the Gitter author is null,
  all three of its fields are null (`Normalizer.SenderUser`).
- The code does not catch a missing nested model or a failed decode. The
  model starts from a decoded envelope and adds no log-and-discard path.

Modules: `Wrappers` (Option, Attempt, Fault), `Models` (the records),
`OrdinalIgnoreCase`, `Normalizer`, `Subscriptions`, `Relay` and
`GitterAdapter` (lifecycle specification and the `Adapter` class).

## Model

| member | source | states |
|---|---|---|
| `OrdinalIgnoreCase.EqualsLowerWord` | src/Dotbot.Gitter/GitterAdapter.cs:107 | a string equals a lower-case ASCII word under case-insensitive comparison iff it has the word's length and each character is the word's letter in lower or upper case |
| `Normalizer.CreateInAnyCase` | src/Dotbot.Gitter/GitterAdapter.cs:107 | the operation filter accepts a tag iff it spells "create" with every letter in either case ("CREATE", "Create", ...) |
| `Normalizer.Normalize` | src/Dotbot.Gitter/GitterAdapter.cs:103-126 | no event iff the operation is null or not "create" ignoring case, or the sender id (null without a sender) equals the bot id; an event is never from the bot; it carries the given bot, room and broker; the sender copies the author's id, username and display name, or has three nulls without an author; the recipient is absent iff the parser gives no token, and otherwise its id, username and display name are that token; the body is the parser's second component |
| `Normalizer.AnonymousDroppedOnlyForNullBot` | src/Dotbot.Gitter/GitterAdapter.cs:113-117 | a create envelope with no author is dropped iff the bot's id is null |
| `GitterAdapter.Adapter.MessageReceived` | src/Dotbot.Gitter/GitterAdapter.cs:103-130 | the inbox grows by exactly the normalised event, or stays unchanged when the envelope is dropped; it grows by one iff both filters pass; nothing else changes |
| `Subscriptions.ChannelNamesRoom` | src/Dotbot.Gitter/GitterAdapter.cs:83 | reading the room id back out of a room's channel path gives the interpolated room id (null renders as empty) |
| `Subscriptions.ChannelsSeparateRooms` | src/Dotbot.Gitter/GitterAdapter.cs:83 | rooms with different ids listen on different channels |
| `Subscriptions.Plan` | src/Dotbot.Gitter/GitterAdapter.cs:81-88 | one registration per room of the broker's list |
| `Subscriptions.PlanAt` | src/Dotbot.Gitter/GitterAdapter.cs:81-88 | the i-th registration is on the i-th room's channel `/api/v1/rooms/{id}/chatMessages`, with the callback bound to the bot and the i-th room |
| `Subscriptions.PlannedCallbackBoundToRoom` | src/Dotbot.Gitter/GitterAdapter.cs:83-86 | what the i-th callback produces is attributed to the i-th room and the bot |
| `Subscriptions.PlanChannelsDistinct` | src/Dotbot.Gitter/GitterAdapter.cs:81-88 | rooms with pairwise different ids get pairwise different channels |
| `GitterAdapter.RegistrationsAt` | src/Dotbot.Gitter/GitterAdapter.cs:81-88 | the trace holds each registration, in order, as a Subscribe call |
| `GitterAdapter.Adapter.Subscribe` | src/Dotbot.Gitter/GitterAdapter.cs:77-88 | when GetRooms throws, nothing is registered and its exception escapes; otherwise the rooms are registered in order up to the first rejected registration, whose exception escapes |
| `GitterAdapter.Adapter.RegisterRooms` | src/Dotbot.Gitter/GitterAdapter.cs:81-88 | the foreach loop appends the registrations of the rooms before the rejected one (all rooms when none is rejected) to the trace, and reports the rejection |
| `Relay.ForwardedAppend` | src/Dotbot.Gitter/GitterAdapter.cs:56-63 | forwarding keeps dequeue order: what an earlier stretch of dequeues forwards precedes what a later one forwards |
| `Relay.ForwardedExactlyPresent` | src/Dotbot.Gitter/GitterAdapter.cs:56-63 | an event reaches the outbox iff some dequeue returned it; null results never do |
| `Relay.ForwardedLength` | src/Dotbot.Gitter/GitterAdapter.cs:56-63 | the outbox grows by exactly the number of present dequeue results, so nothing is lost or duplicated |
| `GitterAdapter.Adapter.RelayInbox` | src/Dotbot.Gitter/GitterAdapter.cs:56-63 | the loop appends to the outbox exactly the present dequeue results, in order |
| `GitterAdapter.Adapter.ConnectClient` | src/Dotbot.Gitter/GitterAdapter.cs:45 | records one Connect call; the client is connected iff Connect did not throw |
| `GitterAdapter.Adapter.DisconnectClient` | src/Dotbot.Gitter/GitterAdapter.cs:73 | records one Disconnect call, even when it throws, leaves the client disconnected, and lets the given exception escape |
| `GitterAdapter.RunDisconnectsOnce` | src/Dotbot.Gitter/GitterAdapter.cs:40-75 | on every path, including exceptions from Connect, GetCurrentUser, GetRooms or a registration, Run's session starts with its one Connect, ends with its one Disconnect, and holds only registrations in between |
| `GitterAdapter.RunResultMatchesFaults` | src/Dotbot.Gitter/GitterAdapter.cs:40-75 | Run returns true iff neither start-up nor Disconnect threw; otherwise an exception from Disconnect in the finally block escapes in place of the result or of the start-up exception, and without one the start-up exception escapes |
| `GitterAdapter.SuccessfulStartupRegistersEveryRoom` | src/Dotbot.Gitter/GitterAdapter.cs:45-52 | after a successful start-up, the session is Connect, one registration per room in the broker's order, then Disconnect |
| `GitterAdapter.Adapter.Run` | src/Dotbot.Gitter/GitterAdapter.cs:40-75 | the trace grows by the specified session, which is bracketed by one Connect and one Disconnect; the outbox grows by the relayed events only when start-up succeeds; the result is true, or the Disconnect exception if the finally block throws, or else the start-up exception; the client ends disconnected |
| `GitterAdapter.Adapter.constructor` | src/Dotbot.Gitter/GitterAdapter.cs:26-31 | the adapter is bound to its broker and outbox, with an empty inbox and a disconnected client |

## Left out

- Construction of the Faye client, its endpoint URI, logger and token extension (src/Dotbot.Gitter/GitterAdapter.cs:33-37): foreign library calls. The transport behind Connect, Subscribe and Disconnect is likewise not modelled; only the calls are recorded.
- JSON decoding of the raw Faye payload into an envelope (src/Dotbot.Gitter/GitterAdapter.cs:106): the model starts from a decoded `Envelope`. A null nested model or a failed cast throws inside the callback in the code; the model's envelope always has a model, and that exception is not modelled.
- GitterMessageParser is not part of this model. It is a function parameter, and nothing is assumed about mention stripping or idempotence.
- The internals of the blocking inbox queue: its locking, the blocking `Dequeue(token)`, `WaitHandle.WaitOne` and cancellation timing (src/Dotbot.Gitter/GitterAdapter.cs:56-58, 66). Run takes the sequence of dequeue results up to cancellation as input. The model does not link that sequence to the `inbox` field that `MessageReceived` fills, so queue FIFO order is not proved here.
- Threads: Faye callbacks run concurrently with Run in the code. The model runs everything sequentially.
- Async/await of `GetCurrentUser` and `GetRooms` (src/Dotbot.Gitter/GitterAdapter.cs:48, 80): their results or exceptions are inputs.
- Logging (src/Dotbot.Gitter/GitterAdapter.cs:31, 49, 87), and the constant properties `FriendlyName` and `Broker` (src/Dotbot.Gitter/GitterAdapter.cs:23-24).
- The commented-out dynamic room subscription (src/Dotbot.Gitter/GitterAdapter.cs:89-100): dead code.
- Whether the Faye client can reject a registration is not visible in the source. `Rejection` models a registration that throws, so that Subscribe's failure path is covered.
- OrdinalIgnoreCase.EqualsIgnoreCase: folds only the ASCII letters, while .NET's ordinal case-insensitive comparison also folds non-ASCII letters through their invariant upper-case mapping. For the one comparison the adapter makes, against "create", this is exact: no character other than a-z upper-cases to C, R, E, A or T. The caveat applies only to the general predicate.
- GitterAdapter.Adapter.DisconnectClient: the model's client is disconnected after Disconnect even when Disconnect throws; the real client's state after a failed disconnect is not visible in the source.
