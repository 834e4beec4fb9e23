# Chat-room backend: message log, stream events and message view

This project models, in Dafny, the three small pieces of logic a Spring chat
backend holds around a large-language-model provider:

- **The room's message log** (`ChatEntity`). An `AIChatRoom` owns an ordered list of
  `AIChatRoomMessage` records. `AIChatRoom.addMessage(user, bot)` builds a record
  that points back to the room and holds the user's text and the bot's answer.
  It appends the record to the room's list and returns it. Both entities are
  classes, because the source mutates them in place. The list is a `seq` field
  that `AddMessage` reassigns. The ghost function `TurnLog` gives the abstract
  value of the log: its sequence of (user, bot) exchanges.
- **Stream chunks to server-sent events** (`ChatController`). The streaming
  endpoint puts the request text into a prompt that holds a single user message.
  It then maps every chunk the model streams back to one event. A chunk whose
  result, output or text is null becomes the end marker `[DONE]`. Any other
  chunk becomes its text in double quotes. The model is a function parameter
  from prompt to chunk sequence. `ReadPayload` is a reference reading of a
  payload, used to state that the events carry each chunk's text, or its
  absence, without loss.
- **The message view** (`ChatRoomMsgResponse`). `AIChatRoomMsgResponse.from`
  copies a message's id and texts, renders its timestamps, and puts the owning
  room's id in place of the back-reference. It reads only the room's `id`
  field, never its message list.

Identifiers are natural numbers assigned by the database, and the timestamps
are set by an auditing listener. Both are therefore `Option` fields, `None` on
an object that was only built in memory. `from` unboxes the `Long` ids into
`long` and calls `toString()` on the timestamps. So when the message id, the
room, the room id or a timestamp is null, `from` throws a
`NullPointerException`, and the model returns `Failure(NullPointerException)`
in that case. Timestamp rendering (`LocalDateTime.toString`) is an opaque
function parameter.

The files modelled here are the two entities, the streaming controller and
the message view. They have no summary entity and no code that cuts summary
segments or builds a prompt from room history: the streaming endpoint sends
only the request text. Any such algorithm is outside this model.

## Model

| member | source | states |
|---|---|---|
| `ChatEntity.AIChatRoom.Build` | src/main/java/annovation/chatbot/domain/entity/AIChatRoom.java:34-47 | a freshly built room has no id, no timestamps and an empty message list, and trivially owns all its messages |
| `ChatEntity.AIChatRoomMessage.Build` | src/main/java/annovation/chatbot/domain/entity/AIChatRoomMessage.java:33-50 | a record built with room, user text and bot text holds exactly those, with id and timestamps still null |
| `ChatEntity.AIChatRoom.AddMessage` | src/main/java/annovation/chatbot/domain/entity/AIChatRoom.java:49-59 | the returned record is new, points back to this room and holds the two arguments; the list grows by exactly one; the earlier records stay unchanged and in order; the new record is last; the exchange log gains exactly (user, bot) at its end; the room's id and timestamps do not change; ownership of every stored record by the room is preserved |
| `ChatEntity.TurnLog` | src/main/java/annovation/chatbot/domain/entity/AIChatRoom.java:45-47 | the log of a message list has one exchange per record, and entry i is record i's (user, bot) texts |
| `ChatController.RequestText` | src/main/java/annovation/chatbot/domain/controller/AIChatController.java:46 | a present, non-empty parameter is used as is; an absent or empty one becomes "Tell me a joke"; the request text is never empty |
| `ChatController.StreamPrompt` | src/main/java/annovation/chatbot/domain/controller/AIChatController.java:49 | the streaming prompt holds exactly one message, a user message holding the request text |
| `ChatController.ChunkText` | src/main/java/annovation/chatbot/domain/controller/AIChatController.java:54-62 | the chunk's text is absent exactly when the result, the output or the text is null; otherwise it is the output's text |
| `ChatController.Quoted` | src/main/java/annovation/chatbot/domain/controller/AIChatController.java:64 | the payload for a text t has length len(t)+2, a double quote at each end, and exactly t between them |
| `ChatController.ToServerSentEvent` | src/main/java/annovation/chatbot/domain/controller/AIChatController.java:53-66 | the payload is `[DONE]` exactly when the result, the output or the text is null; for a text t (empty included) the payload has length len(t)+2, starts and ends with a double quote, and holds t between them |
| `ChatController.QuotedIsNotDone` | src/main/java/annovation/chatbot/domain/controller/AIChatController.java:57-64 | a quoted text has length len(t)+2, a quote at both ends, and never equals `[DONE]` |
| `ChatController.ToServerSentEvents` | src/main/java/annovation/chatbot/domain/controller/AIChatController.java:52-53 | one event per chunk: same length as the chunk stream, and event i is the mapping of chunk i |
| `ChatController.GenerateStream` | src/main/java/annovation/chatbot/domain/controller/AIChatController.java:44-67 | the endpoint's events are, one per chunk and in order, the mapping of the chunks the model returns for the one-user-message prompt of the request text |
| `ChatController.PayloadRoundTrip` | src/main/java/annovation/chatbot/domain/controller/AIChatController.java:53-66 | reading an event's payload gives back exactly the chunk's text, or nothing for a chunk without text |
| `ChatController.StreamRoundTrip` | src/main/java/annovation/chatbot/domain/controller/AIChatController.java:52-66 | reading the whole event stream gives back the chunk texts, in order |
| `ChatController.EventsDetermineTexts` | src/main/java/annovation/chatbot/domain/controller/AIChatController.java:52-66 | two chunk streams yield the same events if and only if they carry the same texts |
| `ChatController.SameTextsSameEvents` | src/main/java/annovation/chatbot/domain/controller/AIChatController.java:53-56 | chunks with equal texts, in order, yield equal events: the event depends on nothing but the text |
| `ChatRoomMsgResponse.From` | src/main/java/annovation/chatbot/domain/dto/response/AIChatRoomMsgResponse.java:20-29 | it succeeds exactly when the message id, room, room id and both timestamps are set, and throws a null-pointer exception otherwise; on success it copies the id, uses the owning room's id, renders the message's own timestamps and copies both texts; it reads only the room's id field |
| `ChatRoomMsgResponse.FromAddedMessage` | src/main/java/annovation/chatbot/domain/dto/response/AIChatRoomMsgResponse.java:22-27 | for a record as `AddMessage` leaves it, the view succeeds exactly when the ids and timestamps have been assigned, and its chatRoomId is the room's id and its texts are the two arguments |
| `ChatRoomMsgResponse.FromNewMessage` | src/main/java/annovation/chatbot/domain/dto/response/AIChatRoomMsgResponse.java:20-29 | applying `from` to what `addMessage` returns, before the database has assigned an id, throws a null-pointer exception; the room's list has grown by that record |

## Left out

- Persistence: JPA mapping, cascade and orphan removal, database-generated ids and the auditing listener that sets `createDate`/`modifyDate`. These belong to the persistence engine. The model keeps these fields as `Option` values and states `From` for any values they may take.
- `AIChatRoomService` (createRoom, findById, save): thin wrappers over a Spring Data repository, whose code is not part of this model. The not-found rule in `findById` is only `Optional.orElseThrow`.
- The chat-model calls `chatClient.call` and `chatClient.stream`: foreign calls over the network. The chunk stream is the output of a function parameter, and the non-streaming `generate` endpoint, which only returns `chatClient.call(message)`, is not modelled.
- Reactor `Flux`, server-sent-event transport, HTTP routing and the remaining annotations: I/O and asynchronous plumbing. Only the `defaultValue` of the `message` parameter is kept, as `RequestText`.
- The `createRoom` endpoint of the controller: it returns what the service creates; the room it builds is `AIChatRoom.Build`.
- `AIChatRoomResponse.from`: it only copies the room id and renders the two timestamps.
- src/main/java/annovation/chatbot/controller/AIChatController.java: an older copy of the same endpoint with the same chunk mapping (lines 43-57); it is not modelled twice.
- `ChatBotApplication`: process bootstrap.
- Lombok getters and setters, beyond the fields `addMessage` and `from` use.
- Java `null` arguments: the texts passed to `addMessage` and held by a message are modelled as non-null strings, and a null message passed to `from` is not modelled. A null chunk text is modelled, as the end marker.
- `ChatRoomMsgResponse.From`: ids are unbounded naturals. The 64-bit range of `long` is not modelled, because database identifiers stay far below it.
- Summary segments and prompt assembly from room history: none of the modelled files holds such code, so it is outside this model.
