/**
 * The two JPA entities of the chat backend: a chat room, which owns an
 * ordered log of messages, and a message, which holds one exchange
 * (what the user wrote, what the bot answered) and points back to its room.
 *
 * Identifiers and the audit timestamps are `Option` values: the database
 * assigns the identifiers and an auditing listener sets the timestamps, so
 * both are null on an object that was only built in memory.
 */
module ChatEntity {
  import opened Wrappers

  /** A point in time as `LocalDateTime` holds it; the model never inspects it. */
  datatype LocalDateTime = LocalDateTime(instant: int)

  /** One (user message, bot message) exchange, the value a message record carries. */
  datatype Turn = Turn(userMessage: string, botMessage: string)

  class AIChatRoom {
    var id: Option<nat>
    var createDate: Option<LocalDateTime>
    var modifyDate: Option<LocalDateTime>
    /** Insertion order is conversational order. */
    var messages: seq<AIChatRoomMessage>

    /** Every stored message points back to this room. */
    ghost predicate Owned()
      reads this, messages
    {
      forall i :: 0 <= i < |messages| ==> messages[i].chatRoom == this
    }

    /** `AIChatRoom.builder().build()`: no id, no timestamps, and the
      * `@Builder.Default` empty message list. */
    constructor Build()
      ensures id == None && createDate == None && modifyDate == None
      ensures messages == []
      ensures Owned()
    {
      id := None;
      createDate := None;
      modifyDate := None;
      messages := [];
    }

    /** Builds a message owned by this room, appends it to the log and returns it. */
    method AddMessage(userMessage: string, botMessage: string) returns (message: AIChatRoomMessage)
      modifies this`messages
      ensures fresh(message)
      ensures message.chatRoom == this
      ensures message.userMessage == userMessage && message.botMessage == botMessage
      ensures message.id == None && message.createDate == None && message.modifyDate == None
      ensures messages == old(messages) + [message]
      ensures |messages| == |old(messages)| + 1 && messages[|messages| - 1] == message
      ensures message !in old(messages)
      ensures TurnLog(messages) == old(TurnLog(messages)) + [Turn(userMessage, botMessage)]
      ensures id == old(id) && createDate == old(createDate) && modifyDate == old(modifyDate)
      ensures old(Owned()) ==> Owned()
    {
      message := new AIChatRoomMessage.Build(this, userMessage, botMessage);
      messages := messages + [message];
      assert messages[..|messages| - 1] == old(messages);
    }
  }

  class AIChatRoomMessage {
    var id: Option<nat>
    var createDate: Option<LocalDateTime>
    var modifyDate: Option<LocalDateTime>
    /** Back-reference to the owning room; left out of any JSON rendering. */
    var chatRoom: AIChatRoom?
    var userMessage: string
    var botMessage: string

    /** The Lombok builder with these three fields set and the rest left null. */
    constructor Build(chatRoom: AIChatRoom?, userMessage: string, botMessage: string)
      ensures this.chatRoom == chatRoom
      ensures this.userMessage == userMessage && this.botMessage == botMessage
      ensures id == None && createDate == None && modifyDate == None
    {
      id := None;
      createDate := None;
      modifyDate := None;
      this.chatRoom := chatRoom;
      this.userMessage := userMessage;
      this.botMessage := botMessage;
    }
  }

  /** The exchanges a message list records, oldest first. */
  ghost function TurnLog(ms: seq<AIChatRoomMessage>): (log: seq<Turn>)
    reads ms
    ensures |log| == |ms|
    ensures forall i :: 0 <= i < |ms| ==> log[i] == Turn(ms[i].userMessage, ms[i].botMessage)
  {
    if ms == [] then []
    else TurnLog(ms[..|ms| - 1]) + [Turn(ms[|ms| - 1].userMessage, ms[|ms| - 1].botMessage)]
  }
}
