/**
 * The outward view of one chat-room message: `AIChatRoomMsgResponse.from`
 * copies the message's fields and replaces the back-reference to the room by
 * the room's id. Java unboxes the `Long` ids into `long` and calls
 * `toString()` on the timestamps, so a message whose id, room, room id or
 * timestamps are still null makes `from` throw a `NullPointerException`.
 * How a timestamp is rendered (`LocalDateTime.toString`) is a parameter.
 */
module ChatRoomMsgResponse {
  import opened Wrappers
  import opened ChatEntity

  datatype AIChatRoomMsgResponse = AIChatRoomMsgResponse(
    id: nat,
    chatRoomId: nat,
    createDate: string,
    modifyDate: string,
    userMessage: string,
    botMessage: string)

  datatype Exception = NullPointerException

  /** The owning room, as a frame: `from` reads its `id` field and nothing else of it. */
  function Owner(message: AIChatRoomMessage): set<AIChatRoom>
    reads message
  {
    if message.chatRoom == null then {} else {message.chatRoom}
  }

  /** True when every reference `from` dereferences is set. */
  predicate Projectable(message: AIChatRoomMessage)
    reads message, Owner(message)`id
  {
    && message.id.Some?
    && message.chatRoom != null
    && message.chatRoom.id.Some?
    && message.createDate.Some?
    && message.modifyDate.Some?
  }

  /** `from`: reads the message and only the id of its room, never the room's message list. */
  function From(message: AIChatRoomMessage, render: LocalDateTime -> string): (r: Result<AIChatRoomMsgResponse, Exception>)
    reads message, Owner(message)`id
    ensures r.Success? <==> Projectable(message)
    ensures r.Failure? ==> r.error == NullPointerException
    ensures r.Success? ==>
              && Some(r.value.id) == message.id
              && Some(r.value.chatRoomId) == message.chatRoom.id
              && r.value.createDate == render(message.createDate.value)
              && r.value.modifyDate == render(message.modifyDate.value)
              && r.value.userMessage == message.userMessage
              && r.value.botMessage == message.botMessage
  {
    if message.id.None? || message.chatRoom == null || message.chatRoom.id.None?
       || message.createDate.None? || message.modifyDate.None?
    then Failure(NullPointerException)
    else Success(AIChatRoomMsgResponse(
      message.id.value,
      message.chatRoom.id.value,
      render(message.createDate.value),
      render(message.modifyDate.value),
      message.userMessage,
      message.botMessage))
  }

  /** A message as `AIChatRoom.AddMessage` leaves it: `from` sees the room's id and the
    * two texts, and fails until the store has assigned the ids and timestamps. */
  lemma FromAddedMessage(room: AIChatRoom, message: AIChatRoomMessage, userMessage: string, botMessage: string,
                         render: LocalDateTime -> string)
    requires message.chatRoom == room
    requires message.userMessage == userMessage && message.botMessage == botMessage
    ensures From(message, render).Success? <==>
              message.id.Some? && room.id.Some? && message.createDate.Some? && message.modifyDate.Some?
    ensures From(message, render).Success? ==>
              && Some(From(message, render).value.chatRoomId) == room.id
              && From(message, render).value.userMessage == userMessage
              && From(message, render).value.botMessage == botMessage
  {
  }

  /** `from(room.addMessage(u, b))` right after the call: the message has no id yet, so `from` throws. */
  method FromNewMessage(room: AIChatRoom, userMessage: string, botMessage: string, render: LocalDateTime -> string)
    returns (message: AIChatRoomMessage, r: Result<AIChatRoomMsgResponse, Exception>)
    modifies room`messages
    ensures fresh(message) && message.chatRoom == room
    ensures room.messages == old(room.messages) + [message]
    ensures r == Failure(NullPointerException)
  {
    message := room.AddMessage(userMessage, botMessage);
    r := From(message, render);
  }
}
