/**
 * The persisted records of the chat side (internal/model): conversations and
 * messages. Timestamps (`CreatedAt`, `UpdatedAt`, `Timestamp`) are not part
 * of this model.
 */
module Models {
  import opened Basics
  import opened ObjectIds

  /** The denormalised snapshot of a conversation's latest message. */
  datatype LastMessage = LastMessage(content: string, senderId: ObjectId)

  /**
   * A private conversation has `isGroup` false and two participants; a group
   * has a title. `participants` keeps the order in which ids were stored.
   */
  datatype Conversation = Conversation(
    id: ObjectId,
    title: string,
    isGroup: bool,
    groupAvatar: string,
    participants: seq<ObjectId>,
    createdBy: ObjectId,
    lastMessage: Option<LastMessage>)

  datatype Message = Message(
    id: ObjectId,
    conversationId: ObjectId,
    senderId: ObjectId,
    content: string,
    attachmentUrl: Option<string>)
}
