/**
 * The conversation service (internal/service/conversation_service.go) and the
 * message port it sits beside. The document store is an in-memory sequence of
 * records in insertion order; what the store does during one call (the id it
 * mints, whether a lookup or a write fails, which group an ambiguous lookup
 * hands back) is a `StoreCall` value supplied by the caller.
 *
 * Each operation is first a function from the old store to a `Step` (its
 * result and the new store); the service classes run the same steps
 * imperatively and are proved equal to those functions.
 */
module Service {
  import opened Basics
  import opened ObjectIds
  import opened Models
  import Errors

  /** A Go `error` as the services return it: one of the custom records, or a store failure. */
  datatype ServiceError = Custom(err: Errors.CustomError) | StoreFailure(cause: string)
  {
    /** The text `err.Error()` gives. */
    function Text(): string {
      match this
      case Custom(e) => e.Error()
      case StoreFailure(cause) => cause
    }
  }

  datatype Outcome = Succeeds | FailsWith(cause: string)

  /**
   * What the store does during one service call: `freshId` is the id
   * `primitive.NewObjectID` returns, `find` whether the lookup fails for a
   * reason other than "no document", `groupMatch` the index of the group the
   * group-existence lookup returns (if any), `write` whether the insert or
   * update fails.
   */
  datatype StoreCall = StoreCall(freshId: ObjectId, find: Outcome, groupMatch: Option<nat>, write: Outcome)

  /** The result of one call and the store it leaves. */
  datatype Step<T, S> = Step(result: Result<T, ServiceError>, store: S)

  function Conflict(svc: string, message: string): ServiceError {
    Custom(Errors.NewConflictError(svc, message))
  }

  function NotFound(svc: string, message: string): ServiceError {
    Custom(Errors.NewNotFoundError(svc, message))
  }

  const SelfConversation := "You cannot create a conversation with yourself"
  const GroupTooSmall := "group must have at least 2 participants"
  const ConversationNotFound := "conversation not found"
  const PrivateNotExtendable := "cannot add users to a private one-on-one conversation"
  const NothingToAdd := "all users are already in the group"

  // ---------------------------------------------------------------------------
  // Private conversations

  /** The filter `{isGroup: false, participants: {$all: [a, b]}}`. */
  predicate IsPrivateMatch(c: Conversation, a: ObjectId, b: ObjectId) {
    !c.isGroup && a in c.participants && b in c.participants
  }

  /** `FindOne` with that filter: the first matching record in store order. */
  function FindPrivate(convs: seq<Conversation>, a: ObjectId, b: ObjectId): (r: Option<Conversation>)
    ensures r.Some? ==> r.value in convs && IsPrivateMatch(r.value, a, b)
    ensures r.None? <==> forall c | c in convs :: !IsPrivateMatch(c, a, b)
  {
    if convs == [] then None
    else if IsPrivateMatch(convs[0], a, b) then Some(convs[0])
    else FindPrivate(convs[1..], a, b)
  }

  /**
   * `CreatePrivateConversation`: self check, find-or-create, insert. A failed lookup counts as "not found".
   * Specifies `ConversationService.CreatePrivateConversation`.
   */
  function CreatePrivate(convs: seq<Conversation>, sender: ObjectId, receiver: ObjectId, svc: string, call: StoreCall)
    : Step<Conversation, seq<Conversation>>
  {
    if sender == receiver then Step(Err(Conflict(svc, SelfConversation)), convs)
    else
      var existing := if call.find.Succeeds? then FindPrivate(convs, sender, receiver) else None;
      if existing.Some? then Step(Ok(existing.value), convs)
      else
        var convo := Conversation(call.freshId, "", false, "", [sender, receiver], sender, None);
        if call.write.FailsWith? then Step(Err(StoreFailure(call.write.cause)), convs)
        else Step(Ok(convo), convs + [convo])
  }

  // ---------------------------------------------------------------------------
  // Group conversations

  /** The input of `CreateGroupConversation` (the source's `PrivateConv` struct). */
  datatype GroupInput = GroupInput(creatorId: ObjectId, title: string, participants: seq<ObjectId>)

  /** The group-existence lookup: whichever group the store hands back, if any. */
  function GroupLookup(convs: seq<Conversation>, call: StoreCall): (r: Option<Conversation>)
    ensures r.Some? ==> r.value in convs && r.value.isGroup
  {
    match call.groupMatch
    case Some(i) => if i < |convs| && convs[i].isGroup then Some(convs[i]) else None
    case None => None
  }

  /** `CreateGroupConversation`: size check, lookup, insert. Specifies `ConversationService.CreateGroupConversation`. */
  function CreateGroup(convs: seq<Conversation>, input: GroupInput, svc: string, call: StoreCall)
    : Step<Conversation, seq<Conversation>>
  {
    if |input.participants| < 2 then Step(Err(Conflict(svc, GroupTooSmall)), convs)
    else
      var existing := GroupLookup(convs, call);
      if existing.Some? then Step(Ok(existing.value), convs)
      else
        var convo := Conversation(call.freshId, input.title, true, "", input.participants, input.creatorId, None);
        if call.write.FailsWith? then Step(Err(StoreFailure(call.write.cause)), convs)
        else Step(Ok(convo), convs + [convo])
  }

  // ---------------------------------------------------------------------------
  // Adding participants

  datatype AddParticipantsInput = AddParticipantsInput(conversationId: ObjectId, userIds: seq<ObjectId>)

  /** `FindOne({_id: id})`: the position of the first record with that id. */
  function FindById(convs: seq<Conversation>, id: ObjectId): (r: Option<nat>)
    ensures r.Some? ==> r.value < |convs| && convs[r.value].id == id
                        && forall j | 0 <= j < r.value :: convs[j].id != id
    ensures r.None? <==> forall j | 0 <= j < |convs| :: convs[j].id != id
  {
    if convs == [] then None
    else if convs[0].id == id then Some(0)
    else match FindById(convs[1..], id)
      case Some(j) => Some(j + 1)
      case None => None
  }

  /** The users not already in `existing`, in input order, repeats kept. Specifies `NewParticipants`. */
  function NewUsers(existing: seq<ObjectId>, users: seq<ObjectId>): seq<ObjectId> {
    if users == [] then []
    else
      var last := users[|users| - 1];
      NewUsers(existing, users[..|users| - 1]) + (if last in existing then [] else [last])
  }

  /**
   * `AddUsersToGroupConversation`: lookup, private check, filter, empty check, append.
   * Specifies `ConversationService.AddUsersToGroupConversation`.
   */
  function AddUsers(convs: seq<Conversation>, input: AddParticipantsInput, svc: string, call: StoreCall)
    : Step<(), seq<Conversation>>
  {
    if call.find.FailsWith? then Step(Err(StoreFailure(call.find.cause)), convs)
    else match FindById(convs, input.conversationId)
      case None => Step(Err(NotFound(svc, ConversationNotFound)), convs)
      case Some(i) =>
        var convo := convs[i];
        if !convo.isGroup then Step(Err(Conflict(svc, PrivateNotExtendable)), convs)
        else
          var added := NewUsers(convo.participants, input.userIds);
          if |added| == 0 then Step(Err(Conflict(svc, NothingToAdd)), convs)
          else if call.write.FailsWith? then Step(Err(StoreFailure(call.write.cause)), convs)
          else Step(Ok(()), convs[i := convo.(participants := convo.participants + added)])
  }

  // ---------------------------------------------------------------------------
  // Messages

  /** `CreateMessage`: stamp a fresh id and append. Specifies `MessageService.CreateMessage`. */
  function SaveMessage(messages: seq<Message>, msg: Message, call: StoreCall): Step<Message, seq<Message>> {
    var stored := msg.(id := call.freshId);
    if call.write.FailsWith? then Step(Err(StoreFailure(call.write.cause)), messages)
    else Step(Ok(stored), messages + [stored])
  }

  // ---------------------------------------------------------------------------
  // The services as objects over their collections

  /**
   * The loops of `AddUsersToGroupConversation`: a set of the present ids,
   * keyed by their hexadecimal text, then the input users that are not in it.
   */
  method NewParticipants(existing: seq<ObjectId>, users: seq<ObjectId>) returns (added: seq<ObjectId>)
    ensures added == NewUsers(existing, users)
  {
    var present: map<string, bool> := map[];
    var i := 0;
    while i < |existing|
      invariant 0 <= i <= |existing|
      invariant forall k | k in present :: present[k]
      invariant forall id: ObjectId :: Hex(id) in present <==> id in existing[..i]
    {
      forall id: ObjectId
        ensures Hex(id) == Hex(existing[i]) <==> id == existing[i]
      {
        HexInjective(id, existing[i]);
      }
      assert existing[..i + 1] == existing[..i] + [existing[i]];
      present := present[Hex(existing[i]) := true];
      i := i + 1;
    }
    assert existing[..i] == existing;
    added := [];
    var j := 0;
    while j < |users|
      invariant 0 <= j <= |users|
      invariant added == NewUsers(existing, users[..j])
    {
      var userId := users[j];
      assert users[..j + 1][..j] == users[..j];
      if !(Hex(userId) in present && present[Hex(userId)]) {
        added := added + [userId];
      }
      j := j + 1;
    }
    assert users[..j] == users;
  }

  class ConversationService {
    /** The `conversation` collection, in insertion order. */
    var conversations: seq<Conversation>
    /** The service name the error records carry. */
    const serviceName: string

    constructor (serviceName: string)
      ensures this.serviceName == serviceName && conversations == []
    {
      this.serviceName := serviceName;
      conversations := [];
    }

    method CreatePrivateConversation(senderId: ObjectId, receiverId: ObjectId, call: StoreCall)
      returns (r: Result<Conversation, ServiceError>)
      modifies this
      ensures Step(r, conversations) == CreatePrivate(old(conversations), senderId, receiverId, serviceName, call)
    {
      if senderId == receiverId {
        return Err(Conflict(serviceName, SelfConversation));
      }
      if call.find.Succeeds? {
        var existing := FindPrivate(conversations, senderId, receiverId);
        if existing.Some? {
          return Ok(existing.value);
        }
      }
      var convo := Conversation(call.freshId, "", false, "", [senderId, receiverId], senderId, None);
      if call.write.FailsWith? {
        return Err(StoreFailure(call.write.cause));
      }
      conversations := conversations + [convo];
      return Ok(convo);
    }

    method CreateGroupConversation(input: GroupInput, call: StoreCall)
      returns (r: Result<Conversation, ServiceError>)
      modifies this
      ensures Step(r, conversations) == CreateGroup(old(conversations), input, serviceName, call)
    {
      if |input.participants| < 2 {
        return Err(Conflict(serviceName, GroupTooSmall));
      }
      var existing := GroupLookup(conversations, call);
      if existing.Some? {
        return Ok(existing.value);
      }
      var convo := Conversation(call.freshId, input.title, true, "", input.participants, input.creatorId, None);
      if call.write.FailsWith? {
        return Err(StoreFailure(call.write.cause));
      }
      conversations := conversations + [convo];
      return Ok(convo);
    }

    method AddUsersToGroupConversation(input: AddParticipantsInput, call: StoreCall)
      returns (r: Result<(), ServiceError>)
      modifies this
      ensures Step(r, conversations) == AddUsers(old(conversations), input, serviceName, call)
    {
      if call.find.FailsWith? {
        return Err(StoreFailure(call.find.cause));
      }
      var found := FindById(conversations, input.conversationId);
      if found.None? {
        return Err(NotFound(serviceName, ConversationNotFound));
      }
      var i := found.value;
      var convo := conversations[i];
      if !convo.isGroup {
        return Err(Conflict(serviceName, PrivateNotExtendable));
      }
      var added := NewParticipants(convo.participants, input.userIds);
      if |added| == 0 {
        return Err(Conflict(serviceName, NothingToAdd));
      }
      convo := convo.(participants := convo.participants + added);
      if call.write.FailsWith? {
        return Err(StoreFailure(call.write.cause));
      }
      conversations := conversations[i := convo];
      return Ok(());
    }
  }

  /** The message port: `CreateMessage` over the `messages` collection. */
  class MessageService {
    var messages: seq<Message>

    constructor ()
      ensures messages == []
    {
      messages := [];
    }

    method CreateMessage(msg: Message, call: StoreCall) returns (r: Result<Message, ServiceError>)
      modifies this
      ensures Step(r, messages) == SaveMessage(old(messages), msg, call)
    {
      var stored := msg.(id := call.freshId);
      if call.write.FailsWith? {
        return Err(StoreFailure(call.write.cause));
      }
      messages := messages + [stored];
      return Ok(stored);
    }
  }
}
