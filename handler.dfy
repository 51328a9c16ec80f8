/**
 * The per-line command handlers of the TCP endpoint (internal/tcp/handler.go).
 * Each handler takes one decoded line and answers with exactly one line of
 * text. Its decision tree is a function from the line to a `Dispatch`: either
 * a fixed answer, or a call to a service or to the room registry; the handler
 * methods run that tree against the real objects. `HandleLine` runs all three
 * handlers on every line and keeps only the last answer, as the connection
 * loop does.
 */
module Handler {
  import opened Basics
  import opened ObjectIds
  import opened Models
  import opened Service
  import opened Protocol
  import opened Game

  /** What the handlers reach: the two services and the connection new players join from. */
  datatype Dependencies = Dependencies(
    conversationService: ConversationService,
    messageService: MessageService,
    conn: ConnHandle)

  datatype Dispatch<R> = Answer(reply: string) | Call(request: R)

  datatype ConversationCall = PrivateCall(senderId: ObjectId, receiverId: ObjectId) | GroupCall(input: GroupInput)

  datatype Join = Join(roomId: string, playerId: string, playerName: string)

  const InvalidJson := "Invalid JSON format"
  const UnknownCommand := "Unknown command"
  const MissingPrivateFields := "Missing senderId or receiverId"
  const InvalidPrivateIds := "Invalid sender or receiver ObjectID"
  const MissingGroupFields := "Missing title, creatorId, or participantIds"
  const InvalidCreator := "Invalid creatorId"
  const InvalidParticipantPrefix := "Invalid participant ID: "
  const MissingMessageFields := "Missing senderId, conversationId, or content"
  const InvalidMessageIds := "Invalid ObjectID(s)"
  const MissingRoomFields := "Missing roomId, playerId, or playerName"
  const RoomJoinedPrefix := "Room created and player joined: "

  /** Health a player joins with. */
  const JoinHealth: int64 := 100

  // ---------------------------------------------------------------------------
  // Participant ids

  /** A participant id is accepted when its trimmed text is 24 hexadecimal digits. */
  predicate ValidParticipant(idStr: string) {
    IsObjectIdHex(TrimSpace(idStr))
  }

  /** The id a participant string stands for, when it is valid after trimming. */
  function ParticipantId(idStr: string): (r: Option<ObjectId>)
    ensures r.Some? <==> ValidParticipant(idStr)
  {
    ObjectIdFromHex(TrimSpace(idStr))
  }

  /**
   * Parses every string in order with `parse`; the first string it rejects is
   * returned exactly as it was sent. Specifies `ParseParticipants` through `ParseParticipantIds`.
   */
  function ParseEach<T>(ids: seq<string>, parse: string -> Option<T>): Result<seq<T>, string> {
    if ids == [] then Ok([])
    else match ParseEach(ids[..|ids| - 1], parse)
      case Err(bad) => Err(bad)
      case Ok(parsed) =>
        var last := ids[|ids| - 1];
        match parse(last)
        case None => Err(last)
        case Some(id) => Ok(parsed + [id])
  }

  /** The participant ids of a group command, each trimmed and parsed. */
  function ParseParticipantIds(ids: seq<string>): Result<seq<ObjectId>, string> {
    ParseEach(ids, ParticipantId)
  }

  /** Once a prefix is rejected, so is every extension of it, for the same string. */
  lemma {:induction false} RejectionSticks<T>(ids: seq<string>, parse: string -> Option<T>, n: nat)
    requires n <= |ids| && ParseEach(ids[..n], parse).Err?
    ensures ParseEach(ids, parse) == ParseEach(ids[..n], parse)
    decreases |ids| - n
  {
    if n < |ids| {
      assert ids[..n + 1][..n] == ids[..n];
      RejectionSticks(ids, parse, n + 1);
    } else {
      assert ids[..n] == ids;
    }
  }

  /** Accepted strings come out in the same order and number, each as `parse` gives it. */
  lemma {:induction false} EachAccepted<T>(ids: seq<string>, parse: string -> Option<T>)
    requires ParseEach(ids, parse).Ok?
    ensures var parsed := ParseEach(ids, parse).value;
            |parsed| == |ids| && forall i | 0 <= i < |ids| :: Some(parsed[i]) == parse(ids[i])
  {
    if ids != [] {
      var n := |ids|;
      var init := ids[..n - 1];
      EachAccepted(init, parse);
      assert forall i | 0 <= i < n - 1 :: init[i] == ids[i];
    }
  }

  /** If every string parses, the list is accepted. */
  lemma {:induction false} AllParsedAccepted<T>(ids: seq<string>, parse: string -> Option<T>)
    requires forall i | 0 <= i < |ids| :: parse(ids[i]).Some?
    ensures ParseEach(ids, parse).Ok?
  {
    if ids != [] {
      var n := |ids|;
      var init := ids[..n - 1];
      assert forall i | 0 <= i < n - 1 :: init[i] == ids[i];
      AllParsedAccepted(init, parse);
    }
  }

  /** When the string at `k` is the first that does not parse, the list is rejected for it. */
  lemma {:induction false} FirstUnparsedRejected<T>(ids: seq<string>, parse: string -> Option<T>, k: nat)
    requires k < |ids| && parse(ids[k]).None?
    requires forall j | 0 <= j < k :: parse(ids[j]).Some?
    ensures ParseEach(ids, parse) == Err(ids[k])
  {
    var n := |ids|;
    var init := ids[..n - 1];
    assert forall i | 0 <= i < n - 1 :: init[i] == ids[i];
    if k == n - 1 {
      AllParsedAccepted(init, parse);
    } else {
      FirstUnparsedRejected(init, parse, k);
    }
  }

  /** Accepted participant ids come out in the same order and number, each parsed after trimming. */
  lemma ParticipantsAccepted(ids: seq<string>)
    requires ParseParticipantIds(ids).Ok?
    ensures var parsed := ParseParticipantIds(ids).value;
            |parsed| == |ids| && forall i | 0 <= i < |ids| :: Some(parsed[i]) == ParticipantId(ids[i])
  {
    EachAccepted(ids, ParticipantId);
  }

  /** The participant ids are accepted exactly when every one is valid after trimming. */
  lemma ParticipantsAcceptedIff(ids: seq<string>)
    ensures ParseParticipantIds(ids).Ok? <==> forall i | 0 <= i < |ids| :: ValidParticipant(ids[i])
  {
    if ParseParticipantIds(ids).Ok? {
      ParticipantsAccepted(ids);
      forall i | 0 <= i < |ids| ensures ValidParticipant(ids[i]) {
        assert ParticipantId(ids[i]).Some?;
      }
    } else if forall i | 0 <= i < |ids| :: ValidParticipant(ids[i]) {
      forall i | 0 <= i < |ids| ensures ParticipantId(ids[i]).Some? {
        assert ValidParticipant(ids[i]);
      }
      AllParsedAccepted(ids, ParticipantId);
    }
  }

  /** A rejection names the first participant id that is invalid after trimming, as it was sent. */
  lemma FirstBadParticipant(ids: seq<string>, k: nat)
    requires k < |ids| && !ValidParticipant(ids[k])
    requires forall j | 0 <= j < k :: ValidParticipant(ids[j])
    ensures ParseParticipantIds(ids) == Err(ids[k])
  {
    forall j | 0 <= j < k ensures ParticipantId(ids[j]).Some? {
      assert ValidParticipant(ids[j]);
    }
    FirstUnparsedRejected(ids, ParticipantId, k);
  }

  /** The participant loop of the group branch: parse each trimmed id, stop at the first bad one. */
  method ParseParticipants(ids: seq<string>) returns (r: Result<seq<ObjectId>, string>)
    ensures r == ParseParticipantIds(ids)
  {
    var participantIds: seq<ObjectId> := [];
    var i := 0;
    while i < |ids|
      invariant 0 <= i <= |ids|
      invariant ParseEach(ids[..i], ParticipantId) == Ok(participantIds)
    {
      assert ids[..i + 1][..i] == ids[..i];
      var objId := ObjectIdFromHex(TrimSpace(ids[i]));
      if objId.None? {
        RejectionSticks(ids, ParticipantId, i + 1);
        return Err(ids[i]);
      }
      participantIds := participantIds + [objId.value];
      i := i + 1;
    }
    assert ids[..i] == ids;
    return Ok(participantIds);
  }

  // ---------------------------------------------------------------------------
  // handleCommand: create_conversation and create_group_conversation

  /** The decision tree of `handleCommand`: a fixed answer, or the service call it makes. Run by `HandleCommand`. */
  function CommandDispatch(line: Line): Dispatch<ConversationCall> {
    match DecodeCommand(line)
    case None => Answer(InvalidJson)
    case Some(cmd) =>
      if cmd.kind == "create_conversation" then
        if cmd.senderId == "" || cmd.receiverId == "" then Answer(MissingPrivateFields)
        else
          var sender, receiver := ObjectIdFromHex(cmd.senderId), ObjectIdFromHex(cmd.receiverId);
          if sender.None? || receiver.None? then Answer(InvalidPrivateIds)
          else Call(PrivateCall(sender.value, receiver.value))
      else if cmd.kind == "create_group_conversation" then
        if cmd.title == "" || cmd.creatorId == "" || |cmd.participantIds| == 0 then Answer(MissingGroupFields)
        else
          var creator := ObjectIdFromHex(cmd.creatorId);
          if creator.None? then Answer(InvalidCreator)
          else match ParseParticipantIds(cmd.participantIds)
            case Err(bad) => Answer(InvalidParticipantPrefix + bad)
            case Ok(participants) => Call(GroupCall(GroupInput(creator.value, cmd.title, participants)))
      else Answer(UnknownCommand)
  }

  function PrivateReply(r: Result<Conversation, ServiceError>): string {
    match r
    case Ok(convo) => "Conversation created with ID: " + Hex(convo.id)
    case Err(e) => "Error creating conversation: " + e.Text()
  }

  function GroupReply(r: Result<Conversation, ServiceError>): string {
    match r
    case Ok(convo) => "Group conversation created with ID: " + Hex(convo.id)
    case Err(e) => "Error creating group conversation: " + e.Text()
  }

  /** The answer of `handleCommand` and the conversation collection it leaves. Specifies `HandleCommand`. */
  function CommandOutcome(line: Line, convs: seq<Conversation>, svc: string, call: StoreCall): (string, seq<Conversation>) {
    match CommandDispatch(line)
    case Answer(reply) => (reply, convs)
    case Call(PrivateCall(sender, receiver)) =>
      var st := CreatePrivate(convs, sender, receiver, svc, call);
      (PrivateReply(st.result), st.store)
    case Call(GroupCall(input)) =>
      var st := CreateGroup(convs, input, svc, call);
      (GroupReply(st.result), st.store)
  }

  method HandleCommand(line: Line, deps: Dependencies, call: StoreCall) returns (reply: string)
    modifies deps.conversationService
    ensures (reply, deps.conversationService.conversations)
            == CommandOutcome(line, old(deps.conversationService.conversations), deps.conversationService.serviceName, call)
  {
    var decoded := DecodeCommand(line);
    if decoded.None? {
      return InvalidJson;
    }
    var cmd := decoded.value;
    if cmd.kind == "create_conversation" {
      if cmd.senderId == "" || cmd.receiverId == "" {
        return MissingPrivateFields;
      }
      var sender := ObjectIdFromHex(cmd.senderId);
      var receiver := ObjectIdFromHex(cmd.receiverId);
      if sender.None? || receiver.None? {
        return InvalidPrivateIds;
      }
      var convo := deps.conversationService.CreatePrivateConversation(sender.value, receiver.value, call);
      if convo.Err? {
        return "Error creating conversation: " + convo.error.Text();
      }
      return "Conversation created with ID: " + Hex(convo.value.id);
    } else if cmd.kind == "create_group_conversation" {
      if cmd.title == "" || cmd.creatorId == "" || |cmd.participantIds| == 0 {
        return MissingGroupFields;
      }
      var creatorId := ObjectIdFromHex(cmd.creatorId);
      if creatorId.None? {
        return InvalidCreator;
      }
      var participantIds := ParseParticipants(cmd.participantIds);
      if participantIds.Err? {
        return InvalidParticipantPrefix + participantIds.error;
      }
      var input := GroupInput(creatorId.value, cmd.title, participantIds.value);
      var convo := deps.conversationService.CreateGroupConversation(input, call);
      if convo.Err? {
        return "Error creating group conversation: " + convo.error.Text();
      }
      return "Group conversation created with ID: " + Hex(convo.value.id);
    } else {
      return UnknownCommand;
    }
  }

  // ---------------------------------------------------------------------------
  // handleSendMessage: send_message

  /** The decision tree of `handleSendMessage`: a fixed answer, or the message to save. Run by `HandleSendMessage`. */
  function MessageDispatch(line: Line): Dispatch<Message> {
    match DecodeMessage(line)
    case None => Answer(InvalidJson)
    case Some(cmd) =>
      if cmd.kind == "send_message" then
        if cmd.senderId == "" || cmd.conversationId == "" || cmd.content == "" then Answer(MissingMessageFields)
        else
          var sender, conversation := ObjectIdFromHex(cmd.senderId), ObjectIdFromHex(cmd.conversationId);
          if sender.None? || conversation.None? then Answer(InvalidMessageIds)
          else Call(Message(NilObjectId, conversation.value, sender.value, cmd.content, None))
      else Answer(UnknownCommand)
  }

  function MessageReply(r: Result<Message, ServiceError>): string {
    match r
    case Ok(saved) => "Message saved with ID: " + Hex(saved.id)
    case Err(e) => "Error saving message: " + e.Text()
  }

  /** The answer of `handleSendMessage` and the message collection it leaves. Specifies `HandleSendMessage`. */
  function MessageOutcome(line: Line, messages: seq<Message>, call: StoreCall): (string, seq<Message>) {
    match MessageDispatch(line)
    case Answer(reply) => (reply, messages)
    case Call(msg) =>
      var st := SaveMessage(messages, msg, call);
      (MessageReply(st.result), st.store)
  }

  method HandleSendMessage(line: Line, deps: Dependencies, call: StoreCall) returns (reply: string)
    modifies deps.messageService
    ensures (reply, deps.messageService.messages) == MessageOutcome(line, old(deps.messageService.messages), call)
  {
    var decoded := DecodeMessage(line);
    if decoded.None? {
      return InvalidJson;
    }
    var cmd := decoded.value;
    if cmd.kind == "send_message" {
      if cmd.senderId == "" || cmd.conversationId == "" || cmd.content == "" {
        return MissingMessageFields;
      }
      var senderId := ObjectIdFromHex(cmd.senderId);
      var convId := ObjectIdFromHex(cmd.conversationId);
      if senderId.None? || convId.None? {
        return InvalidMessageIds;
      }
      var message := Message(NilObjectId, convId.value, senderId.value, cmd.content, None);
      var saved := deps.messageService.CreateMessage(message, call);
      if saved.Err? {
        return "Error saving message: " + saved.error.Text();
      }
      return "Message saved with ID: " + Hex(saved.value.id);
    } else {
      return UnknownCommand;
    }
  }

  // ---------------------------------------------------------------------------
  // handleRoom: create_room

  /** The decision tree of `handleRoom`: a fixed answer, or the join it performs. Run by `HandleRoom`. */
  function RoomDispatch(line: Line): Dispatch<Join> {
    match DecodeRoom(line)
    case None => Answer(InvalidJson)
    case Some(cmd) =>
      if cmd.kind == "create_room" then
        if cmd.roomId == "" || cmd.playerId == "" || cmd.playerName == "" then Answer(MissingRoomFields)
        else Call(Join(cmd.roomId, cmd.playerId, cmd.playerName))
      else Answer(UnknownCommand)
  }

  /** The answer of `handleRoom`; it depends on the line alone. Specifies `HandleRoom`'s reply. */
  function RoomReply(line: Line): string {
    match RoomDispatch(line)
    case Answer(reply) => reply
    case Call(join) => RoomJoinedPrefix + join.roomId
  }

  /** The room a line joins, if it is a join: the one room id the registry may gain from it. */
  function RoomJoined(line: Line): set<string> {
    match RoomDispatch(line)
    case Answer(_) => {}
    case Call(join) => {join.roomId}
  }

  /** The player a join on this line leaves in the registry, if any. */
  function JoinFrame(registry: Registry, line: Line): set<Player>
    reads registry, registry.rooms.Values
  {
    match RoomDispatch(line)
    case Answer(_) => {}
    case Call(join) => registry.PlayerFrame(join.roomId, join.playerId)
  }

  /**
   * What `handleRoom` does to the registry: nothing on an answer; on a join, a
   * new player with the given id and name, full health, at the origin and on
   * this connection, under its id in the (possibly new) room.
   */
  twostate predicate RoomEffect(registry: Registry, line: Line, conn: ConnHandle)
    reads registry, registry.rooms.Values, JoinFrame(registry, line)
  {
    && (forall k | k in old(registry.rooms) :: k in registry.rooms && registry.rooms[k] == old(registry.rooms[k]))
    && (forall k | k in registry.rooms :: k in old(registry.rooms) || fresh(registry.rooms[k]))
    && match RoomDispatch(line)
       case Answer(_) => registry.view == old(registry.view)
       case Call(join) =>
         && join.roomId in registry.rooms && join.playerId in registry.rooms[join.roomId].players
         && var p := registry.rooms[join.roomId].players[join.playerId];
            && fresh(p) && p.name == join.playerName && p.conn == conn
            && p.health == JoinHealth && p.x == 0.0 && p.y == 0.0
            && registry.view == Joined(old(registry.view), join.roomId, p)
  }

  method HandleRoom(line: Line, deps: Dependencies, registry: Registry) returns (reply: string)
    requires registry.Valid()
    modifies registry, registry.rooms.Values
    ensures registry.Valid()
    ensures reply == RoomReply(line)
    ensures RoomEffect(registry, line, deps.conn)
    ensures registry.view.Keys == old(registry.view.Keys) + RoomJoined(line)
  {
    var decoded := DecodeRoom(line);
    if decoded.None? {
      return InvalidJson;
    }
    var cmd := decoded.value;
    if cmd.kind == "create_room" {
      if cmd.roomId == "" || cmd.playerId == "" || cmd.playerName == "" {
        return MissingRoomFields;
      }
      var player := new Player(cmd.playerId, cmd.playerName, JoinHealth, deps.conn);
      registry.AddPlayerToRoom(cmd.roomId, player);
      assert registry.view[cmd.roomId].players == registry.rooms[cmd.roomId].players;
      assert RoomDispatch(line) == Call(Join(cmd.roomId, cmd.playerId, cmd.playerName));
      assert registry.rooms[cmd.roomId].players[cmd.playerId] == player;
      assert fresh(player);
      assert player.health == JoinHealth && player.x == 0.0;
      return RoomJoinedPrefix + cmd.roomId;
    } else {
      return UnknownCommand;
    }
  }

  // ---------------------------------------------------------------------------
  // The connection loop's handling of one line

  /**
   * One iteration of the connection loop: all three handlers run on the line,
   * each with its side effects, and the reply written is `handleRoom`'s.
   */
  method HandleLine(line: Line, deps: Dependencies, registry: Registry, call: StoreCall) returns (reply: string)
    requires registry.Valid()
    modifies deps.conversationService, deps.messageService, registry, registry.rooms.Values
    ensures registry.Valid()
    ensures reply == RoomReply(line)
    ensures deps.conversationService.conversations
            == CommandOutcome(line, old(deps.conversationService.conversations), deps.conversationService.serviceName, call).1
    ensures deps.messageService.messages == MessageOutcome(line, old(deps.messageService.messages), call).1
    ensures RoomEffect(registry, line, deps.conn)
    ensures registry.view.Keys == old(registry.view.Keys) + RoomJoined(line)
    ensures forall r | r in registry.rooms.Values :: r in old(registry.rooms.Values) || fresh(r)
  {
    var response := HandleCommand(line, deps, call);
    response := HandleSendMessage(line, deps, call);
    response := HandleRoom(line, deps, registry);
    reply := response;
  }

  /** The conversation collection after `handleCommand` has served `lines` in turn, the i-th under `storeAt(i)`. */
  function ConversationsAfter(lines: seq<Line>, storeAt: nat -> StoreCall, convs: seq<Conversation>, svc: string): seq<Conversation>
  {
    if lines == [] then convs
    else
      var n := |lines| - 1;
      CommandOutcome(lines[n], ConversationsAfter(lines[..n], storeAt, convs, svc), svc, storeAt(n)).1
  }

  /** The message collection after `handleSendMessage` has served `lines` in turn, the i-th under `storeAt(i)`. */
  function MessagesAfter(lines: seq<Line>, storeAt: nat -> StoreCall, messages: seq<Message>): seq<Message>
  {
    if lines == [] then messages
    else
      var n := |lines| - 1;
      MessageOutcome(lines[n], MessagesAfter(lines[..n], storeAt, messages), storeAt(n)).1
  }

  /** The rooms the join lines among `lines` name, each added to the registry if it was absent. */
  function JoinedRooms(lines: seq<Line>): set<string>
  {
    if lines == [] then {}
    else
      var n := |lines| - 1;
      JoinedRooms(lines[..n]) + RoomJoined(lines[n])
  }

  /** Serving one more line extends each fold by that line's effect. */
  lemma AfterOneMore(lines: seq<Line>, storeAt: nat -> StoreCall, convs: seq<Conversation>, svc: string, messages: seq<Message>,
                     rooms: set<string>, i: nat)
    requires i < |lines|
    ensures Written(lines[..i + 1], RoomReply) == Written(lines[..i], RoomReply) + [RoomReply(lines[i]) + "\n"]
    ensures ConversationsAfter(lines[..i + 1], storeAt, convs, svc)
            == CommandOutcome(lines[i], ConversationsAfter(lines[..i], storeAt, convs, svc), svc, storeAt(i)).1
    ensures MessagesAfter(lines[..i + 1], storeAt, messages)
            == MessageOutcome(lines[i], MessagesAfter(lines[..i], storeAt, messages), storeAt(i)).1
    ensures rooms + JoinedRooms(lines[..i + 1]) == (rooms + JoinedRooms(lines[..i])) + RoomJoined(lines[i])
  {
    assert lines[..i + 1][..i] == lines[..i];
  }

  /**
   * The connection loop over the lines read before the peer disconnects: one
   * written line per line read, each `handleRoom`'s answer plus a newline.
   * `storeAt(i)` is what the store does while the i-th line is served.
   */
  method HandleConnection(lines: seq<Line>, storeAt: nat -> StoreCall, deps: Dependencies, registry: Registry)
    returns (written: seq<string>)
    requires registry.Valid()
    modifies deps.conversationService, deps.messageService, registry, registry.rooms.Values
    ensures registry.Valid()
    ensures |written| == |lines|
    ensures forall i | 0 <= i < |lines| :: written[i] == RoomReply(lines[i]) + "\n"
    ensures deps.conversationService.conversations
            == ConversationsAfter(lines, storeAt, old(deps.conversationService.conversations), deps.conversationService.serviceName)
    ensures deps.messageService.messages == MessagesAfter(lines, storeAt, old(deps.messageService.messages))
    ensures registry.view.Keys == old(registry.view.Keys) + JoinedRooms(lines)
  {
    written := [];
    var i := 0;
    while i < |lines|
      invariant 0 <= i <= |lines|
      invariant registry.Valid()
      invariant forall r | r in registry.rooms.Values :: r in old(registry.rooms.Values) || fresh(r)
      invariant written == Written(lines[..i], RoomReply)
      invariant deps.conversationService.conversations
                == ConversationsAfter(lines[..i], storeAt, old(deps.conversationService.conversations), deps.conversationService.serviceName)
      invariant deps.messageService.messages == MessagesAfter(lines[..i], storeAt, old(deps.messageService.messages))
      invariant registry.view.Keys == old(registry.view.Keys) + JoinedRooms(lines[..i])
    {
      AfterOneMore(lines, storeAt, old(deps.conversationService.conversations), deps.conversationService.serviceName,
                   old(deps.messageService.messages), old(registry.view.Keys), i);
      var reply := HandleLine(lines[i], deps, registry, storeAt(i));
      written := written + [reply + "\n"];
      i := i + 1;
    }
    assert lines[..i] == lines;
    WrittenLines(lines, RoomReply);
  }

  /** The lines written for `lines` when each is answered by `answer`: the answer plus a newline. */
  function Written(lines: seq<Line>, answer: Line -> string): seq<string>
  {
    if lines == [] then [] else Written(lines[..|lines| - 1], answer) + [answer(lines[|lines| - 1]) + "\n"]
  }

  /** One written line per line read, the i-th being the answer to the i-th line. */
  lemma {:induction false} WrittenLines(lines: seq<Line>, answer: Line -> string)
    ensures |Written(lines, answer)| == |lines|
    ensures forall i | 0 <= i < |lines| :: Written(lines, answer)[i] == answer(lines[i]) + "\n"
    decreases |lines|
  {
    if lines != [] {
      var init := lines[..|lines| - 1];
      WrittenLines(init, answer);
      assert forall i | 0 <= i < |init| :: lines[i] == init[i];
    }
  }
}
