/**
 * What the TCP handlers promise a client, stated over their decision
 * functions: which requests reach a service, with which ids, what every
 * rejection answers, and what the connection loop finally writes back.
 */
module HandlerProperties {
  import opened Basics
  import opened ObjectIds
  import opened Models
  import opened Service
  import opened Protocol
  import opened Handler
  import opened ServiceProperties

  /** Text whose decode fails (not JSON, or a JSON value other than an object or `null`) is rejected by every handler and changes no store. */
  lemma MalformedLineTouchesNothing(convs: seq<Conversation>, messages: seq<Message>, svc: string, call: StoreCall)
    ensures CommandOutcome(Malformed, convs, svc, call) == (InvalidJson, convs)
    ensures MessageOutcome(Malformed, messages, call) == (InvalidJson, messages)
    ensures RoomReply(Malformed) == InvalidJson
  {
  }

  /**
   * The text `null` decodes without error to the zero struct, as the empty
   * object does: its empty type is "Unknown command" to every handler, and no
   * store changes.
   */
  lemma NullLineIsUnknownCommand(convs: seq<Conversation>, messages: seq<Message>, svc: string, call: StoreCall)
    ensures CommandOutcome(Object(map[]), convs, svc, call) == (UnknownCommand, convs)
    ensures MessageOutcome(Object(map[]), messages, call) == (UnknownCommand, messages)
    ensures RoomReply(Object(map[])) == UnknownCommand
  {
  }

  // ---------------------------------------------------------------------------
  // create_conversation

  /**
   * A private conversation is requested exactly when both ids are 24 hex
   * digits, and then for the ids those digits spell; otherwise the answer
   * names the missing field or the bad ids.
   */
  lemma PrivateRequestChecks(line: Line)
    requires DecodeCommand(line).Some? && DecodeCommand(line).value.kind == "create_conversation"
    ensures var cmd := DecodeCommand(line).value;
            CommandDispatch(line).Call? <==> IsObjectIdHex(cmd.senderId) && IsObjectIdHex(cmd.receiverId)
    ensures var cmd, d := DecodeCommand(line).value, CommandDispatch(line);
            d.Call? ==> d.request.PrivateCall?
                        && Hex(d.request.senderId) == LowerAll(cmd.senderId)
                        && Hex(d.request.receiverId) == LowerAll(cmd.receiverId)
    ensures var cmd, d := DecodeCommand(line).value, CommandDispatch(line);
            d.Answer? ==> d.reply == if cmd.senderId == "" || cmd.receiverId == "" then MissingPrivateFields
                                     else InvalidPrivateIds
  {
    var cmd := DecodeCommand(line).value;
    if CommandDispatch(line).Call? {
      ParsedHex(cmd.senderId);
      ParsedHex(cmd.receiverId);
    }
  }

  // ---------------------------------------------------------------------------
  // create_group_conversation

  /**
   * A group is requested exactly when the title is present, the creator id is
   * 24 hex digits as sent, and there is at least one participant id and every
   * one of them is 24 hex digits after trimming; the request then carries the
   * title, the creator, and the participants in the order and number sent.
   */
  lemma GroupRequestChecks(line: Line)
    requires DecodeCommand(line).Some? && DecodeCommand(line).value.kind == "create_group_conversation"
    ensures var cmd := DecodeCommand(line).value;
            CommandDispatch(line).Call?
            <==> cmd.title != "" && IsObjectIdHex(cmd.creatorId) && |cmd.participantIds| > 0
                 && forall i | 0 <= i < |cmd.participantIds| :: ValidParticipant(cmd.participantIds[i])
    ensures var cmd, d := DecodeCommand(line).value, CommandDispatch(line);
            d.Call? ==> d.request.GroupCall?
                        && d.request.input.title == cmd.title
                        && Hex(d.request.input.creatorId) == LowerAll(cmd.creatorId)
                        && |d.request.input.participants| == |cmd.participantIds|
                        && forall i | 0 <= i < |cmd.participantIds| ::
                             Some(d.request.input.participants[i]) == ParticipantId(cmd.participantIds[i])
  {
    var cmd := DecodeCommand(line).value;
    ParticipantsAcceptedIff(cmd.participantIds);
    if CommandDispatch(line).Call? {
      ParticipantsAccepted(cmd.participantIds);
      ParsedHex(cmd.creatorId);
    }
  }

  /** The checks run in order: missing fields, then the creator, then the participants. */
  lemma GroupRejectionOrder(line: Line)
    requires DecodeCommand(line).Some? && DecodeCommand(line).value.kind == "create_group_conversation"
    ensures var cmd, d := DecodeCommand(line).value, CommandDispatch(line);
            && (cmd.title == "" || cmd.creatorId == "" || |cmd.participantIds| == 0 ==> d == Answer(MissingGroupFields))
            && (cmd.title != "" && cmd.creatorId != "" && |cmd.participantIds| > 0 && !IsObjectIdHex(cmd.creatorId)
                ==> d == Answer(InvalidCreator))
  {
  }

  /**
   * When some participant id is invalid, the answer quotes the first invalid
   * one exactly as it was sent, whatever follows it.
   */
  lemma GroupRejectsFirstBadParticipant(line: Line, k: nat)
    requires DecodeCommand(line).Some?
    requires var cmd := DecodeCommand(line).value;
             && cmd.kind == "create_group_conversation" && cmd.title != "" && IsObjectIdHex(cmd.creatorId)
             && k < |cmd.participantIds| && !ValidParticipant(cmd.participantIds[k])
             && forall j | 0 <= j < k :: ValidParticipant(cmd.participantIds[j])
    ensures CommandDispatch(line) == Answer(InvalidParticipantPrefix + DecodeCommand(line).value.participantIds[k])
  {
    FirstBadParticipant(DecodeCommand(line).value.participantIds, k);
  }

  /** Leading white space stops at the first character that is not white space. */
  lemma {:induction false} LeadingOverSpaces(pre: string, rest: string)
    requires AllSpace(pre) && rest != [] && !IsSpace(rest[0])
    ensures LeadingSpaces(pre + rest) == |pre|
  {
    if pre != [] {
      assert (pre + rest)[1..] == pre[1..] + rest;
      LeadingOverSpaces(pre[1..], rest);
    }
  }

  /** Trailing white space stops at the last character that is not white space. */
  lemma {:induction false} TrailingOverSpaces(rest: string, post: string)
    requires AllSpace(post) && rest != [] && !IsSpace(rest[|rest| - 1])
    ensures TrailingSpaces(rest + post) == |post|
  {
    if post != [] {
      assert (rest + post)[..|rest + post| - 1] == rest + post[..|post| - 1];
      TrailingOverSpaces(rest, post[..|post| - 1]);
    }
  }

  /** Trimming white space from around 24 hex digits leaves exactly those digits. */
  lemma TrimAroundHex(pre: string, h: string, post: string)
    requires AllSpace(pre) && AllSpace(post) && IsObjectIdHex(h)
    ensures TrimSpace(pre + h + post) == h
  {
    var s := pre + h + post;
    assert s == pre + (h + post);
    LeadingOverSpaces(pre, h + post);
    assert s[|pre|..] == h + post;
    TrailingOverSpaces(h, post);
  }

  /**
   * Participant ids are trimmed before parsing but the creator id is not:
   * 24 hex digits after a blank are a valid participant and an invalid creator.
   */
  lemma CreatorIsNotTrimmed(h: string)
    requires IsObjectIdHex(h)
    ensures ValidParticipant(" " + h)
    ensures !IsObjectIdHex(" " + h)
  {
    TrimAroundHex(" ", h, "");
    assert " " + h + "" == " " + h;
  }

  // ---------------------------------------------------------------------------
  // send_message

  /**
   * A message is saved exactly when both ids are 24 hex digits and the content
   * is present; it is saved with a nil id (the store assigns one), those ids,
   * that content and no attachment.
   */
  lemma MessageRequestChecks(line: Line)
    requires DecodeMessage(line).Some? && DecodeMessage(line).value.kind == "send_message"
    ensures var cmd := DecodeMessage(line).value;
            MessageDispatch(line).Call?
            <==> IsObjectIdHex(cmd.senderId) && IsObjectIdHex(cmd.conversationId) && cmd.content != ""
    ensures var cmd, d := DecodeMessage(line).value, MessageDispatch(line);
            d.Call? ==> && d.request.id == NilObjectId
                        && Hex(d.request.senderId) == LowerAll(cmd.senderId)
                        && Hex(d.request.conversationId) == LowerAll(cmd.conversationId)
                        && d.request.content == cmd.content && d.request.attachmentUrl.None?
    ensures var cmd, d := DecodeMessage(line).value, MessageDispatch(line);
            d.Answer? ==> d.reply == if cmd.senderId == "" || cmd.conversationId == "" || cmd.content == ""
                                     then MissingMessageFields else InvalidMessageIds
  {
    var cmd := DecodeMessage(line).value;
    if MessageDispatch(line).Call? {
      ParsedHex(cmd.senderId);
      ParsedHex(cmd.conversationId);
    }
  }

  // ---------------------------------------------------------------------------
  // create_room

  /** A player joins exactly when room id, player id and name are all present; the answer names the room. */
  lemma RoomRequestChecks(line: Line)
    requires DecodeRoom(line).Some? && DecodeRoom(line).value.kind == "create_room"
    ensures var cmd := DecodeRoom(line).value;
            RoomDispatch(line).Call? <==> cmd.roomId != "" && cmd.playerId != "" && cmd.playerName != ""
    ensures var cmd := DecodeRoom(line).value;
            RoomReply(line) == if RoomDispatch(line).Call? then RoomJoinedPrefix + cmd.roomId else MissingRoomFields
  {
  }

  /** A join reaches neither service: the other two handlers answer without a call. */
  lemma JoinLeavesStores(line: Line, convs: seq<Conversation>, messages: seq<Message>, svc: string, call: StoreCall)
    requires RoomDispatch(line).Call?
    ensures CommandOutcome(line, convs, svc, call).1 == convs
    ensures MessageOutcome(line, messages, call).1 == messages
  {
  }

  // ---------------------------------------------------------------------------
  // Types a handler does not own

  /** A well-typed line whose type a handler does not own gets "Unknown command" from it, and no store changes. */
  lemma UnknownTypeAnswered(line: Line, convs: seq<Conversation>, messages: seq<Message>, svc: string, call: StoreCall)
    ensures DecodeCommand(line).Some? && DecodeCommand(line).value.kind != "create_conversation"
            && DecodeCommand(line).value.kind != "create_group_conversation"
            ==> CommandOutcome(line, convs, svc, call) == (UnknownCommand, convs)
    ensures DecodeMessage(line).Some? && DecodeMessage(line).value.kind != "send_message"
            ==> MessageOutcome(line, messages, call) == (UnknownCommand, messages)
    ensures DecodeRoom(line).Some? && DecodeRoom(line).value.kind != "create_room"
            ==> RoomDispatch(line) == Answer(UnknownCommand)
  {
  }

  // ---------------------------------------------------------------------------
  // What the connection loop writes

  /** Every reply written is one of `handleRoom`'s: a JSON error, an unknown command, a missing field, or a join. */
  lemma WrittenRepliesAreRoomReplies(line: Line)
    ensures var w := RoomReply(line);
            || w == InvalidJson || w == UnknownCommand || w == MissingRoomFields
            || (RoomDispatch(line).Call? && w == RoomJoinedPrefix + RoomDispatch(line).request.roomId)
  {
  }

  /** Both the private and the group answer start with 'C', 'E' or 'G'. */
  lemma CommandReplyInitial(line: Line, convs: seq<Conversation>, svc: string, call: StoreCall)
    requires CommandDispatch(line).Call?
    ensures var reply := CommandOutcome(line, convs, svc, call).0;
            |reply| > 0 && (reply[0] == 'C' || reply[0] == 'E' || reply[0] == 'G')
  {
    match CommandDispatch(line).request
    case PrivateCall(sender, receiver) =>
      var r := CreatePrivate(convs, sender, receiver, svc, call).result;
      if r.Ok? {
        assert PrivateReply(r)[0] == "Conversation created with ID: "[0];
      } else {
        assert PrivateReply(r)[0] == "Error creating conversation: "[0];
      }
    case GroupCall(input) =>
      var r := CreateGroup(convs, input, svc, call).result;
      if r.Ok? {
        assert GroupReply(r)[0] == "Group conversation created with ID: "[0];
      } else {
        assert GroupReply(r)[0] == "Error creating group conversation: "[0];
      }
  }

  /**
   * A conversation command is carried out, but its answer is never written:
   * the line's type is not `create_room`, so the reply the client receives is
   * `handleRoom`'s "Unknown command" (or its JSON error) instead.
   */
  lemma ConversationReplyDiscarded(line: Line, convs: seq<Conversation>, svc: string, call: StoreCall)
    requires CommandDispatch(line).Call?
    ensures RoomReply(line) == UnknownCommand || RoomReply(line) == InvalidJson
    ensures RoomReply(line) != CommandOutcome(line, convs, svc, call).0
  {
    CommandReplyInitial(line, convs, svc, call);
    var w := RoomReply(line);
    if w == UnknownCommand {
      assert w[0] == 'U';
    } else {
      assert w[0] == 'I';
    }
  }

  /** The same holds of a saved message: its answer is replaced by `handleRoom`'s. */
  lemma MessageReplyDiscarded(line: Line, messages: seq<Message>, call: StoreCall)
    requires MessageDispatch(line).Call?
    ensures RoomReply(line) == UnknownCommand || RoomReply(line) == InvalidJson
    ensures RoomReply(line) != MessageOutcome(line, messages, call).0
  {
    var reply := MessageOutcome(line, messages, call).0;
    var r := SaveMessage(messages, MessageDispatch(line).request, call).result;
    if r.Ok? {
      assert reply[0] == "Message saved with ID: "[0];
    } else {
      assert reply[0] == "Error saving message: "[0];
    }
    var w := RoomReply(line);
    if w == UnknownCommand {
      assert w[0] == 'U';
    } else {
      assert w[0] == 'I';
    }
  }

  // ---------------------------------------------------------------------------
  // A whole connection

  /** One conversation command with a working lookup only appends, and keeps private pairs unique. */
  lemma CommandKeepsPairsUnique(line: Line, convs: seq<Conversation>, svc: string, call: StoreCall)
    requires UniquePrivatePairs(convs) && call.find.Succeeds?
    ensures var after := CommandOutcome(line, convs, svc, call).1;
            convs <= after && UniquePrivatePairs(after)
  {
    match CommandDispatch(line)
    case Answer(_) =>
    case Call(PrivateCall(sender, receiver)) =>
      CreatePrivateKeepsPairsUnique(convs, sender, receiver, svc, call);
    case Call(GroupCall(input)) =>
      CreateGroupKeepsPairsUnique(convs, input, svc, call);
  }

  /**
   * Over a connection whose lookups all work, the conversation collection only
   * grows, and no two private conversations ever come to share their members.
   */
  lemma {:induction false} ConnectionKeepsPairsUnique(lines: seq<Line>, storeAt: nat -> StoreCall, convs: seq<Conversation>, svc: string)
    requires UniquePrivatePairs(convs)
    requires forall i: nat | i < |lines| :: storeAt(i).find.Succeeds?
    ensures var after := ConversationsAfter(lines, storeAt, convs, svc);
            convs <= after && UniquePrivatePairs(after)
  {
    if lines != [] {
      var n := |lines| - 1;
      ConnectionKeepsPairsUnique(lines[..n], storeAt, convs, svc);
      CommandKeepsPairsUnique(lines[n], ConversationsAfter(lines[..n], storeAt, convs, svc), svc, storeAt(n));
    }
  }

  /** Over a connection, saved messages are only ever appended, at most one per line. */
  lemma {:induction false} ConnectionAppendsMessages(lines: seq<Line>, storeAt: nat -> StoreCall, messages: seq<Message>)
    ensures var after := MessagesAfter(lines, storeAt, messages);
            messages <= after && |after| <= |messages| + |lines|
  {
    if lines != [] {
      var n := |lines| - 1;
      ConnectionAppendsMessages(lines[..n], storeAt, messages);
    }
  }
}
