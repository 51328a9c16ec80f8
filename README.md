# Game_server core in Dafny

A model of the sequential core of a Go TCP chat and game server, with proofs
about it. The model covers four parts:

- **The room registry** (`internal/game/store.go`). It is a process-wide map
  from room id to room. A room is created, empty and `"waiting"`, the first
  time an id is referenced. Players can join, move and take damage. Health
  goes through Go's 64-bit `int` arithmetic and is then clamped at zero.
  `Game.Registry` is a class over a `map<string, GameRoom>`. Rooms and players
  are objects updated in place, as the Go code shares them by reference. A ghost field `view`
  holds each room's state and player map as values, and `Valid()` keeps it in
  step with the objects. Each method states its effect on `view`: `Resolve`
  for a room lookup and `Joined` for a join.
- **The per-line TCP handlers** (`internal/tcp/handler.go`). There are three
  handlers: conversation commands, `send_message` and `create_room`. Each
  decodes the same line into its own struct, validates it and answers with one
  line of text. The connection loop runs all three handlers on every line,
  with their side effects, and writes back only the last answer, the room
  handler's. The model keeps this behaviour as written.
- **The conversation service** (`internal/service/conversation_service.go`):
  private find-or-create, group creation and adding participants. It works
  over an in-memory conversation collection. The message service it sits
  beside is a port that stamps a fresh id and appends.
- **The error records** (`internal/utils/error.go`): six constructors with
  fixed codes, plus `Error()`.

Each service operation is first a function from the old collection to a
`Step`, which holds the result and the new collection. The service classes
run the same logic imperatively, and each method is proved equal to its
function. What the store does during one call is a `StoreCall` value: the
fresh id it mints, whether the lookup or the write fails, and which group the
group lookup hands back.

JSON decoding is modelled one level up. A line is either `Malformed` (text
whose decode fails: not JSON, or a JSON value other than an object or `null`)
or an object from field names to values. The text `null` decodes without error
and leaves the struct at its zero value, so it is the empty object. A handler's decode
fails when one of its known fields holds a value of the wrong JSON type. An
absent or `null` field decodes to Go's zero value. MongoDB's
`ObjectIDFromHex` accepts exactly 24 hexadecimal digits in either case, and
`Hex` renders lower case. Both are modelled in `object_ids.dfy`, with their
round trips proved.

Three behaviours of the code are kept as written, though a reader might expect otherwise:

- Adding participants appends the input users not already present, in input
  order, and keeps repeats within the input. It is not a deduplicated union.
  `ServiceProperties.NewUsersCount` states the exact multiplicities.
- Replies are not dispatched on `type`. Every line goes through all three
  handlers and only `handleRoom`'s answer is written.
  `HandlerProperties.ConversationReplyDiscarded` and
  `HandlerProperties.MessageReplyDiscarded` show that a conversation or
  message command takes effect, but its client reads "Unknown command" or
  "Invalid JSON format".
- Private conversations are unique per pair only while lookups work.
  `ServiceProperties.FailedLookupDuplicates` shows that a lookup failure leads
  to a second record for the same pair.

Files: `basics.dfy` (Option, Result), `object_ids.dfy`, `errors.dfy`,
`models.dfy` (the stored records), `game.dfy`, `game_properties.dfy`,
`service.dfy`, `service_properties.dfy`, `protocol.dfy` (decoded lines,
`strings.TrimSpace`), `handler.dfy` and `handler_properties.dfy`.

## Model

| member | source | states |
|---|---|---|
| `ObjectIds.ObjectIdFromHex` | internal/tcp/handler.go:70-74 | an id is produced exactly when the text is 24 hex digits, upper or lower case |
| `ObjectIds.Hex` | internal/tcp/handler.go:81 | renders an id as 24 lower-case hex digits, which parse again |
| `ObjectIds.DecodeEncode` | internal/tcp/handler.go:81 | decoding the hex rendering of any bytes gives back those bytes |
| `ObjectIds.EncodeDecode` | internal/tcp/handler.go:70-71 | rendering decoded hex gives the original text in lower case |
| `ObjectIds.HexRoundTrip` | internal/tcp/handler.go:81 | parsing `Hex(id)` yields `id` |
| `ObjectIds.ParsedHex` | internal/tcp/handler.go:70-71 | parsing accepted text and rendering it gives that text in lower case |
| `ObjectIds.HexInjective` | internal/service/conversation_service.go:137-140 | two ids with the same rendering are equal, so `Hex` keys a set of ids soundly |
| `Errors.NewUnauthorizedError` | internal/utils/error.go:24-33 | code 401, status 401, type VALIDATION_ERROR, message and service kept, not success |
| `Errors.NewBadRequestError` | internal/utils/error.go:35-44 | code 400, status 400, type VALIDATION_ERROR, message and service kept, not success |
| `Errors.NewConflictError` | internal/utils/error.go:46-55 | code 409, status 409, type CONFLICT_ERROR, message and service kept, not success |
| `Errors.NewInternalServerError` | internal/utils/error.go:57-66 | code 500, status 500, type VALIDATION_ERROR, message and service kept, not success |
| `Errors.NewUnauthenticatedError` | internal/utils/error.go:68-77 | code 401, status 401, type VALIDATION_ERROR, message and service kept, not success |
| `Errors.NewNotFoundError` | internal/utils/error.go:79-88 | code 404, status 404, type VALIDATION_ERROR, message and service kept, not success |
| `Errors.CustomError.Error` | internal/utils/error.go:18-20 | `Error()` is the record's message verbatim; `Errors.ConstructorsClassify` states this for every constructor |
| `Errors.ConstructorsClassify` | internal/utils/error.go:18-88 | every constructor's `Error()` is its message verbatim, it is never a success and its code equals its status; each lands in its own class (conflict, not found, bad request, internal, unauthorized) |
| `Errors.UnauthorizedIsUnauthenticated` | internal/utils/error.go:24-77 | the unauthorized and unauthenticated constructors build identical records |
| `Game.Sub64` | internal/game/store.go:65 | the 64-bit difference equals the exact difference modulo 2^64 |
| `Game.DamagedHealth` | internal/game/store.go:65-70 | health after damage is never negative; it is max(0, health - amount) when the difference fits in 64 bits, 0 on upward overflow, and the wrapped value on downward overflow |
| `Game.Player.constructor` | internal/tcp/handler.go:183-188 | a player has the given id, name, health and connection, at the origin |
| `Game.GameRoom.constructor` | internal/game/store.go:15-19 | a new room has the given id, no players and state "waiting" |
| `Game.Registry.constructor` | internal/game/store.go:5-8 | the registry starts empty |
| `Game.Resolve` | internal/game/store.go:9-23 | the rooms as values after a lookup: unchanged for a present id, one empty waiting room added for an absent id; `GameProperties.ResolveAddsAtMostOne` and `GameProperties.StatesStayWaiting` state its properties, and `GetOrCreateRoom`, `MovePlayer` and `ApplyDamage` are proved against it |
| `Game.Joined` | internal/game/store.go:29-35 | the rooms as values after a join: the resolved room holds the player under its id; `GameProperties.JoinedChangesOnePlayer` and `GameProperties.JoinTwiceOverwrites` state its properties, and `AddPlayerToRoom` is proved against it |
| `Game.Registry.GetOrCreateRoom` | internal/game/store.go:9-23 | a present id returns that room and changes nothing; an absent id inserts one fresh empty waiting room under it and touches no other room; keeps every room under its own id |
| `Game.Registry.AddPlayerToRoom` | internal/game/store.go:29-35 | the room (created if needed) holds the player under its id, replacing any earlier one; no other room or player entry changes |
| `Game.Registry.MovePlayer` | internal/game/store.go:40-52 | returns true exactly when the player is in the room; then sets its coordinates and keeps its health; only that player object may change, and at most an empty room is added |
| `Game.Registry.ApplyDamage` | internal/game/store.go:56-71 | returns true exactly when the target is in the room; then its health becomes the clamped 64-bit difference, never negative, with its position kept; only that player may change |
| `GameProperties.ResolveAddsAtMostOne` | internal/game/store.go:13-22 | resolving an id keeps all rooms, adds an empty waiting room only for an absent id, and resolving it again changes nothing |
| `GameProperties.JoinedChangesOnePlayer` | internal/game/store.go:29-34 | a join leaves other rooms and the room's state alone and changes only the joining player's entry |
| `GameProperties.JoinTwiceOverwrites` | internal/game/store.go:34 | two joins under the same player id leave only the second player |
| `GameProperties.StatesStayWaiting` | internal/game/store.go:15-19 | no registry operation takes a room out of the waiting state |
| `GameProperties.DamageClamps` | internal/game/store.go:65-70 | for non-negative health and damage, the result is max(0, health - amount) and never above the old health |
| `Service.FindPrivate` | internal/service/conversation_service.go:36-43 | the private lookup returns a stored non-group record holding both ids, and finds nothing exactly when none exists |
| `Service.GroupLookup` | internal/service/conversation_service.go:81-89 | whatever the group lookup returns is a stored group |
| `Service.FindById` | internal/service/conversation_service.go:124 | the lookup by id returns the position of the first record with that id, and finds nothing exactly when there is none |
| `Service.CreatePrivate` | internal/service/conversation_service.go:27-63 | the private find-or-create step; `ServiceProperties.SelfConversationRejected`, `ExistingPrivateReturned`, `NewPrivateStored`, `PrivateIdempotent`, `FailedLookupDuplicates` and `CreatePrivateKeepsPairsUnique` state its properties |
| `Service.CreateGroup` | internal/service/conversation_service.go:72-111 | the group creation step; `ServiceProperties.SmallGroupRejected`, `NewGroupStored` and `CreateGroupKeepsPairsUnique` state its properties |
| `Service.NewUsers` | internal/service/conversation_service.go:137-147 | the input users not already present, in input order, repeats kept; `ServiceProperties.NewUsersConcat`, `NewUsersCount` and `NewUsersEmpty` state its properties |
| `Service.AddUsers` | internal/service/conversation_service.go:118-168 | the add-participants step; `ServiceProperties.AddUsersFailureChangesNothing`, `AddUsersRejections`, `AddUsersNothingNew`, `AddUsersAppends` and `AddUsersKeepsPairsUnique` state its properties |
| `Service.SaveMessage` | internal/service/message_service.go:23-36 | the message save step; `ServiceProperties.MessageSaved` states its properties |
| `Service.NewParticipants` | internal/service/conversation_service.go:137-147 | the two loops (set of present ids keyed by hex text, then the filter) give exactly the input users not already present, in order |
| `Service.ConversationService.constructor` | internal/service/conversation_service.go:20-25 | a service starts with an empty conversation collection |
| `Service.ConversationService.CreatePrivateConversation` | internal/service/conversation_service.go:27-63 | result and new collection are those of the private find-or-create step |
| `Service.ConversationService.CreateGroupConversation` | internal/service/conversation_service.go:72-111 | result and new collection are those of the group creation step |
| `Service.ConversationService.AddUsersToGroupConversation` | internal/service/conversation_service.go:118-168 | result and new collection are those of the add-participants step |
| `Service.MessageService.constructor` | internal/service/message_service.go:17-21 | a message service starts with no messages |
| `Service.MessageService.CreateMessage` | internal/service/message_service.go:23-36 | result and new collection are those of the save step |
| `ServiceProperties.SelfConversationRejected` | internal/service/conversation_service.go:31-33 | a conversation with oneself is a Conflict with the fixed message, and nothing is stored |
| `ServiceProperties.FindPrivateSymmetric` | internal/service/conversation_service.go:36-41 | the private lookup gives the same answer for both argument orders |
| `ServiceProperties.FindPrivateAppend` | internal/service/conversation_service.go:43 | appending a record changes the lookup only when nothing earlier matched |
| `ServiceProperties.ExistingPrivateReturned` | internal/service/conversation_service.go:43-46 | an existing private conversation for the pair is returned in either order and nothing is stored |
| `ServiceProperties.NewPrivateStored` | internal/service/conversation_service.go:48-62 | with no match or a failed lookup, exactly one record (fresh id, not a group, participants [sender, receiver], created by sender) is stored and returned; a failed insert stores nothing and returns the store's error |
| `ServiceProperties.PrivateIdempotent` | internal/service/conversation_service.go:35-62 | a second request for the same pair, in either order, returns the same conversation and stores nothing more |
| `ServiceProperties.FailedLookupDuplicates` | internal/service/conversation_service.go:43-58 | a lookup that fails for a transport reason stores a second record for a pair that already has one |
| `ServiceProperties.CreatePrivateKeepsPairsUnique` | internal/service/conversation_service.go:35-62 | with working lookups, private creation never stores two private conversations with the same members |
| `ServiceProperties.CreateGroupKeepsPairsUnique` | internal/service/conversation_service.go:94-105 | group creation keeps private pairs unique |
| `ServiceProperties.SmallGroupRejected` | internal/service/conversation_service.go:77-79 | fewer than two participants is a Conflict with the fixed message, and nothing is stored |
| `ServiceProperties.NewGroupStored` | internal/service/conversation_service.go:88-110 | a group the lookup hands back is returned unchanged; otherwise one group with the fresh id, the title, the participants exactly as given and the creator is stored and returned, or the store's error with nothing stored |
| `ServiceProperties.NewUsersConcat` | internal/service/conversation_service.go:142-147 | filtering distributes over concatenation, so new users keep input order |
| `ServiceProperties.NewUsersCount` | internal/service/conversation_service.go:142-147 | a user occurs among the new users as often as in the input when not already present, and never otherwise; repeats are kept |
| `ServiceProperties.NewUsersEmpty` | internal/service/conversation_service.go:142-151 | nothing is new exactly when every input user is already present, the empty input included |
| `ServiceProperties.AddUsersFailureChangesNothing` | internal/service/conversation_service.go:118-168 | every failing add leaves the collection unchanged |
| `ServiceProperties.AddUsersRejections` | internal/service/conversation_service.go:124-134 | an unknown conversation is NotFound "conversation not found"; a private one is a Conflict with the fixed message |
| `ServiceProperties.AddUsersNothingNew` | internal/service/conversation_service.go:149-151 | when every input user is already in the group, the add is a Conflict "all users are already in the group" and nothing changes |
| `ServiceProperties.AddUsersAppends` | internal/service/conversation_service.go:136-168 | on success some input user was new, and only the found group changes: its participants become the old list followed by the new users in input order |
| `ServiceProperties.AddUsersKeepsPairsUnique` | internal/service/conversation_service.go:132-154 | adding participants touches only groups, so private pairs stay unique |
| `ServiceProperties.MessageSaved` | internal/service/message_service.go:27-35 | a saved message is the given one under the fresh id, appended; a failed insert stores nothing and returns the store's error |
| `Protocol.TrimSpace` | internal/tcp/handler.go:95 | the result is the slice of the input left after white space is dropped from both ends, and it neither starts nor ends with white space |
| `Protocol.DecodeCommand` | internal/tcp/handler.go:49-62 | the `json.Unmarshal` into `TCPCommand`: fails on a malformed line or a known field of the wrong JSON type, and an absent or null field is the zero value; `HandlerProperties.MalformedLineTouchesNothing`, `PrivateRequestChecks` and `GroupRequestChecks` state what follows from it |
| `Protocol.DecodeMessage` | internal/tcp/handler.go:120-131 | the same for `TCPMessage`; `HandlerProperties.MessageRequestChecks` states what follows from it |
| `Protocol.DecodeRoom` | internal/tcp/handler.go:163-174 | the same for `TCPRoom`; `HandlerProperties.RoomRequestChecks` states what follows from it |
| `Handler.ParticipantId` | internal/tcp/handler.go:95 | a participant string yields an id exactly when it is 24 hex digits after trimming |
| `Handler.ParseEach` | internal/tcp/handler.go:93-100 | the participant loop as a function over any per-item parser; `Handler.RejectionSticks`, `EachAccepted`, `AllParsedAccepted` and `FirstUnparsedRejected` state its properties |
| `Handler.RejectionSticks` | internal/tcp/handler.go:94-98 | for any per-item parser, once a prefix of the list is rejected, the whole list is rejected for the same string |
| `Handler.EachAccepted` | internal/tcp/handler.go:93-100 | for any per-item parser, an accepted list comes out in the same order and number, each item what the parser gave for its string |
| `Handler.AllParsedAccepted` | internal/tcp/handler.go:93-100 | for any per-item parser, a list is accepted when the parser takes every string |
| `Handler.FirstUnparsedRejected` | internal/tcp/handler.go:94-98 | for any per-item parser, the rejection names the first string the parser refuses |
| `Handler.ParticipantsAccepted` | internal/tcp/handler.go:93-100 | accepted participant ids come out in the same order and number, each parsed after trimming |
| `Handler.ParticipantsAcceptedIff` | internal/tcp/handler.go:94-99 | the list is accepted exactly when every participant id is valid after trimming |
| `Handler.FirstBadParticipant` | internal/tcp/handler.go:94-98 | a rejection names the first invalid participant id, untrimmed |
| `Handler.ParseParticipants` | internal/tcp/handler.go:93-100 | the participant loop returns the parsed ids or the first bad string, as the parsing function says |
| `Handler.CommandDispatch` | internal/tcp/handler.go:58-117 | the decision tree of `handleCommand`; `HandlerProperties.PrivateRequestChecks`, `GroupRequestChecks`, `GroupRejectionOrder`, `GroupRejectsFirstBadParticipant` and `UnknownTypeAnswered` characterize it |
| `Handler.CommandOutcome` | internal/tcp/handler.go:58-118 | the answer and conversation collection of `handleCommand`; `HandlerProperties.CommandReplyInitial`, `JoinLeavesStores` and `CommandKeepsPairsUnique` state its properties |
| `Handler.HandleCommand` | internal/tcp/handler.go:58-118 | the reply and the new conversation collection are those of the command decision function |
| `Handler.MessageDispatch` | internal/tcp/handler.go:127-160 | the decision tree of `handleSendMessage`; `HandlerProperties.MessageRequestChecks` and `UnknownTypeAnswered` characterize it |
| `Handler.MessageOutcome` | internal/tcp/handler.go:127-161 | the answer and message collection of `handleSendMessage`; `HandlerProperties.MessageReplyDiscarded` and `JoinLeavesStores` state its properties |
| `Handler.HandleSendMessage` | internal/tcp/handler.go:127-161 | the reply and the new message collection are those of the message decision function |
| `Handler.RoomDispatch` | internal/tcp/handler.go:170-197 | the decision tree of `handleRoom`; `HandlerProperties.RoomRequestChecks` characterizes it |
| `Handler.RoomReply` | internal/tcp/handler.go:170-198 | the answer of `handleRoom`; `HandlerProperties.WrittenRepliesAreRoomReplies` lists its forms |
| `Handler.RoomJoined` | internal/tcp/handler.go:177-190 | the room id a join line names, the only id the registry can gain from the line; `Handler.HandleRoom` ensures the registry's ids grow by exactly it |
| `Handler.RoomEffect` | internal/tcp/handler.go:183-190 | the registry change of `handleRoom`: nothing on an answer; on a join, a fresh player with the given id and name, health 100, at the origin and on this connection, stored under its id in the resolved room, as `Game.Joined` says |
| `Handler.HandleRoom` | internal/tcp/handler.go:170-198 | the reply depends on the line alone; a join adds a fresh player (given id and name, health 100, at the origin, on this connection) under its id in the resolved room; any other answer leaves the registry as it was; the registry's room ids grow by exactly the joined room |
| `Handler.HandleLine` | internal/tcp/handler.go:40-45 | all three handlers take effect on the line (the conversation and message collections as their outcome functions say, the registry as `RoomEffect` says) and the reply is `handleRoom`'s |
| `Handler.ConversationsAfter` | internal/tcp/handler.go:27-45 | the conversation collection after `handleCommand` has served the lines in turn; `HandlerProperties.ConnectionKeepsPairsUnique` states its properties |
| `Handler.MessagesAfter` | internal/tcp/handler.go:27-45 | the message collection after `handleSendMessage` has served the lines in turn; `HandlerProperties.ConnectionAppendsMessages` states its properties |
| `Handler.JoinedRooms` | internal/tcp/handler.go:27-45 | the room ids the join lines among the lines name |
| `Handler.Written` | internal/tcp/handler.go:27-45 | the lines written back, one answer plus a newline per line read; `Handler.WrittenLines` states its properties |
| `Handler.HandleConnection` | internal/tcp/handler.go:23-47 | one line is written per line read, each `handleRoom`'s answer plus a newline; afterwards the conversation and message collections are those of serving every line in turn, and the registry's room ids are the old ones plus the rooms the join lines name |
| `Handler.WrittenLines` | internal/tcp/handler.go:40-45 | whatever answers each line, the lines built up one at a time are one per line read, the i-th being the answer to the i-th line plus a newline |
| `HandlerProperties.MalformedLineTouchesNothing` | internal/tcp/handler.go:58-62 | a line whose decode fails (not JSON, or a JSON value other than an object or `null`) gets "Invalid JSON format" from every handler and changes no store or room |
| `HandlerProperties.NullLineIsUnknownCommand` | internal/tcp/handler.go:58-64 | the text `null`, which decodes to the zero struct like the empty object, gets "Unknown command" from every handler and changes no store |
| `HandlerProperties.PrivateRequestChecks` | internal/tcp/handler.go:65-76 | the service is called exactly when both ids are 24 hex digits, and then with the ids they spell; otherwise the answer is the missing-field or invalid-id message, with no call |
| `HandlerProperties.GroupRequestChecks` | internal/tcp/handler.go:83-108 | a group is requested exactly when the title is present, the creator is 24 hex digits and every participant is valid after trimming; the request carries the title, the creator and the participants in the order and number sent |
| `HandlerProperties.GroupRejectionOrder` | internal/tcp/handler.go:84-91 | missing fields are reported before a bad creator id |
| `HandlerProperties.GroupRejectsFirstBadParticipant` | internal/tcp/handler.go:93-98 | with a good creator, the answer quotes the first invalid participant id exactly as sent |
| `HandlerProperties.TrimAroundHex` | internal/tcp/handler.go:95 | trimming white space from around 24 hex digits leaves those digits |
| `HandlerProperties.CreatorIsNotTrimmed` | internal/tcp/handler.go:88-95 | a hex id after a blank is a valid participant but an invalid creator |
| `HandlerProperties.MessageRequestChecks` | internal/tcp/handler.go:134-156 | a message is saved exactly when both ids are 24 hex digits and the content is present, with a nil id, those ids, that content and no attachment; otherwise the missing-field or invalid-id message |
| `HandlerProperties.RoomRequestChecks` | internal/tcp/handler.go:177-192 | a player joins exactly when room id, player id and name are present, and the answer names the room; otherwise the missing-field message |
| `HandlerProperties.JoinLeavesStores` | internal/tcp/handler.go:40-42 | a join line changes neither the conversation nor the message collection |
| `HandlerProperties.UnknownTypeAnswered` | internal/tcp/handler.go:115-116 | each handler answers "Unknown command" to a well-typed line whose type it does not own, and changes nothing |
| `HandlerProperties.WrittenRepliesAreRoomReplies` | internal/tcp/handler.go:40-45 | every written reply is a JSON error, "Unknown command", the room missing-field message or a join confirmation |
| `HandlerProperties.CommandReplyInitial` | internal/tcp/handler.go:78-113 | every answer to a carried-out conversation command starts with 'C', 'E' or 'G' |
| `HandlerProperties.ConversationReplyDiscarded` | internal/tcp/handler.go:40-45 | when a conversation command is carried out, the written reply is "Unknown command" or "Invalid JSON format", never the command's own answer |
| `HandlerProperties.MessageReplyDiscarded` | internal/tcp/handler.go:40-45 | when a message is saved, the written reply is "Unknown command" or "Invalid JSON format", never "Message saved ..." |
| `HandlerProperties.CommandKeepsPairsUnique` | internal/tcp/handler.go:64-113 | one conversation command with a working lookup only appends to the collection and keeps private pairs unique |
| `HandlerProperties.ConnectionKeepsPairsUnique` | internal/tcp/handler.go:27-45 | over a connection whose lookups all work, the conversation collection only grows and no two private conversations share their members |
| `HandlerProperties.ConnectionAppendsMessages` | internal/tcp/handler.go:27-45 | over a connection, the old messages stay a prefix and at most one message is added per line |

## Left out

- Handler.HandleConnection: across a whole connection the contract states the conversation and message collections and which room ids the registry holds, but not the players inside the rooms; each line's join is stated by `Handler.HandleLine` through `Handler.RoomEffect`.
- Sockets and concurrency are not modelled: the TCP listener and accept loop, the per-connection goroutines, reading lines from the socket, logging, and closing the connection. `Handler.HandleConnection` takes the lines read before the peer disconnects as a sequence.
- The `strings.TrimSpace` of each whole line (internal/tcp/handler.go:34) is not modelled as a separate step. A `Line` stands for the result of trimming and then decoding, so nothing is lost: what the trim removes decides which `Line` a text becomes, and the model starts from that `Line`.
- JSON decoding is abstracted. Go matches keys case-insensitively and handles duplicate keys. The model only sees a decoded field map (the empty one for `null`) or `Malformed` for a text whose decode fails.
- The registry lock and the per-room locks are left out. Operations run one at a time.
- Coordinates are `float64` in the source. Here they are reals that are only ever assigned; there is no floating-point arithmetic.
- The player "defeated" handling is a TODO comment in the source and does nothing, so nothing models it.
- Mongo behaviour is not modelled beyond one in-memory collection: contexts and timeouts, `time.Now` timestamps, `createdAt`/`updatedAt`, the `user` collection and BSON encoding. Store failures are explicit `StoreCall` outcomes instead.
- The lookups return the first match in insertion order, where Mongo's `FindOne` without a sort promises no order. The written reply does not depend on which match is returned; `handleCommand`'s own answer names it, but that answer is discarded.
- ServiceProperties.PrivateIdempotent: over a store that already holds two private records for the pair (which `ServiceProperties.FailedLookupDuplicates` shows can arise), idempotence rests on the first-match choice; with an arbitrary match, the second request could return the other record.
- The group-existence filter puts the title inside `$all` on participants, and its Mongo meaning is unclear. It is modelled as a free choice of a stored group (`StoreCall.groupMatch`).
- Service.ConversationService.AddUsersToGroupConversation: the `ModifiedCount == 0` conflict ("no changes were made") is not modelled. It needs the record to vanish between the find and the update, and in a one-at-a-time store the update always changes the participant list, because at least one user is new.
- `CustomError.ToJSON` is not modelled. The `SERVICE_NAME` environment read is replaced by a `service` parameter.
- HTTP routes, middleware, the database bootstrap, e-mail and the settings model are outside this core. The server wiring leaves `MessageService` nil; the model assumes both services are present.
