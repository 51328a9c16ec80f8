/**
 * The wire side of the TCP endpoint below JSON syntax: a line is either text
 * whose decode fails (not JSON, or a JSON value other than an object or
 * `null`), or an object from field names to values; `null` decodes as the
 * empty object, since it leaves Go's struct at its zero value. Each
 * handler decodes the same line into its own struct, as `json.Unmarshal`
 * does: unknown fields are ignored, an absent or null field keeps Go's zero
 * value (the empty string, the empty list), and a known field holding a value
 * of the wrong JSON type makes that handler's decode fail.
 */
module Protocol {
  import opened Basics

  /** A JSON value, told apart only as far as the handlers' structs care. */
  datatype JsonValue = JString(s: string) | JStringArray(items: seq<string>) | JNull | JOther

  datatype Line = Malformed | Object(fields: map<string, JsonValue>)

  /** Decodes a `string` struct field; `None` is a type error. */
  function StringField(fields: map<string, JsonValue>, key: string): Option<string> {
    if key !in fields then Some("")
    else match fields[key]
      case JString(s) => Some(s)
      case JNull => Some("")
      case _ => None
  }

  /** Decodes a `[]string` struct field; `None` is a type error. */
  function StringListField(fields: map<string, JsonValue>, key: string): Option<seq<string>> {
    if key !in fields then Some([])
    else match fields[key]
      case JStringArray(items) => Some(items)
      case JNull => Some([])
      case _ => None
  }

  /** The `TCPCommand` struct (conversation commands). */
  datatype TCPCommand = TCPCommand(
    kind: string, senderId: string, receiverId: string, title: string, creatorId: string,
    participantIds: seq<string>)

  /** The `TCPMessage` struct (`send_message`). */
  datatype TCPMessage = TCPMessage(kind: string, senderId: string, conversationId: string, content: string)

  /** The `TCPRoom` struct (`create_room`). */
  datatype TCPRoom = TCPRoom(kind: string, roomId: string, playerId: string, playerName: string)

  function DecodeCommand(line: Line): Option<TCPCommand> {
    match line
    case Malformed => None
    case Object(f) =>
      var kind, sender, receiver := StringField(f, "type"), StringField(f, "senderId"), StringField(f, "receiverId");
      var title, creator := StringField(f, "title"), StringField(f, "creatorId");
      var participants := StringListField(f, "participantIds");
      if kind.None? || sender.None? || receiver.None? || title.None? || creator.None? || participants.None? then None
      else Some(TCPCommand(kind.value, sender.value, receiver.value, title.value, creator.value, participants.value))
  }

  function DecodeMessage(line: Line): Option<TCPMessage> {
    match line
    case Malformed => None
    case Object(f) =>
      var kind, sender := StringField(f, "type"), StringField(f, "senderId");
      var conversation, content := StringField(f, "conversationId"), StringField(f, "content");
      if kind.None? || sender.None? || conversation.None? || content.None? then None
      else Some(TCPMessage(kind.value, sender.value, conversation.value, content.value))
  }

  function DecodeRoom(line: Line): Option<TCPRoom> {
    match line
    case Malformed => None
    case Object(f) =>
      var kind, room := StringField(f, "type"), StringField(f, "roomId");
      var player, name := StringField(f, "playerId"), StringField(f, "playerName");
      if kind.None? || room.None? || player.None? || name.None? then None
      else Some(TCPRoom(kind.value, room.value, player.value, name.value))
  }

  /** `unicode.IsSpace`: the ASCII white space, NEL, NBSP and the Unicode space separators. */
  predicate IsSpace(c: char) {
    c == '\t' || c == '\n' || c == '\U{000B}' || c == '\U{000C}' || c == '\r' || c == ' '
    || c == '\U{0085}' || c == '\U{00A0}' || c == '\U{1680}' || '\U{2000}' <= c <= '\U{200A}'
    || c == '\U{2028}' || c == '\U{2029}' || c == '\U{202F}' || c == '\U{205F}' || c == '\U{3000}'
  }

  predicate AllSpace(s: string) {
    forall k | 0 <= k < |s| :: IsSpace(s[k])
  }

  function LeadingSpaces(s: string): (n: nat)
    ensures n <= |s| && AllSpace(s[..n]) && (n < |s| ==> !IsSpace(s[n]))
  {
    if s == [] || !IsSpace(s[0]) then 0 else 1 + LeadingSpaces(s[1..])
  }

  function TrailingSpaces(s: string): (n: nat)
    ensures n <= |s| && AllSpace(s[|s| - n..]) && (n < |s| ==> !IsSpace(s[|s| - 1 - n]))
  {
    if s == [] || !IsSpace(s[|s| - 1]) then 0 else 1 + TrailingSpaces(s[..|s| - 1])
  }

  /** The text left after dropping `lead` characters in front and `trail` behind. */
  lemma TrimmedSlice(s: string, lead: nat, trail: nat)
    requires lead <= |s| && trail <= |s| - lead
    ensures var rest := s[lead..];
            rest[..|rest| - trail] == s[lead..|s| - trail]
            && s[lead + (|s| - lead - trail)..] == rest[|rest| - trail..]
  {
  }

  /**
   * `strings.TrimSpace`: the slice of `s` left after dropping white space from
   * both ends; it neither starts nor ends with white space.
   */
  function TrimSpace(s: string): (t: string)
    ensures exists i | 0 <= i <= |s| - |t| :: t == s[i..i + |t|] && AllSpace(s[..i]) && AllSpace(s[i + |t|..])
    ensures t == [] || (!IsSpace(t[0]) && !IsSpace(t[|t| - 1]))
  {
    var lead := LeadingSpaces(s);
    var rest := s[lead..];
    var trail := TrailingSpaces(rest);
    var t := rest[..|rest| - trail];
    TrimmedSlice(s, lead, trail);
    assert t == s[lead..lead + |t|] && AllSpace(s[..lead]) && AllSpace(s[lead + |t|..]);
    assert t != [] ==> t[0] == s[lead] && t[|t| - 1] == rest[|rest| - 1 - trail];
    t
  }
}
