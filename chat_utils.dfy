/** Record constructors and normalisers: turn API payloads into the client's
    message and conversation records, filling in defaults. Fresh ids and the
    current time, which the client draws from `crypto.randomUUID()` and
    `Date.now()`, are parameters here. */
module ChatUtils {
  import opened Records
  import opened Text

  /** `createMessage(role, content)` with the fresh id and the time supplied. */
  function CreateMessage(role: Role, content: string, id: string, now: int): (m: Message)
    ensures m.role == role && m.content == content
    ensures m.id == id && m.createdAt == now
    ensures m.userId == None && !m.streaming
  {
    Message(id, role, content, now, None, false)
  }

  /** One entry of the room-list response. */
  datatype ApiRoom = ApiRoom(chatRoomId: nat, title: Option<string>, isFavorited: JsValue)

  /** One room of the list in the client's format; it carries no messages yet. */
  function NormalizeRoom(room: ApiRoom, now: int): (c: Conversation)
    ensures c.id == NatToString(room.chatRoomId)
    ensures room.title.Some? ==> c.title == room.title.value
    ensures room.title.None? ==> c.title == DefaultTitle
    ensures c.isFavorited == Some(Truthy(room.isFavorited))
    ensures c.messages == [] && c.isTemp == None && c.createdAt == now
  {
    Conversation(NatToString(room.chatRoomId), room.title.GetOr(DefaultTitle), now, [], None,
                 Some(Truthy(room.isFavorited)))
  }

  /** `normalizeChatRooms(rooms)`: the rooms one for one, in the same order. */
  function NormalizeChatRooms(rooms: seq<ApiRoom>, now: int): (r: seq<Conversation>)
    ensures |r| == |rooms|
    ensures forall i :: 0 <= i < |rooms| ==> r[i] == NormalizeRoom(rooms[i], now)
  {
    seq(|rooms|, i requires 0 <= i < |rooms| => NormalizeRoom(rooms[i], now))
  }

  /** The ids of the normalised list are exactly the printed server ids. */
  lemma NormalizedIds(rooms: seq<ApiRoom>, now: int)
    ensures Ids(NormalizeChatRooms(rooms, now)) == set r | r in rooms :: NatToString(r.chatRoomId)
  {
    var r := NormalizeChatRooms(rooms, now);
    forall id | id in Ids(r) ensures id in set x | x in rooms :: NatToString(x.chatRoomId) {
      IdsWitness(r, id);
      var i :| 0 <= i < |r| && r[i].id == id;
      assert rooms[i] in rooms;
    }
  }

  /** A server list without repeated room ids normalises to a list without
      repeated conversation ids. */
  lemma NormalizeKeepsIdsUnique(rooms: seq<ApiRoom>, now: int)
    requires forall i, j :: 0 <= i < j < |rooms| ==> rooms[i].chatRoomId != rooms[j].chatRoomId
    ensures UniqueIds(NormalizeChatRooms(rooms, now))
  {
    var r := NormalizeChatRooms(rooms, now);
    forall i, j | 0 <= i < j < |r| ensures r[i].id != r[j].id {
      if r[i].id == r[j].id {
        NatToStringInjective(rooms[i].chatRoomId, rooms[j].chatRoomId);
      }
    }
  }

  /** The destructured options of `createConversation`; `None` leaves the
      default in force. */
  datatype ConversationOptions = ConversationOptions(
    id: Option<string>, messages: Option<seq<Message>>, isTemp: Option<bool>)

  const NoOptions: ConversationOptions := ConversationOptions(None, None, None)

  /** `createConversation(title, { id, messages, isTemp })`: supplied values are
      used as given; the defaults are the placeholder title, a fresh id, no
      messages and not temporary. */
  function CreateConversation(title: Option<string>, opts: ConversationOptions,
                              freshId: string, now: int): (c: Conversation)
    ensures c.title == if title.Some? then title.value else DefaultTitle
    ensures c.id == if opts.id.Some? then opts.id.value else freshId
    ensures c.messages == if opts.messages.Some? then opts.messages.value else []
    ensures c.isTemp == Some(opts.isTemp.Some? && opts.isTemp.value)
    ensures c.isFavorited == None && c.createdAt == now
  {
    Conversation(opts.id.GetOr(freshId), title.GetOr(DefaultTitle), now,
                 opts.messages.GetOr([]), Some(opts.isTemp.GetOr(false)), None)
  }

  /** One entry of a room's message history as the server sends it;
      `createdTime` is the already parsed `created_time`. */
  datatype ApiMessage = ApiMessage(
    messageId: nat, isUser: JsValue, message: Option<string>, createdTime: int, userId: Option<string>)

  function MapMessage(m: ApiMessage): (r: Message)
    ensures r.id == NatToString(m.messageId)
    ensures r.role == (if Truthy(m.isUser) then User else Assistant)
    ensures r.content == (if m.message.Some? then m.message.value else "")
    ensures r.userId == m.userId && r.createdAt == m.createdTime && !r.streaming
  {
    Message(NatToString(m.messageId), if Truthy(m.isUser) then User else Assistant,
            m.message.GetOr(""), m.createdTime, m.userId, false)
  }

  /** `mapMessages(apiMessages)`: the history one for one, in order. A missing
      history takes the default `[]` and maps to no messages; a `null` one makes
      `.map` throw, which is `None`. */
  function MapMessages(apiMessages: JsList<ApiMessage>): (r: Option<seq<Message>>)
    ensures r.None? <==> apiMessages.NullList?
    ensures apiMessages.MissingList? ==> r == Some([])
    ensures apiMessages.Items? ==> r.Some? && |r.value| == |apiMessages.items|
    ensures apiMessages.Items? ==>
              forall i :: 0 <= i < |apiMessages.items| ==> r.value[i] == MapMessage(apiMessages.items[i])
  {
    match apiMessages
    case MissingList => Some([])
    case NullList => None
    case Items(ms) => Some(seq(|ms|, i requires 0 <= i < |ms| => MapMessage(ms[i])))
  }
}
