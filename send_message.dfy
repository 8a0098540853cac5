/** The send coordinator of the chat client: `onSend` with its re-entrancy lock,
    the optimistic temporary room and its rewrite to the persisted id, the
    one-time rename of a placeholder title, the user message and the empty
    assistant placeholder, and the streamed reply.

    `onSend` is an async function; `Sender` splits it at its suspension points:
    `Begin` runs up to `await ensureConversationPromise`, `Resolve` continues once
    that promise settles, `Chunk` handles one chunk of the reply stream and
    `Finish` runs when the stream ends or fails. `OnSend` runs all of them in a
    row. The room-creation response and the reply stream are inputs. */
module SendMessage {
  import opened Records
  import opened Text
  import opened ChatUtils
  import opened Messages
  import opened ChatRooms

  /** The text appended to the reply when creating the room or streaming fails. */
  const ErrorMarker: string := "\n(에러) 답변을 불러오지 못했습니다."

  /** `trimmed.slice(0, 20) || "새 대화"`: the title a new or renamed room takes. */
  function TitleFrom(trimmed: string): (t: string)
    ensures |t| <= 20
    ensures trimmed != [] ==> t == Take(trimmed, 20) && t != []
    ensures trimmed == [] ==> t == DefaultTitle
  {
    var prefix := Take(trimmed, 20);
    if prefix != [] then prefix else DefaultTitle
  }

  /** The temporary-room path: on the landing route, or with no active room id
      (absent or empty, both falsy). */
  predicate TakesTempPath(pathname: string, activeConv: Option<Conversation>) {
    pathname == "/" || activeConv.None? || activeConv.value.id == ""
  }

  /** The optimistic room shown before the server has one. */
  function TempConversation(trimmed: string, tempId: string, now: int): (c: Conversation)
    ensures c.id == tempId && c.isTemp == Some(true) && c.messages == []
    ensures c.title == TitleFrom(trimmed) && c.isFavorited == None
  {
    CreateConversation(Some(TitleFrom(trimmed)), ConversationOptions(Some(tempId), None, Some(true)),
                       tempId, now)
  }

  /** The rewrite once the room is persisted: the temporary entry takes the real
      id, the server's `query` as title when it sent one, and stops being
      temporary; its messages and its slot stay. */
  function Persist(convs: seq<Conversation>, tempId: string, realId: string, query: Option<string>)
    : (r: seq<Conversation>)
    ensures |r| == |convs|
    ensures forall i :: 0 <= i < |convs| && convs[i].id != tempId ==> r[i] == convs[i]
    ensures forall i :: 0 <= i < |convs| && convs[i].id == tempId ==>
              r[i] == convs[i].(id := realId, title := query.GetOr(convs[i].title), isTemp := Some(false))
  {
    UpdateWhere(convs, tempId,
                (c: Conversation) => c.(id := realId, title := query.GetOr(c.title), isTemp := Some(false)))
  }

  /** The response of the room-creation request. */
  datatype CreateOutcome = Created(chatRoomId: nat, query: Option<string>) | CreateFailed

  /** The reply stream: the chunks it yielded, and whether it then failed (a
      failure to open it is a failure with no chunks). */
  datatype Stream = Stream(chunks: seq<string>, failed: bool)

  /** The fresh ids and the time one send draws. */
  datatype Drawn = Drawn(tempId: string, userMessageId: string, replyId: string, now: int)

  /** Where a suspended send stands. `Ensuring` waits for the room id (`creating`
      when a room is being created under the temporary id `conversationId`);
      `Streaming` consumes the reply into message `replyId`. */
  datatype Phase =
    | Idle
    | Ensuring(conversationId: string, replyId: string, creating: bool)
    | Streaming(conversationId: string, replyId: string)

  /** The room the first part of the send writes to. */
  function BeginTarget(pathname: string, activeConv: Option<Conversation>, drawn: Drawn): string {
    if TakesTempPath(pathname, activeConv) then drawn.tempId else activeConv.value.id
  }

  /** The list after the first write of `onSend`: the temporary room upserted on
      that path, nothing on the other. */
  function WithRoom(convs: seq<Conversation>, pathname: string, activeConv: Option<Conversation>,
                    trimmed: string, drawn: Drawn): seq<Conversation>
  {
    if TakesTempPath(pathname, activeConv) then
      Upsert(convs, TempConversation(trimmed, drawn.tempId, drawn.now))
    else convs
  }

  /** The user message and then the empty assistant placeholder, both pushed to `cid`. */
  function WithTurn(convs: seq<Conversation>, cid: string, trimmed: string, drawn: Drawn)
    : seq<Conversation>
  {
    var l := PushMessage(convs, cid, User, trimmed, drawn.userMessageId, drawn.now).conversations;
    PushMessage(l, cid, Assistant, "", drawn.replyId, drawn.now).conversations
  }

  /** The rename of an existing room whose title is still a placeholder. */
  function WithRename(convs: seq<Conversation>, pathname: string, activeConv: Option<Conversation>,
                      trimmed: string): seq<Conversation>
  {
    if !TakesTempPath(pathname, activeConv) && IsPlaceholderTitle(activeConv.value.title) then
      Retitle(convs, activeConv.value.id, TitleFrom(trimmed))
    else convs
  }

  /** The list after the synchronous part of `onSend`: the temporary room (on that
      path), the user message and the empty placeholder, and the rename of a
      placeholder title (on the other path). */
  function BeginList(convs: seq<Conversation>, pathname: string, activeConv: Option<Conversation>,
                     trimmed: string, drawn: Drawn): seq<Conversation>
  {
    WithRename(WithTurn(WithRoom(convs, pathname, activeConv, trimmed, drawn),
                        BeginTarget(pathname, activeConv, drawn), trimmed, drawn),
               pathname, activeConv, trimmed)
  }

  /** What the reply ends up holding: the chunks in order, then the marker on failure. */
  function StreamedText(stream: Stream): string {
    Concat(stream.chunks) + (if stream.failed then ErrorMarker else "")
  }

  /** The list after the reply stream has been consumed into the placeholder. */
  function StreamInto(convs: seq<Conversation>, cid: string, replyId: string, stream: Stream)
    : seq<Conversation>
  {
    var l := AppendChunks(convs, cid, replyId, stream.chunks);
    if stream.failed then AppendToMessage(l, cid, replyId, ErrorMarker) else l
  }

  /** The list after the whole of `onSend`, once it got past its guard. */
  function SendList(convs: seq<Conversation>, pathname: string, activeConv: Option<Conversation>,
                    trimmed: string, drawn: Drawn, creation: CreateOutcome, stream: Stream)
    : seq<Conversation>
  {
    var l := BeginList(convs, pathname, activeConv, trimmed, drawn);
    if TakesTempPath(pathname, activeConv) then
      match creation
      case Created(n, query) =>
        StreamInto(Persist(l, drawn.tempId, NatToString(n), query), NatToString(n), drawn.replyId, stream)
      case CreateFailed => AppendToMessage(l, drawn.tempId, drawn.replyId, ErrorMarker)
    else StreamInto(l, activeConv.value.id, drawn.replyId, stream)
  }

  /** The active id after the whole of `onSend`. */
  function SendActiveId(activeId: Option<string>, pathname: string, activeConv: Option<Conversation>,
                        drawn: Drawn, creation: CreateOutcome): Option<string>
  {
    if !TakesTempPath(pathname, activeConv) then activeId
    else if creation.Created? then Some(NatToString(creation.chatRoomId))
    else Some(drawn.tempId)
  }

  /** The reply as it stands once the send is over. */
  function FinalReply(drawn: Drawn, stream: Stream): Message {
    CreateMessage(Assistant, StreamedText(stream), drawn.replyId, drawn.now)
  }

  /** The user's message. */
  function UserMessage(trimmed: string, drawn: Drawn): Message {
    CreateMessage(User, trimmed, drawn.userMessageId, drawn.now)
  }

  /** Appending to the last message of a list, when no earlier message shares its id. */
  lemma AppendToLastMessage(msgs: seq<Message>, replyId: string, chunk: string)
    requires |msgs| > 0 && msgs[|msgs| - 1].id == replyId
    requires forall j :: 0 <= j < |msgs| - 1 ==> msgs[j].id != replyId
    ensures AppendToContent(msgs, replyId, chunk)
         == msgs[..|msgs| - 1] + [msgs[|msgs| - 1].(content := msgs[|msgs| - 1].content + chunk)]
  {
  }

  /** Appending to the reply of a fresh turn, whose user message has another id,
      fills the reply and leaves the user message alone. */
  lemma AppendToTurn(user: Message, replyId: string, now: int, text: string)
    requires user.id != replyId
    ensures AppendToContent([user, CreateMessage(Assistant, "", replyId, now)], replyId, text)
         == [user, CreateMessage(Assistant, text, replyId, now)]
  {
    assert "" + text == text;
  }

  /** The whole stream step is a single append of the streamed text. */
  lemma StreamIntoIsOneAppend(convs: seq<Conversation>, cid: string, replyId: string, stream: Stream)
    ensures StreamInto(convs, cid, replyId, stream)
         == AppendToMessage(convs, cid, replyId, StreamedText(stream))
  {
    AppendChunksIsConcat(convs, cid, replyId, stream.chunks);
    if stream.failed {
      AppendTwice(convs, cid, replyId, Concat(stream.chunks), ErrorMarker);
    } else {
      AppendEmptyChunk(AppendChunks(convs, cid, replyId, stream.chunks), cid, replyId);
      AppendTwice(convs, cid, replyId, Concat(stream.chunks), "");
      assert Concat(stream.chunks) + "" == Concat(stream.chunks);
    }
  }

  /** A send into an existing room: every entry with the active room's id gains
      exactly the user message and the reply, whose content is the stream's text
      (with the marker on failure); its title changes only if it was a placeholder,
      to at most 20 characters of the input; every other entry is untouched. */
  lemma SendToExistingRoom(convs: seq<Conversation>, pathname: string, activeConv: Option<Conversation>,
                           trimmed: string, drawn: Drawn, creation: CreateOutcome, stream: Stream,
                           i: nat)
    requires !TakesTempPath(pathname, activeConv)
    requires drawn.userMessageId != drawn.replyId
    requires i < |convs|
    requires convs[i].id == activeConv.value.id ==>
               forall j :: 0 <= j < |convs[i].messages| ==> convs[i].messages[j].id != drawn.replyId
    ensures |SendList(convs, pathname, activeConv, trimmed, drawn, creation, stream)| == |convs|
    ensures convs[i].id != activeConv.value.id ==>
              SendList(convs, pathname, activeConv, trimmed, drawn, creation, stream)[i] == convs[i]
    ensures convs[i].id == activeConv.value.id ==>
              SendList(convs, pathname, activeConv, trimmed, drawn, creation, stream)[i]
              == convs[i].(title := if IsPlaceholderTitle(activeConv.value.title) then TitleFrom(trimmed)
                                    else convs[i].title,
                           messages := convs[i].messages + [UserMessage(trimmed, drawn), FinalReply(drawn, stream)])
  {
    var cid := activeConv.value.id;
    var l := BeginList(convs, pathname, activeConv, trimmed, drawn);
    var r := SendList(convs, pathname, activeConv, trimmed, drawn, creation, stream);
    StreamIntoIsOneAppend(l, cid, drawn.replyId, stream);
    var text := StreamedText(stream);
    if convs[i].id == cid {
      var placeholder := CreateMessage(Assistant, "", drawn.replyId, drawn.now);
      var ms := convs[i].messages + [UserMessage(trimmed, drawn), placeholder];
      assert l[i].messages == ms;
      AppendToLastMessage(ms, drawn.replyId, text);
      assert ms[..|ms| - 1] == convs[i].messages + [UserMessage(trimmed, drawn)];
      assert "" + text == text;
    }
  }

  /** Pushing to the id of the last entry, when no other entry has it, changes
      the last entry only. */
  lemma PushToLast(convs: seq<Conversation>, x: Conversation, role: Role, content: string,
                   freshId: string, now: int)
    requires x.id !in Ids(convs)
    ensures PushMessage(convs + [x], x.id, role, content, freshId, now).conversations
         == convs + [x.(messages := x.messages + [CreateMessage(role, content, freshId, now)])]
  {
    var r := PushMessage(convs + [x], x.id, role, content, freshId, now).conversations;
    assert forall k :: 0 <= k < |convs| ==> (convs + [x])[k] == convs[k];
  }

  /** Persisting the last entry, when no other entry has its id. */
  lemma PersistLast(convs: seq<Conversation>, x: Conversation, realId: string, query: Option<string>)
    requires x.id !in Ids(convs)
    ensures Persist(convs + [x], x.id, realId, query)
         == convs + [x.(id := realId, title := query.GetOr(x.title), isTemp := Some(false))]
  {
    assert forall k :: 0 <= k < |convs| ==> (convs + [x])[k] == convs[k];
  }

  /** Appending to a message of the last entry, when no other entry has its id. */
  lemma AppendToLast(convs: seq<Conversation>, x: Conversation, messageId: string, chunk: string)
    requires x.id !in Ids(convs)
    ensures AppendToMessage(convs + [x], x.id, messageId, chunk)
         == convs + [x.(messages := AppendToContent(x.messages, messageId, chunk))]
  {
    assert forall k :: 0 <= k < |convs| ==> (convs + [x])[k] == convs[k];
  }

  /** On the temporary path, the synchronous part of a send adds one entry at the
      end: the temporary room holding the user message and the empty placeholder. */
  lemma BeginOnTempPath(convs: seq<Conversation>, pathname: string, activeConv: Option<Conversation>,
                        trimmed: string, drawn: Drawn)
    requires TakesTempPath(pathname, activeConv)
    requires drawn.tempId !in Ids(convs)
    ensures BeginList(convs, pathname, activeConv, trimmed, drawn)
         == convs + [TempConversation(trimmed, drawn.tempId, drawn.now).(
                       messages := [UserMessage(trimmed, drawn),
                                    CreateMessage(Assistant, "", drawn.replyId, drawn.now)])]
  {
    var temp := TempConversation(trimmed, drawn.tempId, drawn.now);
    var l0 := WithRoom(convs, pathname, activeConv, trimmed, drawn);
    assert l0 == convs + [temp];
    PushToLast(convs, temp, User, trimmed, drawn.userMessageId, drawn.now);
    var withUser := temp.(messages := [UserMessage(trimmed, drawn)]);
    assert temp.messages + [UserMessage(trimmed, drawn)] == [UserMessage(trimmed, drawn)];
    var l1 := PushMessage(l0, drawn.tempId, User, trimmed, drawn.userMessageId, drawn.now).conversations;
    assert l1 == convs + [withUser];
    PushToLast(convs, withUser, Assistant, "", drawn.replyId, drawn.now);
    var l2 := PushMessage(l1, drawn.tempId, Assistant, "", drawn.replyId, drawn.now).conversations;
    assert l2 == WithTurn(l0, BeginTarget(pathname, activeConv, drawn), trimmed, drawn);
    var placeholder := CreateMessage(Assistant, "", drawn.replyId, drawn.now);
    assert withUser.messages + [placeholder] == [UserMessage(trimmed, drawn), placeholder];
    assert l2 == convs + [temp.(messages := [UserMessage(trimmed, drawn), placeholder])];
    assert BeginList(convs, pathname, activeConv, trimmed, drawn) == l2;
  }

  /** On the temporary path the persisted room is the temporary one under its new
      id and title, still at the end. */
  lemma PersistAfterBegin(convs: seq<Conversation>, pathname: string, activeConv: Option<Conversation>,
                          trimmed: string, drawn: Drawn, realId: string, query: Option<string>)
    requires TakesTempPath(pathname, activeConv)
    requires drawn.tempId !in Ids(convs)
    ensures Persist(BeginList(convs, pathname, activeConv, trimmed, drawn), drawn.tempId, realId, query)
         == convs + [Conversation(realId, query.GetOr(TitleFrom(trimmed)), drawn.now,
                                  [UserMessage(trimmed, drawn), CreateMessage(Assistant, "", drawn.replyId, drawn.now)],
                                  Some(false), None)]
  {
    var temp := TempConversation(trimmed, drawn.tempId, drawn.now);
    var ms := [UserMessage(trimmed, drawn), CreateMessage(Assistant, "", drawn.replyId, drawn.now)];
    BeginOnTempPath(convs, pathname, activeConv, trimmed, drawn);
    PersistLast(convs, temp.(messages := ms), realId, query);
  }

  /** A send that creates its room, when the server answers: the list gains one
      entry at the end, under the server's id, not temporary, titled by the
      server's `query` or else by the input, holding the user message and the
      streamed reply; no entry keeps the temporary id. */
  lemma SendCreatesRoom(convs: seq<Conversation>, pathname: string, activeConv: Option<Conversation>,
                        trimmed: string, drawn: Drawn, n: nat, query: Option<string>, stream: Stream)
    requires TakesTempPath(pathname, activeConv)
    requires drawn.tempId !in Ids(convs) && NatToString(n) !in Ids(convs) && drawn.tempId != NatToString(n)
    requires drawn.userMessageId != drawn.replyId
    ensures SendList(convs, pathname, activeConv, trimmed, drawn, Created(n, query), stream)
         == convs + [Conversation(NatToString(n), query.GetOr(TitleFrom(trimmed)), drawn.now,
                                  [UserMessage(trimmed, drawn), FinalReply(drawn, stream)],
                                  Some(false), None)]
    ensures drawn.tempId !in Ids(SendList(convs, pathname, activeConv, trimmed, drawn, Created(n, query), stream))
  {
    var realId := NatToString(n);
    var ms := [UserMessage(trimmed, drawn), CreateMessage(Assistant, "", drawn.replyId, drawn.now)];
    var l := BeginList(convs, pathname, activeConv, trimmed, drawn);
    PersistAfterBegin(convs, pathname, activeConv, trimmed, drawn, realId, query);
    var persisted := Conversation(realId, query.GetOr(TitleFrom(trimmed)), drawn.now, ms, Some(false), None);
    var p := convs + [persisted];
    var r := SendList(convs, pathname, activeConv, trimmed, drawn, Created(n, query), stream);
    assert r == StreamInto(p, realId, drawn.replyId, stream);
    StreamIntoIsOneAppend(p, realId, drawn.replyId, stream);
    var text := StreamedText(stream);
    AppendToLast(convs, persisted, drawn.replyId, text);
    AppendToTurn(UserMessage(trimmed, drawn), drawn.replyId, drawn.now, text);
    if drawn.tempId in Ids(r) {
      IdsWitness(r, drawn.tempId);
    }
  }

  /** On the temporary path, the marker appended after the synchronous part lands
      in the placeholder of the temporary room at the end. */
  lemma MarkerAfterBegin(convs: seq<Conversation>, pathname: string, activeConv: Option<Conversation>,
                         trimmed: string, drawn: Drawn)
    requires TakesTempPath(pathname, activeConv)
    requires drawn.tempId !in Ids(convs)
    requires drawn.userMessageId != drawn.replyId
    ensures AppendToMessage(BeginList(convs, pathname, activeConv, trimmed, drawn), drawn.tempId,
                            drawn.replyId, ErrorMarker)
         == convs + [TempConversation(trimmed, drawn.tempId, drawn.now).(
                       messages := [UserMessage(trimmed, drawn),
                                    CreateMessage(Assistant, ErrorMarker, drawn.replyId, drawn.now)])]
  {
    var temp := TempConversation(trimmed, drawn.tempId, drawn.now);
    var ms := [UserMessage(trimmed, drawn), CreateMessage(Assistant, "", drawn.replyId, drawn.now)];
    BeginOnTempPath(convs, pathname, activeConv, trimmed, drawn);
    AppendToLast(convs, temp.(messages := ms), drawn.replyId, ErrorMarker);
    AppendToTurn(UserMessage(trimmed, drawn), drawn.replyId, drawn.now, ErrorMarker);
  }

  /** A send whose room creation fails: the temporary room stays, at the end and
      still temporary, with the user message and a reply that holds only the
      error marker. */
  lemma SendCreationFails(convs: seq<Conversation>, pathname: string, activeConv: Option<Conversation>,
                          trimmed: string, drawn: Drawn, stream: Stream)
    requires TakesTempPath(pathname, activeConv)
    requires drawn.tempId !in Ids(convs)
    requires drawn.userMessageId != drawn.replyId
    ensures SendList(convs, pathname, activeConv, trimmed, drawn, CreateFailed, stream)
         == convs + [TempConversation(trimmed, drawn.tempId, drawn.now).(
                       messages := [UserMessage(trimmed, drawn),
                                    CreateMessage(Assistant, ErrorMarker, drawn.replyId, drawn.now)])]
  {
    var l := BeginList(convs, pathname, activeConv, trimmed, drawn);
    assert SendList(convs, pathname, activeConv, trimmed, drawn, CreateFailed, stream)
        == AppendToMessage(l, drawn.tempId, drawn.replyId, ErrorMarker);
    MarkerAfterBegin(convs, pathname, activeConv, trimmed, drawn);
  }

  /** The send coordinator's state: the composer's input, the thinking flag, the
      lock (`sendLockRef.current`), where a suspended send stands, and the room
      store it writes to. */
  class Sender {
    const store: ChatStore
    var input: string
    var isThinking: bool
    var sendLock: bool
    var phase: Phase

    /** The lock is held exactly while a send is in flight, and the thinking flag
        is only raised inside one. */
    ghost predicate Valid()
      reads this
    {
      (sendLock <==> !phase.Idle?) && (isThinking ==> sendLock)
    }

    constructor (store: ChatStore, input: string)
      ensures Valid() && this.store == store && this.input == input
      ensures !isThinking && !sendLock && phase == Idle
    {
      this.store := store;
      this.input := input;
      isThinking := false;
      sendLock := false;
      phase := Idle;
    }

    /** The composer's `setInput`. */
    method SetInput(text: string)
      requires Valid()
      modifies this
      ensures Valid() && input == text
      ensures isThinking == old(isThinking) && sendLock == old(sendLock) && phase == old(phase)
    {
      input := text;
    }

    /** `onSend` up to its first suspension. Blank input, a raised thinking flag
        or a held lock make it do nothing at all. */
    method Begin(pathname: string, activeConv: Option<Conversation>, drawn: Drawn) returns (started: bool)
      requires Valid()
      modifies this, store
      ensures Valid()
      ensures started == (Trim(old(input)) != [] && !old(isThinking) && !old(sendLock))
      ensures !started ==> unchanged(this) && unchanged(store)
      ensures started ==> input == "" && isThinking && sendLock
      ensures started ==>
                store.conversations == BeginList(old(store.conversations), pathname, activeConv, Trim(old(input)), drawn)
      ensures started ==> phase == Ensuring(BeginTarget(pathname, activeConv, drawn), drawn.replyId,
                                            TakesTempPath(pathname, activeConv))
      ensures started && TakesTempPath(pathname, activeConv) ==> store.activeId == Some(drawn.tempId)
      ensures started && !TakesTempPath(pathname, activeConv) ==> store.activeId == old(store.activeId)
    {
      if Trim(input) == [] || isThinking || sendLock {
        return false;
      }
      Start(pathname, activeConv, drawn);
      started := true;
    }

    /** The synchronous part of a send that got past the guard: open the room, add
        the turn, take the lock, clear the input and raise the thinking flag. No
        other update can run in between, so the order of these writes is not
        observable. */
    method Start(pathname: string, activeConv: Option<Conversation>, drawn: Drawn)
      requires Valid() && !isThinking && !sendLock
      modifies this, store
      ensures Valid() && input == "" && isThinking && sendLock
      ensures store.conversations
           == BeginList(old(store.conversations), pathname, activeConv, Trim(old(input)), drawn)
      ensures phase == Ensuring(BeginTarget(pathname, activeConv, drawn), drawn.replyId,
                                TakesTempPath(pathname, activeConv))
      ensures TakesTempPath(pathname, activeConv) ==> store.activeId == Some(drawn.tempId)
      ensures !TakesTempPath(pathname, activeConv) ==> store.activeId == old(store.activeId)
    {
      var trimmed := Trim(input);
      var conversationId := OpenRoom(pathname, activeConv, trimmed, drawn);
      AddTurn(conversationId, pathname, activeConv, trimmed, drawn);
      sendLock := true;
      input := "";
      isThinking := true;
      phase := Ensuring(conversationId, drawn.replyId, TakesTempPath(pathname, activeConv));
    }

    /** The room the send goes to: on the temporary path a new temporary room,
        upserted and made active; otherwise the active room. */
    method OpenRoom(pathname: string, activeConv: Option<Conversation>, trimmed: string, drawn: Drawn)
      returns (conversationId: string)
      modifies store
      ensures conversationId == BeginTarget(pathname, activeConv, drawn)
      ensures store.conversations == WithRoom(old(store.conversations), pathname, activeConv, trimmed, drawn)
      ensures TakesTempPath(pathname, activeConv) ==> store.activeId == Some(drawn.tempId)
      ensures !TakesTempPath(pathname, activeConv) ==> store.activeId == old(store.activeId)
    {
      if TakesTempPath(pathname, activeConv) {
        store.UpsertConversation(TempConversation(trimmed, drawn.tempId, drawn.now));
        store.activeId := Some(drawn.tempId);
        conversationId := drawn.tempId;
      } else {
        conversationId := activeConv.value.id;
      }
    }

    /** The user message, the empty assistant placeholder, and the rename of an
        existing room whose title is still a placeholder. */
    method AddTurn(conversationId: string, pathname: string, activeConv: Option<Conversation>,
                   trimmed: string, drawn: Drawn)
      requires conversationId == BeginTarget(pathname, activeConv, drawn)
      modifies store
      ensures store.conversations == WithRename(WithTurn(old(store.conversations), conversationId, trimmed, drawn),
                                                pathname, activeConv, trimmed)
      ensures store.activeId == old(store.activeId)
    {
      var shouldRename := !TakesTempPath(pathname, activeConv) && IsPlaceholderTitle(activeConv.value.title);
      var pushed := PushMessage(store.conversations, conversationId, User, trimmed,
                                drawn.userMessageId, drawn.now);
      store.conversations := pushed.conversations;
      var thinking := PushMessage(store.conversations, conversationId, Assistant, "",
                                  drawn.replyId, drawn.now);
      store.conversations := thinking.conversations;
      if shouldRename {
        store.conversations := Retitle(store.conversations, conversationId, TitleFrom(trimmed));
      }
    }

    /** `onSend` once `ensureConversationPromise` settles. A created room is
        rewritten in place and made active; a failed creation, or an id that
        turns out empty, ends the send with the marker in the reply. */
    method Resolve(creation: CreateOutcome)
      requires Valid() && phase.Ensuring?
      modifies this, store
      ensures Valid() && input == old(input)
      ensures old(phase.creating) && creation.Created? ==>
                store.conversations == Persist(old(store.conversations), old(phase.conversationId),
                                               NatToString(creation.chatRoomId), creation.query)
                && store.activeId == Some(NatToString(creation.chatRoomId))
                && phase == Streaming(NatToString(creation.chatRoomId), old(phase.replyId))
                && isThinking == old(isThinking)
      ensures !old(phase.creating) && old(phase.conversationId) != "" ==>
                unchanged(store) && phase == Streaming(old(phase.conversationId), old(phase.replyId))
                && isThinking == old(isThinking)
      ensures (old(phase.creating) && creation.CreateFailed?)
              || (!old(phase.creating) && old(phase.conversationId) == "") ==>
                store.conversations == AppendToMessage(old(store.conversations), old(phase.conversationId),
                                                       old(phase.replyId), ErrorMarker)
                && store.activeId == old(store.activeId)
                && phase == Idle && !isThinking && !sendLock
    {
      var conversationId := phase.conversationId;
      var replyId := phase.replyId;
      var failed := false;
      if phase.creating {
        match creation {
          case Created(n, query) =>
            var realId := NatToString(n);
            store.conversations := Persist(store.conversations, conversationId, realId, query);
            store.activeId := Some(realId);
            conversationId := realId;
          case CreateFailed =>
            failed := true;
        }
      } else if conversationId == "" {
        failed := true;
      }
      if failed {
        store.conversations := AppendToMessage(store.conversations, conversationId, replyId, ErrorMarker);
        isThinking := false;
        sendLock := false;
        phase := Idle;
      } else {
        phase := Streaming(conversationId, replyId);
      }
    }

    /** One chunk of the reply: the thinking flag drops and the chunk is appended
        to the placeholder. */
    method Chunk(chunk: string)
      requires Valid() && phase.Streaming?
      modifies this, store
      ensures Valid() && phase == old(phase) && input == old(input)
      ensures !isThinking && sendLock
      ensures store.conversations
           == AppendToMessage(old(store.conversations), phase.conversationId, phase.replyId, chunk)
      ensures store.activeId == old(store.activeId)
    {
      isThinking := false;
      store.conversations := AppendToMessage(store.conversations, phase.conversationId, phase.replyId, chunk);
    }

    /** The end of the stream, or its failure, which appends the marker; either
        way the thinking flag and the lock are released. */
    method Finish(failed: bool)
      requires Valid() && phase.Streaming?
      modifies this, store
      ensures Valid() && phase == Idle && !isThinking && !sendLock && input == old(input)
      ensures store.conversations
           == if failed then AppendToMessage(old(store.conversations), old(phase.conversationId),
                                             old(phase.replyId), ErrorMarker)
              else old(store.conversations)
      ensures store.activeId == old(store.activeId)
    {
      if failed {
        store.conversations := AppendToMessage(store.conversations, phase.conversationId, phase.replyId,
                                               ErrorMarker);
      }
      isThinking := false;
      sendLock := false;
      phase := Idle;
    }

    /** The `for await` loop over the reply stream followed by its end: every chunk
        is appended in order, then `Finish` runs. */
    method StreamReply(stream: Stream)
      requires Valid() && phase.Streaming?
      modifies this, store
      ensures Valid() && phase == Idle && !isThinking && !sendLock && input == old(input)
      ensures store.conversations
           == StreamInto(old(store.conversations), old(phase.conversationId), old(phase.replyId), stream)
      ensures store.activeId == old(store.activeId)
    {
      var i := 0;
      while i < |stream.chunks|
        invariant 0 <= i <= |stream.chunks|
        invariant Valid() && phase == old(phase) && input == old(input)
        invariant store.conversations
               == AppendChunks(old(store.conversations), phase.conversationId, phase.replyId, stream.chunks[..i])
        invariant store.activeId == old(store.activeId)
      {
        Chunk(stream.chunks[i]);
        assert stream.chunks[..i + 1][..i] == stream.chunks[..i];
        i := i + 1;
      }
      assert stream.chunks[..i] == stream.chunks;
      Finish(stream.failed);
    }

    /** The whole of `onSend` with nothing interleaved: either nothing happens, or
        the send runs to its end and releases the lock. */
    method OnSend(pathname: string, activeConv: Option<Conversation>, drawn: Drawn,
                  creation: CreateOutcome, stream: Stream)
      requires Valid()
      modifies this, store
      ensures Valid()
      ensures Trim(old(input)) == [] || old(isThinking) || old(sendLock) ==>
                unchanged(this) && unchanged(store)
      ensures !(Trim(old(input)) == [] || old(isThinking) || old(sendLock)) ==>
                phase == Idle && !sendLock && !isThinking && input == ""
                && store.conversations == SendList(old(store.conversations), pathname, activeConv,
                                                   Trim(old(input)), drawn, creation, stream)
                && store.activeId == SendActiveId(old(store.activeId), pathname, activeConv, drawn, creation)
    {
      ghost var trimmed := Trim(input);
      ghost var start := store.conversations;
      var started := Begin(pathname, activeConv, drawn);
      if !started {
        return;
      }
      ghost var begun := store.conversations;
      assert begun == BeginList(start, pathname, activeConv, trimmed, drawn);
      Resolve(creation);
      ghost var resolved := store.conversations;
      if phase.Streaming? {
        ghost var target := phase.conversationId;
        StreamReply(stream);
        assert store.conversations == StreamInto(resolved, target, drawn.replyId, stream);
      }
    }
  }
}
