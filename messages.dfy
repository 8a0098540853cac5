/** The conversation-list updaters of the message hook: append a message to one
    conversation, and append a streamed chunk to one message's content. Each is
    a function from one snapshot of the list to the next. */
module Messages {
  import opened Records
  import opened Text
  import ChatUtils

  /** `prev.map(c => c.id === id ? f(c) : c)`: the shape every list updater has. */
  function UpdateWhere(convs: seq<Conversation>, id: string, f: Conversation -> Conversation)
    : (r: seq<Conversation>)
    ensures |r| == |convs|
    ensures forall i :: 0 <= i < |convs| ==>
              r[i] == if convs[i].id == id then f(convs[i]) else convs[i]
  {
    seq(|convs|, i requires 0 <= i < |convs| => if convs[i].id == id then f(convs[i]) else convs[i])
  }

  /** An updater aimed at an id no entry has leaves the list as it was. */
  lemma UpdateAbsentId(convs: seq<Conversation>, id: string, f: Conversation -> Conversation)
    requires id !in Ids(convs)
    ensures UpdateWhere(convs, id, f) == convs
  {
  }

  /** The list after `pushMessage`, and the message it hands back. */
  datatype Pushed = Pushed(conversations: seq<Conversation>, message: Message)

  /** `pushMessage(conversationId, role, content)`: builds one message and appends
      it to the end of every conversation with that id; the list keeps its length
      and order and every other conversation is untouched. */
  function PushMessage(convs: seq<Conversation>, conversationId: string, role: Role,
                       content: string, freshId: string, now: int): (r: Pushed)
    ensures r.message.role == role && r.message.content == content
    ensures r.message.id == freshId && !r.message.streaming
    ensures |r.conversations| == |convs|
    ensures forall i :: 0 <= i < |convs| && convs[i].id != conversationId ==>
              r.conversations[i] == convs[i]
    ensures forall i :: 0 <= i < |convs| && convs[i].id == conversationId ==>
              r.conversations[i] == convs[i].(messages := convs[i].messages + [r.message])
  {
    var m := ChatUtils.CreateMessage(role, content, freshId, now);
    Pushed(UpdateWhere(convs, conversationId, (c: Conversation) => c.(messages := c.messages + [m])), m)
  }

  /** The message map inside `appendToMessage`: the content of every message with
      id `messageId` grows by `chunk`; no message is added, dropped or moved. */
  function AppendToContent(msgs: seq<Message>, messageId: string, chunk: string)
    : (r: seq<Message>)
    ensures |r| == |msgs|
    ensures forall j :: 0 <= j < |msgs| && msgs[j].id != messageId ==> r[j] == msgs[j]
    ensures forall j :: 0 <= j < |msgs| && msgs[j].id == messageId ==>
              r[j] == msgs[j].(content := msgs[j].content + chunk)
  {
    seq(|msgs|, j requires 0 <= j < |msgs| =>
      if msgs[j].id == messageId then msgs[j].(content := msgs[j].content + chunk) else msgs[j])
  }

  /** `appendToMessage(conversationId, messageId, chunk)`. */
  function AppendToMessage(convs: seq<Conversation>, conversationId: string,
                           messageId: string, chunk: string): (r: seq<Conversation>)
    ensures |r| == |convs|
    ensures forall i :: 0 <= i < |convs| && convs[i].id != conversationId ==> r[i] == convs[i]
    ensures forall i :: 0 <= i < |convs| && convs[i].id == conversationId ==>
              r[i] == convs[i].(messages := AppendToContent(convs[i].messages, messageId, chunk))
  {
    UpdateWhere(convs, conversationId,
                (c: Conversation) => c.(messages := AppendToContent(c.messages, messageId, chunk)))
  }

  /** Appending nothing changes nothing. */
  lemma AppendEmptyChunk(convs: seq<Conversation>, conversationId: string, messageId: string)
    ensures AppendToMessage(convs, conversationId, messageId, "") == convs
  {
    var r := AppendToMessage(convs, conversationId, messageId, "");
    forall i | 0 <= i < |convs| ensures r[i] == convs[i] {
      if convs[i].id == conversationId {
        var ms := convs[i].messages;
        var ms' := AppendToContent(ms, messageId, "");
        forall j | 0 <= j < |ms| ensures ms'[j] == ms[j] {
          assert ms[j].content + "" == ms[j].content;
        }
        assert ms' == ms;
      }
    }
  }

  /** When no message of the target conversations has the id, nothing changes. */
  lemma AppendToMissingMessage(convs: seq<Conversation>, conversationId: string,
                               messageId: string, chunk: string)
    requires forall i, j ::
               (0 <= i < |convs| && convs[i].id == conversationId && 0 <= j < |convs[i].messages|)
               ==> convs[i].messages[j].id != messageId
    ensures AppendToMessage(convs, conversationId, messageId, chunk) == convs
  {
    var r := AppendToMessage(convs, conversationId, messageId, chunk);
    forall i | 0 <= i < |convs| ensures r[i] == convs[i] {
      if convs[i].id == conversationId {
        assert AppendToContent(convs[i].messages, messageId, chunk) == convs[i].messages;
      }
    }
  }

  /** Appending `c1` and then `c2` is appending `c1 + c2`. */
  lemma AppendTwice(convs: seq<Conversation>, conversationId: string, messageId: string,
                    c1: string, c2: string)
    ensures AppendToMessage(AppendToMessage(convs, conversationId, messageId, c1),
                            conversationId, messageId, c2)
         == AppendToMessage(convs, conversationId, messageId, c1 + c2)
  {
    var once := AppendToMessage(convs, conversationId, messageId, c1);
    var twice := AppendToMessage(once, conversationId, messageId, c2);
    var direct := AppendToMessage(convs, conversationId, messageId, c1 + c2);
    forall i | 0 <= i < |convs| ensures twice[i] == direct[i] {
      if convs[i].id == conversationId {
        var ms := convs[i].messages;
        var a := AppendToContent(AppendToContent(ms, messageId, c1), messageId, c2);
        var b := AppendToContent(ms, messageId, c1 + c2);
        forall j | 0 <= j < |ms| ensures a[j] == b[j] {
          if ms[j].id == messageId {
            assert ms[j].content + c1 + c2 == ms[j].content + (c1 + c2);
          }
        }
        assert a == b;
      }
    }
  }

  /** The chunks of a stream appended one after another, in arrival order. */
  function AppendChunks(convs: seq<Conversation>, conversationId: string, messageId: string,
                        chunks: seq<string>): seq<Conversation>
  {
    if chunks == [] then convs
    else AppendToMessage(AppendChunks(convs, conversationId, messageId, chunks[..|chunks| - 1]),
                         conversationId, messageId, chunks[|chunks| - 1])
  }

  /** Successive appends leave the target message holding its old content followed
      by the concatenation of the chunks. */
  lemma {:induction false} AppendChunksIsConcat(convs: seq<Conversation>, conversationId: string,
                                               messageId: string, chunks: seq<string>)
    ensures AppendChunks(convs, conversationId, messageId, chunks)
         == AppendToMessage(convs, conversationId, messageId, Concat(chunks))
  {
    if chunks == [] {
      AppendEmptyChunk(convs, conversationId, messageId);
    } else {
      var init, last := chunks[..|chunks| - 1], chunks[|chunks| - 1];
      AppendChunksIsConcat(convs, conversationId, messageId, init);
      AppendTwice(convs, conversationId, messageId, Concat(init), last);
    }
  }

  /** A title change for every conversation with the id, as both send paths and
      the demo's `renameActive` write it. */
  function Retitle(convs: seq<Conversation>, id: string, title: string): (r: seq<Conversation>)
    ensures |r| == |convs|
    ensures forall i :: 0 <= i < |convs| && convs[i].id != id ==> r[i] == convs[i]
    ensures forall i :: 0 <= i < |convs| && convs[i].id == id ==> r[i] == convs[i].(title := title)
  {
    UpdateWhere(convs, id, (c: Conversation) => c.(title := title))
  }
}
