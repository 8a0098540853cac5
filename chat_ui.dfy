/** The standalone demo component: a conversation list kept in local storage, an
    active id, the composer's input and a thinking flag, with a canned reply
    streamed token by token. Fresh ids and times are parameters; reading the
    saved list is given as the result of parsing it. */
module ChatDemo {
  import opened Records
  import opened Text
  import opened Messages
  import ChatUtils
  import ChatRooms

  /** The greeting every demo conversation starts with. */
  const Greeting: string := "무엇을 도와드릴까요? 질문을 입력해 보세요."

  /** The title of the conversation made when nothing usable is saved. */
  const FirstTitle: string := "첫 번째 대화"

  /** The canned reply; the template literal starts with a line break. */
  const DemoReply: string :=
    "\n(데모) 질문을 잘 받았어요!\n\n— 현재는 로컬 상태로만 동작하는 UI입니다.\n— 실제 LLM 연결 없이도 미리보기에서 동작하도록 가짜 스트리밍으로 답장을 보여줍니다."

  /** How many characters of the first message a placeholder title is renamed to. */
  const RenameLength: nat := 28

  /** The demo's `createConversation(title = "New chat")`: one greeting from the
      assistant, no temporary or favourite flag. */
  function NewConversation(title: Option<string>, id: string, greetingId: string, now: int)
    : (c: Conversation)
    ensures c.id == id && c.title == (if title.Some? then title.value else EnglishDefaultTitle)
    ensures |c.messages| == 1 && c.messages[0].role == Assistant && c.messages[0].content == Greeting
    ensures c.messages[0].id == greetingId && !c.messages[0].streaming
    ensures c.isTemp == None && c.isFavorited == None && c.createdAt == now
  {
    Conversation(id, title.GetOr(EnglishDefaultTitle), now,
                 [ChatUtils.CreateMessage(Assistant, Greeting, greetingId, now)], None, None)
  }

  /** What reading the saved list yields: no item (or an empty string), text that
      does not parse, a parsed value that is not an array, or a parsed array. */
  datatype Stored = NoItem | Unparsable | NotArray | Parsed(items: seq<Conversation>)

  /** `loadConversations()`: a saved non-empty array as it is, and otherwise a
      single new conversation titled `FirstTitle`. Never empty. */
  function LoadConversations(stored: Stored, freshId: string, greetingId: string, now: int)
    : (r: seq<Conversation>)
    ensures r != []
    ensures stored.Parsed? && stored.items != [] ==> r == stored.items
    ensures !(stored.Parsed? && stored.items != []) ==>
              r == [NewConversation(Some(FirstTitle), freshId, greetingId, now)]
  {
    match stored
    case Parsed(items) =>
      if |items| > 0 then items else [NewConversation(Some(FirstTitle), freshId, greetingId, now)]
    case _ => [NewConversation(Some(FirstTitle), freshId, greetingId, now)]
  }

  /** `findIndex(c => c.id === id)`: the first index with the id, or -1. */
  function FindIndex(convs: seq<Conversation>, id: string): (r: int)
    ensures -1 <= r < |convs|
    ensures r == -1 <==> id !in Ids(convs)
    ensures r >= 0 ==> convs[r].id == id && forall j :: 0 <= j < r ==> convs[j].id != id
  {
    if convs == [] then -1
    else if convs[0].id == id then 0
    else
      var k := FindIndex(convs[1..], id);
      if k == -1 then
        assert forall j :: 1 <= j < |convs| ==> convs[j] == convs[1..][j - 1];
        NotListed(convs, id);
        -1
      else k + 1
  }

  /** The derived `activeConv`: the first entry with the active id, else the first
      entry, else nothing. */
  function ActiveConv(convs: seq<Conversation>, activeId: Option<string>): (r: Option<Conversation>)
    ensures r.None? <==> convs == []
    ensures ChatRooms.Listed(convs, activeId) ==>
              r.Some? && r.value.id == activeId.value && r.value == convs[FindIndex(convs, activeId.value)]
    ensures !ChatRooms.Listed(convs, activeId) && convs != [] ==> r == Some(convs[0])
  {
    var k := if activeId.Some? then FindIndex(convs, activeId.value) else -1;
    if k >= 0 then Some(convs[k])
    else if convs != [] then Some(convs[0])
    else None
  }

  /** `copy.splice(idx, 1)`: the list without the entry at `k`. */
  function RemoveAt(convs: seq<Conversation>, k: nat): (r: seq<Conversation>)
    requires k < |convs|
    ensures |r| == |convs| - 1
    ensures forall j :: 0 <= j < k ==> r[j] == convs[j]
    ensures forall j :: k <= j < |r| ==> r[j] == convs[j + 1]
  {
    convs[..k] + convs[k + 1..]
  }

  /** Counting entries by id is additive over concatenation. */
  lemma {:induction false} CountIdConcat(a: seq<Conversation>, b: seq<Conversation>, id: string)
    ensures CountId(a + b, id) == CountId(a, id) + CountId(b, id)
  {
    if b == [] {
      assert a + b == a;
    } else {
      assert (a + b)[..|a + b| - 1] == a + b[..|b| - 1];
      assert (a + b)[|a + b| - 1] == b[|b| - 1];
      CountIdConcat(a, b[..|b| - 1], id);
    }
  }

  /** Removing the entry at `k` lowers the count of its id by one and leaves every
      other count alone. */
  lemma CountRemoveAt(convs: seq<Conversation>, k: nat, other: string)
    requires k < |convs|
    ensures CountId(convs, other) == CountId(RemoveAt(convs, k), other) + (if convs[k].id == other then 1 else 0)
  {
    var before, after := convs[..k], convs[k + 1..];
    assert convs == before + [convs[k]] + after;
    assert RemoveAt(convs, k) == before + after;
    CountIdConcat(before + [convs[k]], after, other);
    CountIdConcat(before, [convs[k]], other);
    CountIdConcat(before, after, other);
    assert [convs[k]][..0] == [];
  }

  /** Removing the entry `findIndex` finds drops exactly one entry with the id and
      no entry with any other id. */
  lemma RemoveFoundDropsOne(convs: seq<Conversation>, id: string)
    requires FindIndex(convs, id) >= 0
    ensures CountId(RemoveAt(convs, FindIndex(convs, id)), id) == CountId(convs, id) - 1
    ensures forall other :: other != id ==>
              CountId(RemoveAt(convs, FindIndex(convs, id)), other) == CountId(convs, other)
  {
    var k := FindIndex(convs, id);
    CountRemoveAt(convs, k, id);
    forall other | other != id
      ensures CountId(RemoveAt(convs, k), other) == CountId(convs, other)
    {
      CountRemoveAt(convs, k, other);
    }
  }

  /** The fresh values one chunk callback draws: an id and a time. */
  datatype Draw = Draw(id: string, now: int)

  /** A message the chunk updater extends: an assistant message still streaming. */
  predicate IsStreamingReply(m: Message) {
    m.role == Assistant && m.streaming
  }

  /** The list's last message is a streaming assistant message. */
  predicate EndsStreaming(msgs: seq<Message>) {
    |msgs| > 0 && IsStreamingReply(msgs[|msgs| - 1])
  }

  /** The chunk updater on one conversation's messages: a streaming assistant
      message at the end grows by the chunk; otherwise a new streaming assistant
      message holding the chunk is appended. */
  function AddChunk(msgs: seq<Message>, chunk: string, draw: Draw): (r: seq<Message>)
    ensures EndsStreaming(r)
    ensures EndsStreaming(msgs) ==>
              r == msgs[..|msgs| - 1] + [msgs[|msgs| - 1].(content := msgs[|msgs| - 1].content + chunk)]
    ensures !EndsStreaming(msgs) ==> r == msgs + [Message(draw.id, Assistant, chunk, draw.now, None, true)]
  {
    if EndsStreaming(msgs) then
      var last := msgs[|msgs| - 1];
      msgs[..|msgs| - 1] + [last.(content := last.content + chunk)]
    else msgs + [Message(draw.id, Assistant, chunk, draw.now, None, true)]
  }

  /** The finalize updater on one conversation's messages: only the last message
      can change, and only by losing its streaming flag. */
  function Finalize(msgs: seq<Message>): (r: seq<Message>)
    ensures |r| == |msgs|
    ensures forall j :: 0 <= j < |msgs| - 1 ==> r[j] == msgs[j]
    ensures msgs != [] ==> r[|r| - 1] == msgs[|msgs| - 1].(streaming := false)
  {
    if msgs != [] && msgs[|msgs| - 1].streaming then
      msgs[..|msgs| - 1] + [msgs[|msgs| - 1].(streaming := false)]
    else msgs
  }

  /** Finalizing twice is finalizing once. */
  lemma FinalizeIdempotent(msgs: seq<Message>)
    ensures Finalize(Finalize(msgs)) == Finalize(msgs)
  {
    var once := Finalize(msgs);
    var twice := Finalize(once);
    forall j | 0 <= j < |msgs| ensures twice[j] == once[j] {
    }
  }

  /** The chunk updater on the list, aimed at one conversation id. */
  function ChunkInto(convs: seq<Conversation>, id: string, chunk: string, draw: Draw)
    : (r: seq<Conversation>)
    ensures |r| == |convs|
    ensures forall i :: 0 <= i < |convs| && convs[i].id != id ==> r[i] == convs[i]
    ensures forall i :: 0 <= i < |convs| && convs[i].id == id ==>
              r[i] == convs[i].(messages := AddChunk(convs[i].messages, chunk, draw))
  {
    UpdateWhere(convs, id, (c: Conversation) => c.(messages := AddChunk(c.messages, chunk, draw)))
  }

  /** The finalize updater on the list, aimed at one conversation id. */
  function FinalizeIn(convs: seq<Conversation>, id: string): (r: seq<Conversation>)
    ensures |r| == |convs|
    ensures forall i :: 0 <= i < |convs| && convs[i].id != id ==> r[i] == convs[i]
    ensures forall i :: 0 <= i < |convs| && convs[i].id == id ==>
              r[i] == convs[i].(messages := Finalize(convs[i].messages))
  {
    UpdateWhere(convs, id, (c: Conversation) => c.(messages := Finalize(c.messages)))
  }

  /** The messages after the chunk updater ran once per token, the `k`-th run
      drawing `draws(k)`. */
  function StreamMessages(msgs: seq<Message>, tokens: seq<string>, draws: nat -> Draw): seq<Message> {
    if tokens == [] then msgs
    else AddChunk(StreamMessages(msgs, tokens[..|tokens| - 1], draws), tokens[|tokens| - 1],
                  draws(|tokens| - 1))
  }

  /** The list after the chunk updater ran once per token. */
  function StreamList(convs: seq<Conversation>, id: string, tokens: seq<string>, draws: nat -> Draw)
    : seq<Conversation>
  {
    if tokens == [] then convs
    else ChunkInto(StreamList(convs, id, tokens[..|tokens| - 1], draws), id, tokens[|tokens| - 1],
                   draws(|tokens| - 1))
  }

  /** Streaming into a message list that does not end in a streaming reply adds
      exactly one message: a streaming assistant message holding all the tokens
      in order, under the id the first chunk drew. */
  lemma {:induction false} StreamMessagesIsOneReply(msgs: seq<Message>, tokens: seq<string>,
                                                    draws: nat -> Draw)
    requires tokens != [] && !EndsStreaming(msgs)
    ensures StreamMessages(msgs, tokens, draws)
         == msgs + [Message(draws(0).id, Assistant, Concat(tokens), draws(0).now, None, true)]
  {
    var init := tokens[..|tokens| - 1];
    var last := tokens[|tokens| - 1];
    if init == [] {
      assert Concat(tokens) == Concat(init) + last;
      assert Concat(tokens) == last;
      assert StreamMessages(msgs, init, draws) == msgs;
    } else {
      StreamMessagesIsOneReply(msgs, init, draws);
      var prev := msgs + [Message(draws(0).id, Assistant, Concat(init), draws(0).now, None, true)];
      assert prev[..|prev| - 1] == msgs;
    }
  }

  /** Streaming into the list acts on each conversation with the id separately. */
  lemma {:induction false} StreamListPointwise(convs: seq<Conversation>, id: string,
                                               tokens: seq<string>, draws: nat -> Draw)
    ensures |StreamList(convs, id, tokens, draws)| == |convs|
    ensures forall i :: 0 <= i < |convs| ==>
              StreamList(convs, id, tokens, draws)[i]
              == if convs[i].id == id then convs[i].(messages := StreamMessages(convs[i].messages, tokens, draws))
                 else convs[i]
  {
    if tokens != [] {
      var init := tokens[..|tokens| - 1];
      StreamListPointwise(convs, id, init, draws);
    }
  }

  /** A character outside `\s` in front of a word leaves a word. */
  lemma NoWhitespaceCons(c: char, w: string)
    requires !IsWhitespace(c) && NoWhitespace(w)
    ensures NoWhitespace([c] + w)
  {
    assert forall k :: 1 <= k < |[c] + w| ==> ([c] + w)[k] == w[k - 1];
  }

  /** A character of `\s` in front of a run leaves a run. */
  lemma AllWhitespaceCons(c: char, w: string)
    requires IsWhitespace(c) && AllWhitespace(w)
    ensures AllWhitespace([c] + w)
  {
    assert forall k :: 1 <= k < |[c] + w| ==> ([c] + w)[k] == w[k - 1];
  }

  /** The shape of what `split(/(\s+)/)` returns: an odd number of pieces, words
      without whitespace at even positions (empty possibly only at either end),
      non-empty whitespace runs at odd positions. */
  predicate Tokens(r: seq<string>) {
    && |r| % 2 == 1
    && (forall k :: 0 <= k < |r| && k % 2 == 0 ==> NoWhitespace(r[k]))
    && (forall k :: 0 <= k < |r| && k % 2 == 1 ==> r[k] != [] && AllWhitespace(r[k]))
    && (forall k :: 0 < k < |r| - 1 && k % 2 == 0 ==> r[k] != [])
  }

  /** A character outside `\s` in front of the first word. */
  lemma TokensWordCons(c: char, t: seq<string>)
    requires !IsWhitespace(c) && Tokens(t)
    ensures Tokens([[c] + t[0]] + t[1..])
  {
    NoWhitespaceCons(c, t[0]);
    var r := [[c] + t[0]] + t[1..];
    assert forall k :: 1 <= k < |r| ==> r[k] == t[k];
  }

  /** A character of `\s` in front of a text whose pieces start with an empty
      word and a run: the run grows. */
  lemma TokensRunExtend(c: char, t: seq<string>)
    requires IsWhitespace(c) && Tokens(t) && |t| >= 3 && t[0] == []
    ensures Tokens([[], [c] + t[1]] + t[2..])
  {
    AllWhitespaceCons(c, t[1]);
    var r := [[], [c] + t[1]] + t[2..];
    assert forall k :: 2 <= k < |r| ==> r[k] == t[k];
  }

  /** A character of `\s` in front of a text that is empty or starts with a word:
      a new empty word and a one-character run. */
  lemma TokensRunStart(c: char, t: seq<string>)
    requires IsWhitespace(c) && Tokens(t) && (|t| == 1 || t[0] != [])
    ensures Tokens([[], [c]] + t)
  {
    AllWhitespaceCons(c, []);
    var r := [[], [c]] + t;
    assert forall k :: 2 <= k < |r| ==> r[k] == t[k - 2];
  }

  /** `text.split(/(\s+)/)`: the text cut at each maximal run of whitespace, the
      runs kept. The first piece is empty exactly when the text starts with
      whitespace. */
  function Tokenize(s: string): (r: seq<string>)
    ensures Tokens(r)
    ensures s != [] && IsWhitespace(s[0]) ==> r[0] == [] && |r| >= 3
    ensures s != [] && !IsWhitespace(s[0]) ==> r[0] != []
    decreases |s|
  {
    if s == [] then [[]]
    else
      var t := Tokenize(s[1..]);
      if !IsWhitespace(s[0]) then
        TokensWordCons(s[0], t);
        [[s[0]] + t[0]] + t[1..]
      else if s[1..] != [] && IsWhitespace(s[1]) then
        TokensRunExtend(s[0], t);
        [[], [s[0]] + t[1]] + t[2..]
      else
        TokensRunStart(s[0], t);
        [[], [s[0]]] + t
  }

  /** Joining after a character is prepended to the first token. */
  lemma JoinWordStart(c: char, t: seq<string>)
    requires |t| >= 1
    ensures Concat([[c] + t[0]] + t[1..]) == [c] + Concat(t)
  {
    var u := [[c] + t[0]] + t[1..];
    var rest := Concat(t[1..]);
    assert u[0] == [c] + t[0] && u[1..] == t[1..];
    ConcatFirst(u);
    ConcatFirst(t);
    AppendAssoc([c], t[0], rest);
  }

  /** Joining an empty word, a run with a character in front, and the rest. */
  lemma JoinRunParts(c: char, w: string, rest: seq<string>)
    ensures Concat([[], [c] + w] + rest) == [c] + (w + Concat(rest))
  {
    var run := [[c] + w] + rest;
    assert [[], [c] + w] + rest == [[]] + run;
    ConcatCons([], run);
    ConcatCons([c] + w, rest);
    EmptyAppend(Concat(run));
    AppendAssoc([c], w, Concat(rest));
  }

  /** Joining after a character is prepended to the first whitespace run. */
  lemma JoinRunExtend(c: char, t: seq<string>)
    requires |t| >= 2 && t[0] == []
    ensures Concat([[], [c] + t[1]] + t[2..]) == [c] + Concat(t)
  {
    JoinRunParts(c, t[1], t[2..]);
    var tail := t[1..];
    assert tail[0] == t[1] && tail[1..] == t[2..];
    ConcatFirst(t);
    ConcatFirst(tail);
    EmptyAppend(Concat(tail));
  }

  /** Joining after an empty word and a one-character run are put in front. */
  lemma JoinRunStart(c: char, t: seq<string>)
    ensures Concat([[], [c]] + t) == [c] + Concat(t)
  {
    var u := [[], [c]] + t;
    assert u[0] == [] && u[1..][0] == [c] && u[1..][1..] == t;
    ConcatFirst(u);
    ConcatFirst(u[1..]);
  }

  /** The tokens put back together are the text. */
  lemma {:induction false} TokenizeConcat(s: string)
    ensures Concat(Tokenize(s)) == s
    decreases |s|
  {
    if s == [] {
      assert Concat([[]]) == Concat([]) + [];
    } else {
      var t := Tokenize(s[1..]);
      TokenizeConcat(s[1..]);
      assert s == [s[0]] + s[1..];
      if !IsWhitespace(s[0]) {
        JoinWordStart(s[0], t);
      } else if s[1..] != [] && IsWhitespace(s[1]) {
        JoinRunExtend(s[0], t);
      } else {
        JoinRunStart(s[0], t);
      }
    }
  }

  /** Streaming a reply's tokens into a message list that does not end in a
      streaming reply, then finalizing, adds one finished assistant message
      holding exactly the reply. */
  lemma StreamedReplyMessages(msgs: seq<Message>, reply: string, draws: nat -> Draw)
    requires !EndsStreaming(msgs)
    ensures Finalize(StreamMessages(msgs, Tokenize(reply), draws))
         == msgs + [Message(draws(0).id, Assistant, reply, draws(0).now, None, false)]
  {
    StreamMessagesIsOneReply(msgs, Tokenize(reply), draws);
    TokenizeConcat(reply);
    var streamed := msgs + [Message(draws(0).id, Assistant, reply, draws(0).now, None, true)];
    assert streamed[..|streamed| - 1] == msgs;
  }

  /** The list after a whole demo send that got past its guard: the user message
      pushed to the active conversation, a placeholder title renamed to the start
      of the input, the reply streamed token by token, then finalized. */
  function DemoSendList(convs: seq<Conversation>, activeId: Option<string>, trimmed: string,
                        userMessageId: string, now: int, reply: string, draws: nat -> Draw)
    : seq<Conversation>
    requires convs != []
  {
    var target := ActiveConv(convs, activeId).value;
    FinalizeIn(StreamList(DemoTurn(convs, target, trimmed, userMessageId, now), target.id,
                          Tokenize(reply), draws), target.id)
  }

  /** The list once the user message is pushed to `target` and a placeholder title
      renamed, before the reply starts. */
  function DemoTurn(convs: seq<Conversation>, target: Conversation, trimmed: string,
                    userMessageId: string, now: int): seq<Conversation>
  {
    var pushed := PushMessage(convs, target.id, User, trimmed, userMessageId, now).conversations;
    if IsPlaceholderTitle(target.title) then Retitle(pushed, target.id, Take(trimmed, RenameLength))
    else pushed
  }

  /** Before the reply, the entries with the target's id have gained the user
      message (and lost a placeholder title); the others are untouched. */
  lemma DemoTurnAt(convs: seq<Conversation>, target: Conversation, trimmed: string,
                   userMessageId: string, now: int, i: nat)
    requires i < |convs|
    ensures |DemoTurn(convs, target, trimmed, userMessageId, now)| == |convs|
    ensures convs[i].id != target.id ==> DemoTurn(convs, target, trimmed, userMessageId, now)[i] == convs[i]
    ensures convs[i].id == target.id ==>
              DemoTurn(convs, target, trimmed, userMessageId, now)[i]
              == convs[i].(title := if IsPlaceholderTitle(target.title) then Take(trimmed, RenameLength)
                                    else convs[i].title,
                           messages := convs[i].messages + [Message(userMessageId, User, trimmed, now, None, false)])
  {
  }

  /** The entries with the active conversation's id after a whole demo send. */
  lemma DemoSendAtTarget(convs: seq<Conversation>, activeId: Option<string>, trimmed: string,
                         userMessageId: string, now: int, reply: string, draws: nat -> Draw, i: nat)
    requires convs != [] && i < |convs| && convs[i].id == ActiveConv(convs, activeId).value.id
    ensures |DemoSendList(convs, activeId, trimmed, userMessageId, now, reply, draws)| == |convs|
    ensures DemoSendList(convs, activeId, trimmed, userMessageId, now, reply, draws)[i]
         == convs[i].(title := if IsPlaceholderTitle(ActiveConv(convs, activeId).value.title)
                               then Take(trimmed, RenameLength) else convs[i].title,
                      messages := convs[i].messages
                                  + [Message(userMessageId, User, trimmed, now, None, false),
                                     Message(draws(0).id, Assistant, reply, draws(0).now, None, false)])
  {
    var target := ActiveConv(convs, activeId).value;
    var renamed := DemoTurn(convs, target, trimmed, userMessageId, now);
    DemoTurnAt(convs, target, trimmed, userMessageId, now, i);
    var streamed := StreamList(renamed, target.id, Tokenize(reply), draws);
    StreamListPointwise(renamed, target.id, Tokenize(reply), draws);
    var user := Message(userMessageId, User, trimmed, now, None, false);
    var msgs := convs[i].messages + [user];
    var title := if IsPlaceholderTitle(target.title) then Take(trimmed, RenameLength) else convs[i].title;
    var r := renamed[i];
    assert r == convs[i].(title := title, messages := msgs);
    var sm := StreamMessages(msgs, Tokenize(reply), draws);
    assert streamed[i] == r.(messages := sm);
    assert FinalizeIn(streamed, target.id)[i] == r.(messages := Finalize(sm));
    ReplyAfterUser(convs[i].messages, user, reply, draws);
  }

  /** Streaming and finalizing a reply after the user's message leaves the two
      side by side. */
  lemma ReplyAfterUser(prior: seq<Message>, user: Message, reply: string, draws: nat -> Draw)
    requires user.role == User
    ensures Finalize(StreamMessages(prior + [user], Tokenize(reply), draws))
         == prior + [user, Message(draws(0).id, Assistant, reply, draws(0).now, None, false)]
  {
    var msgs := prior + [user];
    assert msgs[|msgs| - 1] == user;
    StreamedReplyMessages(msgs, reply, draws);
    assert msgs + [Message(draws(0).id, Assistant, reply, draws(0).now, None, false)]
        == prior + [user, Message(draws(0).id, Assistant, reply, draws(0).now, None, false)];
  }

  /** A demo send gives every entry with the active conversation's id exactly two
      new messages, the user's and a finished reply whose content is the whole
      reply; the title changes only from a placeholder, to at most 28 characters
      of the input; every other entry is untouched. */
  lemma DemoSendAppendsTurn(convs: seq<Conversation>, activeId: Option<string>, trimmed: string,
                            userMessageId: string, now: int, reply: string, draws: nat -> Draw, i: nat)
    requires convs != [] && i < |convs|
    ensures |DemoSendList(convs, activeId, trimmed, userMessageId, now, reply, draws)| == |convs|
    ensures convs[i].id != ActiveConv(convs, activeId).value.id ==>
              DemoSendList(convs, activeId, trimmed, userMessageId, now, reply, draws)[i] == convs[i]
    ensures convs[i].id == ActiveConv(convs, activeId).value.id ==>
              DemoSendList(convs, activeId, trimmed, userMessageId, now, reply, draws)[i]
              == convs[i].(title := if IsPlaceholderTitle(ActiveConv(convs, activeId).value.title)
                                    then Take(trimmed, RenameLength) else convs[i].title,
                           messages := convs[i].messages
                                       + [Message(userMessageId, User, trimmed, now, None, false),
                                          Message(draws(0).id, Assistant, reply, draws(0).now, None, false)])
  {
    var target := ActiveConv(convs, activeId).value;
    if convs[i].id == target.id {
      DemoSendAtTarget(convs, activeId, trimmed, userMessageId, now, reply, draws, i);
    } else {
      var renamed := DemoTurn(convs, target, trimmed, userMessageId, now);
      DemoTurnAt(convs, target, trimmed, userMessageId, now, i);
      StreamListPointwise(renamed, target.id, Tokenize(reply), draws);
    }
  }

  /** The demo component's state. */
  class ChatUI {
    var conversations: seq<Conversation>
    var activeId: Option<string>
    var input: string
    var isThinking: bool
    /** The canned reply every send streams: `DemoReply`, fixed at construction. */
    const reply: string

    /** The list is never empty, so `activeConv` always exists. */
    ghost predicate Valid()
      reads this
    {
      conversations != []
    }

    /** The initial state: the loaded list, its first entry active, an empty input. */
    constructor (stored: Stored, freshId: string, greetingId: string, now: int)
      ensures Valid()
      ensures conversations == LoadConversations(stored, freshId, greetingId, now)
      ensures activeId == Some(conversations[0].id) && input == "" && !isThinking
      ensures reply == DemoReply
    {
      reply := DemoReply;
      var loaded := LoadConversations(stored, freshId, greetingId, now);
      conversations := loaded;
      activeId := Some(loaded[0].id);
      input := "";
      isThinking := false;
    }

    /** The composer's `setInput`. */
    method SetInput(text: string)
      modifies this
      ensures input == text && conversations == old(conversations) && activeId == old(activeId)
      ensures isThinking == old(isThinking)
    {
      input := text;
    }

    /** `newChat()`: a new conversation in front, made active. */
    method NewChat(freshId: string, greetingId: string, now: int)
      requires Valid()
      modifies this
      ensures Valid()
      ensures conversations == [NewConversation(Some(DefaultTitle), freshId, greetingId, now)] + old(conversations)
      ensures activeId == Some(freshId)
      ensures ActiveConv(conversations, activeId) == Some(conversations[0])
      ensures input == old(input) && isThinking == old(isThinking)
    {
      var next := NewConversation(Some(DefaultTitle), freshId, greetingId, now);
      conversations := [next] + conversations;
      activeId := Some(next.id);
    }

    /** `deleteChat(id)`: an unknown id changes nothing; otherwise the first entry
        with the id is spliced out and the first survivor becomes active, or, when
        nothing survives, one new conversation takes the list's place while the
        active id becomes absent and the derived `activeConv` falls back to it. */
    method DeleteChat(id: string, freshId: string, greetingId: string, now: int)
      requires Valid()
      modifies this
      ensures Valid()
      ensures FindIndex(old(conversations), id) == -1 ==>
                conversations == old(conversations) && activeId == old(activeId)
      ensures FindIndex(old(conversations), id) >= 0 && |old(conversations)| > 1 ==>
                conversations == RemoveAt(old(conversations), FindIndex(old(conversations), id))
                && activeId == Some(conversations[0].id)
      ensures FindIndex(old(conversations), id) >= 0 && |old(conversations)| == 1 ==>
                conversations == [NewConversation(Some(DefaultTitle), freshId, greetingId, now)]
                && activeId == None
      ensures FindIndex(old(conversations), id) >= 0 ==>
                ActiveConv(conversations, activeId) == Some(conversations[0])
      ensures input == old(input) && isThinking == old(isThinking)
    {
      var idx := FindIndex(conversations, id);
      if idx == -1 {
        return;
      }
      var copy := RemoveAt(conversations, idx);
      var next := if |copy| > 0 then Some(copy[0].id) else None;
      conversations := if |copy| > 0 then copy else [NewConversation(Some(DefaultTitle), freshId, greetingId, now)];
      activeId := next;
    }

    /** `renameActive(title)`: every entry with the active conversation's id takes the title. */
    method RenameActive(title: string)
      requires Valid()
      modifies this
      ensures Valid()
      ensures conversations == Retitle(old(conversations), ActiveConv(old(conversations), old(activeId)).value.id, title)
      ensures activeId == old(activeId) && input == old(input) && isThinking == old(isThinking)
    {
      var active := ActiveConv(conversations, activeId).value;
      conversations := Retitle(conversations, active.id, title);
    }

    /** `pushMessage(role, content)`: a message appended to every entry with the
        active conversation's id. */
    method PushActive(role: Role, content: string, freshId: string, now: int)
      requires Valid()
      modifies this
      ensures Valid()
      ensures conversations == PushMessage(old(conversations), ActiveConv(old(conversations), old(activeId)).value.id,
                                           role, content, freshId, now).conversations
      ensures activeId == old(activeId) && input == old(input) && isThinking == old(isThinking)
    {
      var active := ActiveConv(conversations, activeId).value;
      conversations := PushMessage(conversations, active.id, role, content, freshId, now).conversations;
    }

    /** `fakeStream(text, onChunk)` with the chunk updater as its callback: one
        update per token, in order. */
    method FakeStream(target: string, tokens: seq<string>, draws: nat -> Draw)
      requires Valid()
      modifies this
      ensures Valid() && conversations == StreamList(old(conversations), target, tokens, draws)
      ensures activeId == old(activeId) && input == old(input) && isThinking == old(isThinking)
    {
      var i := 0;
      while i < |tokens|
        invariant 0 <= i <= |tokens|
        invariant conversations == StreamList(old(conversations), target, tokens[..i], draws)
        invariant Valid() && activeId == old(activeId) && input == old(input) && isThinking == old(isThinking)
      {
        conversations := ChunkInto(conversations, target, tokens[i], draws(i));
        assert tokens[..i + 1][..i] == tokens[..i];
        i := i + 1;
      }
      assert tokens[..i] == tokens;
    }

    /** `onSend()`: blank input or a send in progress changes nothing; otherwise the
        whole exchange runs against the conversation active when it started. */
    method OnSend(userMessageId: string, now: int, draws: nat -> Draw)
      requires Valid()
      modifies this
      ensures Valid()
      ensures Trim(old(input)) == [] || old(isThinking) ==>
                conversations == old(conversations) && activeId == old(activeId)
                && input == old(input) && isThinking == old(isThinking)
      ensures !(Trim(old(input)) == [] || old(isThinking)) ==>
                conversations == DemoSendList(old(conversations), old(activeId), Trim(old(input)),
                                              userMessageId, now, reply, draws)
                && activeId == old(activeId) && input == "" && !isThinking
    {
      var trimmed := Trim(input);
      if trimmed == [] || isThinking {
        return;
      }
      ghost var start := conversations;
      var activeConv := ActiveConv(conversations, activeId).value;
      conversations := PushMessage(conversations, activeConv.id, User, trimmed, userMessageId, now).conversations;
      input := "";
      if IsPlaceholderTitle(activeConv.title) {
        conversations := Retitle(conversations, activeConv.id, Take(trimmed, RenameLength));
      }
      assert conversations == DemoTurn(start, activeConv, trimmed, userMessageId, now);
      isThinking := true;
      FakeStream(activeConv.id, Tokenize(reply), draws);
      conversations := FinalizeIn(conversations, activeConv.id);
      isThinking := false;
    }
  }
}
