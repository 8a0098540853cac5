/** The room hook: reconciling the server's room list with the conversations held
    locally, choosing the active room, replacing or adding one conversation, and
    deleting one. The list updaters are functions on a snapshot; `ChatStore`
    holds the two pieces of state they are applied to. */
module ChatRooms {
  import opened Records
  import opened Text
  import opened ChatUtils

  /** `new Map(prev.map(c => [c.id, c])).get(id)`: building a map from the list
      lets a later entry overwrite an earlier one, so this is the LAST entry with
      the id (see `LookupLastIsLast`). */
  function LookupLast(convs: seq<Conversation>, id: string): (r: Option<Conversation>)
    ensures r.None? <==> id !in Ids(convs)
    ensures r.Some? ==> r.value.id == id && r.value in convs
  {
    if convs == [] then None
    else if convs[|convs| - 1].id == id then Some(convs[|convs| - 1])
    else
      var r := LookupLast(convs[..|convs| - 1], id);
      assert Ids(convs) == Ids(convs[..|convs| - 1]) + {convs[|convs| - 1].id} by {
        assert convs == convs[..|convs| - 1] + [convs[|convs| - 1]];
      }
      r
  }

  /** The entry found is the one at the last index that has the id. */
  lemma {:induction false} LookupLastIsLast(convs: seq<Conversation>, id: string, j: nat)
    requires j < |convs| && convs[j].id == id
    requires forall k :: j < k < |convs| ==> convs[k].id != id
    ensures LookupLast(convs, id) == Some(convs[j])
  {
    var n := |convs|;
    if j < n - 1 {
      var init := convs[..n - 1];
      assert init[j] == convs[j];
      LookupLastIsLast(init, id, j);
    }
  }

  /** With ids unique, the lookup finds the one entry that has the id. */
  lemma LookupUnique(convs: seq<Conversation>, i: nat)
    requires UniqueIds(convs) && i < |convs|
    ensures LookupLast(convs, convs[i].id) == Some(convs[i])
  {
    var r := LookupLast(convs, convs[i].id);
    var k :| 0 <= k < |convs| && convs[k] == r.value;
    assert k == i;
  }

  /** One server room merged with the local entry of the same id, if any: the
      server's fields, the local messages, and the local `isTemp` (false when the
      local entry has none). */
  function MergeRoom(server: Conversation, prev: seq<Conversation>): (r: Conversation)
    ensures r.id == server.id && r.title == server.title
    ensures r.createdAt == server.createdAt && r.isFavorited == server.isFavorited
    ensures server.id !in Ids(prev) ==> r == server
    ensures server.id in Ids(prev) ==>
              r.messages == LookupLast(prev, server.id).value.messages
              && r.isTemp == Some(LookupLast(prev, server.id).value.isTemp.GetOr(false))
  {
    match LookupLast(prev, server.id)
    case None => server
    case Some(existing) =>
      server.(messages := existing.messages, isTemp := Some(existing.isTemp.GetOr(false)))
  }

  /** `prev.filter(c => !ids.has(c.id))`. */
  function Exclude(convs: seq<Conversation>, ids: set<string>): (r: seq<Conversation>)
    ensures |r| <= |convs|
    ensures forall c :: c in r <==> c in convs && c.id !in ids
  {
    if convs == [] then []
    else
      var init, last := convs[..|convs| - 1], convs[|convs| - 1];
      assert convs == init + [last];
      Exclude(init, ids) + (if last.id in ids then [] else [last])
  }

  /** Filtering distributes over concatenation: what survives keeps its relative
      order. */
  lemma {:induction false} ExcludeConcat(a: seq<Conversation>, b: seq<Conversation>, ids: set<string>)
    ensures Exclude(a + b, ids) == Exclude(a, ids) + Exclude(b, ids)
  {
    if b == [] {
      assert a + b == a;
    } else {
      var init := b[..|b| - 1];
      assert (a + b)[..|a + b| - 1] == a + init;
      ExcludeConcat(a, init, ids);
    }
  }

  /** Nothing is dropped when no entry has an excluded id. */
  lemma {:induction false} ExcludeNothing(convs: seq<Conversation>, ids: set<string>)
    requires forall i :: 0 <= i < |convs| ==> convs[i].id !in ids
    ensures Exclude(convs, ids) == convs
  {
    if convs != [] {
      ExcludeNothing(convs[..|convs| - 1], ids);
      assert convs == convs[..|convs| - 1] + [convs[|convs| - 1]];
    }
  }

  /** A filtered list without repeated ids has none either. */
  lemma {:induction false} ExcludeKeepsIdsUnique(convs: seq<Conversation>, ids: set<string>)
    requires UniqueIds(convs)
    ensures UniqueIds(Exclude(convs, ids))
  {
    if convs != [] {
      var init, last := convs[..|convs| - 1], convs[|convs| - 1];
      ExcludeKeepsIdsUnique(init, ids);
      var e := Exclude(init, ids);
      forall i | 0 <= i < |e| ensures e[i].id != last.id {
        assert e[i] in init;
      }
    }
  }

  /** The list the room-list updater builds: each server room in server order,
      merged with its local counterpart, followed by the local-only rooms. */
  function Reconcile(normalized: seq<Conversation>, prev: seq<Conversation>): (r: seq<Conversation>)
    ensures |r| == |normalized| + |Exclude(prev, Ids(normalized))|
    ensures r[|normalized|..] == Exclude(prev, Ids(normalized))
    ensures forall i :: 0 <= i < |normalized| ==>
              r[i].id == normalized[i].id && r[i].title == normalized[i].title
              && r[i].createdAt == normalized[i].createdAt
              && r[i].isFavorited == normalized[i].isFavorited
    ensures forall i :: 0 <= i < |normalized| && normalized[i].id !in Ids(prev) ==>
              r[i] == normalized[i]
    ensures forall i :: 0 <= i < |normalized| && normalized[i].id in Ids(prev) ==>
              r[i].messages == LookupLast(prev, normalized[i].id).value.messages
              && r[i].isTemp == Some(LookupLast(prev, normalized[i].id).value.isTemp.GetOr(false))
  {
    var merged := seq(|normalized|, i requires 0 <= i < |normalized| => MergeRoom(normalized[i], prev));
    merged + Exclude(prev, Ids(normalized))
  }

  /** Every local conversation keeps its messages: a room the server also lists
      gets the local history, and a local-only room survives whole. */
  lemma ReconcileKeepsLocalMessages(normalized: seq<Conversation>, prev: seq<Conversation>, k: nat)
    requires UniqueIds(prev) && k < |prev|
    ensures exists j :: 0 <= j < |Reconcile(normalized, prev)|
              && Reconcile(normalized, prev)[j].id == prev[k].id
              && Reconcile(normalized, prev)[j].messages == prev[k].messages
  {
    var r := Reconcile(normalized, prev);
    LookupUnique(prev, k);
    if prev[k].id in Ids(normalized) {
      IdsWitness(normalized, prev[k].id);
      var i :| 0 <= i < |normalized| && normalized[i].id == prev[k].id;
      assert r[i].id == prev[k].id && r[i].messages == prev[k].messages;
    } else {
      var extras := Exclude(prev, Ids(normalized));
      assert prev[k] in extras;
      var e :| 0 <= e < |extras| && extras[e] == prev[k];
      assert r[|normalized| + e] == r[|normalized|..][e];
    }
  }

  /** Two lists without repeated ids, sharing no id, append to one without. */
  lemma AppendKeepsIdsUnique(a: seq<Conversation>, b: seq<Conversation>)
    requires UniqueIds(a) && UniqueIds(b)
    requires forall i, j :: 0 <= i < |a| && 0 <= j < |b| ==> a[i].id != b[j].id
    ensures UniqueIds(a + b)
  {
    forall i, j | 0 <= i < j < |a + b| ensures (a + b)[i].id != (a + b)[j].id {
      if |a| <= i {
        assert (a + b)[i] == b[i - |a|] && (a + b)[j] == b[j - |a|];
      } else if |a| <= j {
        assert (a + b)[i] == a[i] && (a + b)[j] == b[j - |a|];
      }
    }
  }

  /** Distinct server ids and distinct local ids give a merged list whose ids are
      distinct: a temporary room is never duplicated by the merge. */
  lemma ReconcileKeepsIdsUnique(normalized: seq<Conversation>, prev: seq<Conversation>)
    requires UniqueIds(normalized) && UniqueIds(prev)
    ensures UniqueIds(Reconcile(normalized, prev))
  {
    var r := Reconcile(normalized, prev);
    var n := |normalized|;
    var head, extras := r[..n], Exclude(prev, Ids(normalized));
    ExcludeKeepsIdsUnique(prev, Ids(normalized));
    assert forall i :: 0 <= i < n ==> head[i].id == normalized[i].id;
    forall i, j | 0 <= i < n && 0 <= j < |extras| ensures head[i].id != extras[j].id {
      assert extras[j] in extras;
    }
    AppendKeepsIdsUnique(head, extras);
    assert r == head + extras;
  }

  /** The optional id is present and some entry of the list has it. */
  predicate Listed(list: seq<Conversation>, id: Option<string>) {
    id.Some? && id.value in Ids(list)
  }

  /** The active id after a reload, in priority order: the route's id if the list
      has it, else the current id if the list has it, else the first entry's id,
      else none. */
  function ResolveActiveId(list: seq<Conversation>, routeId: Option<string>,
                           currentId: Option<string>): (r: Option<string>)
    ensures Listed(list, routeId) ==> r == routeId
    ensures !Listed(list, routeId) && Listed(list, currentId) ==> r == currentId
    ensures !Listed(list, routeId) && !Listed(list, currentId) && list != [] ==>
              r == Some(list[0].id)
    ensures r.None? <==> list == []
    ensures r.Some? ==> r.value in Ids(list)
  {
    if Listed(list, routeId) then routeId
    else if Listed(list, currentId) then currentId
    else if list != [] then Some(list[0].id)
    else None
  }

  /** The error branch of the reload: a list that has entries is kept, and an
      empty one is replaced by `normalizeChatRooms([])`, which is empty too; either
      way the list is what it was. */
  function ErrorFallback(prev: seq<Conversation>, now: int): (r: seq<Conversation>)
    ensures r == prev
  {
    if |prev| > 0 then prev else NormalizeChatRooms([], now)
  }

  /** `upsertConversation(next)`: replace by id in place, or append. */
  function Upsert(prev: seq<Conversation>, next: Conversation): (r: seq<Conversation>)
    ensures next.id in Ids(prev) ==> |r| == |prev|
    ensures next.id in Ids(prev) ==>
              forall i :: 0 <= i < |r| ==> r[i] == if prev[i].id == next.id then next else prev[i]
    ensures next.id !in Ids(prev) ==> r == prev + [next]
    ensures next in r
  {
    if next.id in Ids(prev) then
      IdsWitness(prev, next.id);
      seq(|prev|, i requires 0 <= i < |prev| => if prev[i].id == next.id then next else prev[i])
    else prev + [next]
  }

  /** Upserting the same conversation twice is upserting it once. */
  lemma UpsertIdempotent(prev: seq<Conversation>, next: Conversation)
    ensures Upsert(Upsert(prev, next), next) == Upsert(prev, next)
  {
    var once := Upsert(prev, next);
    assert forall i :: 0 <= i < |once| && once[i].id == next.id ==> once[i] == next;
    UpsertSettled(once, next);
  }

  /** Upserting onto a list whose entries with that id all equal it already changes
      nothing. */
  lemma UpsertSettled(convs: seq<Conversation>, next: Conversation)
    requires next in convs
    requires forall i :: 0 <= i < |convs| && convs[i].id == next.id ==> convs[i] == next
    ensures Upsert(convs, next) == convs
  {
    var k :| 0 <= k < |convs| && convs[k] == next;
    assert next.id in Ids(convs);
    var r := Upsert(convs, next);
    forall i | 0 <= i < |convs| ensures r[i] == convs[i] {
    }
  }

  /** Upsert keeps ids distinct. */
  lemma UpsertKeepsIdsUnique(prev: seq<Conversation>, next: Conversation)
    requires UniqueIds(prev)
    ensures UniqueIds(Upsert(prev, next))
  {
    var r := Upsert(prev, next);
    if next.id !in Ids(prev) {
      forall i, j | 0 <= i < j < |r| ensures r[i].id != r[j].id {
        if j == |prev| { assert r[i] == prev[i]; }
      }
    }
  }

  /** The list after `onDeleteChat(id)`: every entry with the id filtered out, or a
      single fresh conversation when nothing is left. */
  function AfterDelete(prev: seq<Conversation>, id: string, fallback: Conversation): (r: seq<Conversation>)
    ensures |r| > 0
    ensures Exclude(prev, {id}) != [] ==> r == Exclude(prev, {id})
    ensures Exclude(prev, {id}) == [] ==> r == [fallback]
  {
    var remaining := Exclude(prev, {id});
    if |remaining| > 0 then remaining else [fallback]
  }

  /** After a delete no entry carries the deleted id (the fresh conversation has
      an id of its own), and the survivors are the old entries in their order. */
  lemma DeleteRemovesId(prev: seq<Conversation>, id: string, fallback: Conversation)
    requires fallback.id != id
    ensures id !in Ids(AfterDelete(prev, id, fallback))
    ensures forall c :: c in prev && c.id != id ==> c in AfterDelete(prev, id, fallback)
  {
    var r := AfterDelete(prev, id, fallback);
    if id in Ids(r) {
      IdsWitness(r, id);
    }
  }

  /** The messages response of one room. */
  datatype ApiRoomMessages = ApiRoomMessages(
    chatRoomId: nat, title: Option<string>, messages: JsList<ApiMessage>)

  /** `loadConversationMessages`'s result in the client's format; it has no
      `isTemp` and no favourite flag. `None` when mapping the history throws,
      which rejects the promise. */
  function LoadedConversation(data: ApiRoomMessages, now: int): (c: Option<Conversation>)
    ensures c.None? <==> data.messages.NullList?
    ensures c.Some? ==> c.value.id == NatToString(data.chatRoomId)
    ensures c.Some? ==> c.value.title == if data.title.Some? then data.title.value else DefaultTitle
    ensures c.Some? ==> c.value.messages == MapMessages(data.messages).value
    ensures c.Some? ==> c.value.isTemp == None && c.value.isFavorited == None && c.value.createdAt == now
  {
    match MapMessages(data.messages)
    case None => None
    case Some(messages) =>
      Some(Conversation(NatToString(data.chatRoomId), data.title.GetOr(DefaultTitle), now,
                        messages, None, None))
  }

  /** The state the room hook writes: the conversation list and the active id
      (which `activeIdRef` mirrors). */
  class ChatStore {
    var conversations: seq<Conversation>
    var activeId: Option<string>

    constructor (conversations: seq<Conversation>, activeId: Option<string>)
      ensures this.conversations == conversations && this.activeId == activeId
    {
      this.conversations := conversations;
      this.activeId := activeId;
    }

    method UpsertConversation(next: Conversation)
      modifies this
      ensures conversations == Upsert(old(conversations), next)
      ensures activeId == old(activeId)
    {
      conversations := Upsert(conversations, next);
    }

    /** `loadChatRooms`, with the room-list response given: `None` stands for any
        failure of the request or of reading its body. On success the list is
        reconciled and the active id resolved against the new list, kept as it
        was when the list is empty. */
    method LoadChatRooms(response: Option<seq<ApiRoom>>, routeActiveId: Option<string>, now: int)
      modifies this
      ensures response.Some? ==>
                conversations == Reconcile(NormalizeChatRooms(response.value, now), old(conversations))
      ensures response.Some? && conversations != [] ==>
                activeId == ResolveActiveId(conversations, routeActiveId, old(activeId))
      ensures response.Some? && conversations != [] ==> activeId.value in Ids(conversations)
      ensures response.Some? && conversations == [] ==> activeId == old(activeId)
      ensures response.None? ==> conversations == old(conversations) && activeId == old(activeId)
    {
      match response {
        case Some(rooms) =>
          var normalized := NormalizeChatRooms(rooms, now);
          var nextList := Reconcile(normalized, conversations);
          var resolvedActiveId := ResolveActiveId(nextList, routeActiveId, activeId);
          conversations := nextList;
          if resolvedActiveId.Some? {
            activeId := resolvedActiveId;
          }
        case None =>
          conversations := ErrorFallback(conversations, now);
      }
    }

    /** `onSelectChat(chatRoomId)`, with the messages response given (`None` for a
        failed request): the loaded room replaces or joins the list and becomes
        active. A failed request, or a `null` history that makes the mapping
        throw, lands in the `catch` and changes nothing. */
    method SelectChat(response: Option<ApiRoomMessages>, now: int)
      modifies this
      ensures response.Some? && !response.value.messages.NullList? ==>
                conversations == Upsert(old(conversations), LoadedConversation(response.value, now).value)
                && activeId == Some(NatToString(response.value.chatRoomId))
      ensures response.None? || response.value.messages.NullList? ==>
                conversations == old(conversations) && activeId == old(activeId)
    {
      if response.Some? {
        var loaded := LoadedConversation(response.value, now);
        if loaded.Some? {
          var mapped := loaded.value;
          UpsertConversation(mapped);
          activeId := Some(mapped.id);
        }
      }
    }

    /** `onDeleteChat(id)`: the new active id is always the first entry's. */
    method DeleteChat(id: string, freshId: string, now: int)
      modifies this
      ensures conversations == AfterDelete(old(conversations), id,
                                           CreateConversation(Some(DefaultTitle), NoOptions, freshId, now))
      ensures activeId == Some(conversations[0].id)
    {
      var nextList := AfterDelete(conversations, id,
                                  CreateConversation(Some(DefaultTitle), NoOptions, freshId, now));
      activeId := Some(nextList[0].id);
      conversations := nextList;
    }
  }
}
