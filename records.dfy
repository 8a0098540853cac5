/** The records the chat client keeps in memory: messages, conversations, and the
    loosely typed values that arrive in API payloads. A field that a JavaScript
    object may lack, and that the client only reads through `??`, is an `Option`
    whose `None` stands for `undefined` or `null` alike; an array field the client
    calls `.map` on is a `JsList`, where the two differ. */
module Records {

  datatype Option<T> = None | Some(value: T) {
    /** The `??` operator: the value if present, otherwise `default`. */
    function GetOr(default: T): T {
      match this
      case Some(v) => v
      case None => default
    }
  }

  /** A JSON value whose truthiness the client tests (`Boolean(x)`, `x ? a : b`).
      Numbers are whole numbers here; NaN is not modelled. */
  datatype JsValue = Undefined | Null | Bool(b: bool) | Num(n: int) | Str(s: string)

  /** JavaScript truthiness: false, 0, "" , null and undefined are falsy. */
  predicate Truthy(v: JsValue) {
    match v
    case Undefined => false
    case Null => false
    case Bool(b) => b
    case Num(n) => n != 0
    case Str(s) => s != ""
  }

  /** An array field of a payload: missing (a parameter default applies), `null`
      (calling `.map` on it throws), or an array. */
  datatype JsList<T> = MissingList | NullList | Items(items: seq<T>)

  /** The `ROLES` table. */
  datatype Role = User | Assistant | System

  /** A message. `userId` is present only on server-mapped messages; `streaming`
      is the demo's in-progress flag, where an absent flag reads as false. */
  datatype Message = Message(
    id: string,
    role: Role,
    content: string,
    createdAt: int,
    userId: Option<string>,
    streaming: bool)

  /** A conversation. `isTemp` is absent on rooms fresh from the room list and on
      demo conversations; `isFavorited` is present only on rooms from the room list. */
  datatype Conversation = Conversation(
    id: string,
    title: string,
    createdAt: int,
    messages: seq<Message>,
    isTemp: Option<bool>,
    isFavorited: Option<bool>)

  /** The placeholder title new conversations get. */
  const DefaultTitle: string := "새 대화"

  /** The English placeholder title the demo gives by default. */
  const EnglishDefaultTitle: string := "New chat"

  /** The ids of a conversation list, as a set. */
  function Ids(convs: seq<Conversation>): (ids: set<string>)
    ensures forall i :: 0 <= i < |convs| ==> convs[i].id in ids
  {
    if convs == [] then {} else Ids(convs[..|convs| - 1]) + {convs[|convs| - 1].id}
  }

  /** Every id of the set belongs to some entry. */
  lemma {:induction false} IdsWitness(convs: seq<Conversation>, id: string)
    requires id in Ids(convs)
    ensures exists i :: 0 <= i < |convs| && convs[i].id == id
  {
    if convs[|convs| - 1].id != id {
      IdsWitness(convs[..|convs| - 1], id);
      var i :| 0 <= i < |convs| - 1 && convs[..|convs| - 1][i].id == id;
      assert convs[i].id == id;
    }
  }

  /** An id no entry carries is not among the ids. */
  lemma NotListed(convs: seq<Conversation>, id: string)
    requires forall j :: 0 <= j < |convs| ==> convs[j].id != id
    ensures id !in Ids(convs)
  {
    if id in Ids(convs) {
      IdsWitness(convs, id);
    }
  }

  /** A title that is still one of the placeholders, so the first message renames it. */
  predicate IsPlaceholderTitle(title: string) {
    title == DefaultTitle || title == EnglishDefaultTitle
  }

  /** No two entries of the list share an id. */
  predicate UniqueIds(convs: seq<Conversation>) {
    forall i, j :: 0 <= i < j < |convs| ==> convs[i].id != convs[j].id
  }

  /** The number of entries whose id is `id`. */
  function CountId(convs: seq<Conversation>, id: string): nat {
    if convs == [] then 0
    else CountId(convs[..|convs| - 1], id) + (if convs[|convs| - 1].id == id then 1 else 0)
  }
}
