/**
 * The per-conversation chat store (src/open_ai/core.rs): history entries, the
 * conversion of a `[role, content]` string pair into an entry, the `Chat`
 * object with its FIFO answer buffer, and the `ChatStorage` map from chat id
 * to chat. Threads and the lock-free queue's thread safety are not modelled:
 * every operation here runs sequentially.
 */
module Core {
  import opened Wrappers

  /** The roles of the provider's wire protocol; `Function` exists there, but nothing here produces it. */
  datatype Role = System | User | Assistant | Function

  /** `ChatCompletionParameters`: one role-tagged entry of a conversation. */
  datatype Message = Message(role: Role, content: string)

  /** The two panics of the `[role, content]` conversion, as values. */
  datatype ConversionError = InvalidVectorLength | InvalidRoleValue

  /** The tag a role is written as on input. */
  function RoleTag(r: Role): string
  {
    match r
    case System => "System"
    case User => "User"
    case Assistant => "Assistant"
    case Function => "Function"
  }

  /** The strict role parser of the conversion: only three tags are accepted. */
  function ParseRole(tag: string): (r: Option<Role>)
    ensures r.Some? <==> tag == "System" || tag == "User" || tag == "Assistant"
    ensures r.Some? ==> RoleTag(r.value) == tag && r.value != Function
  {
    if tag == "System" then Some(System)
    else if tag == "User" then Some(User)
    else if tag == "Assistant" then Some(Assistant)
    else None
  }

  /** Every role but `Function` survives being written as a tag and parsed back. */
  lemma ParseRoleTag(r: Role)
    requires r != Function
    ensures ParseRole(RoleTag(r)) == Some(r)
  {
  }

  /**
   * `Into<ChatCompletionParameters> for Vec<String>`: the length is checked
   * first, then the role tag; the content is element 1.
   */
  function IntoParameters(v: seq<string>): (r: Result<Message, ConversionError>)
    ensures r == Failure(InvalidVectorLength) <==> |v| != 2
    ensures r == Failure(InvalidRoleValue) <==> |v| == 2 && ParseRole(v[0]) == None
    ensures r.Success? ==> v == [RoleTag(r.value.role), r.value.content] && r.value.role != Function
  {
    if |v| != 2 then Failure(InvalidVectorLength)
    else match ParseRole(v[0])
      case None => Failure(InvalidRoleValue)
      case Some(role) => Success(Message(role, v[1]))
  }

  /** Writing an entry as a `[role, content]` pair and converting it back gives the entry. */
  lemma IntoParametersRoundTrip(m: Message)
    requires m.role != Function
    ensures IntoParameters([RoleTag(m.role), m.content]) == Success(m)
  {
    ParseRoleTag(m.role);
  }

  // ---------------------------------------------------------------------------
  // The answer buffer: a FIFO queue of strings (crossbeam's `SegQueue`)
  // ---------------------------------------------------------------------------

  /** `pop().unwrap_or_default()`: the oldest element and the rest, or "" on an empty queue. */
  function Pop(q: seq<string>): (r: (string, seq<string>))
    ensures q == [] ==> r == ("", [])
    ensures q != [] ==> [r.0] + r.1 == q
  {
    if q == [] then ("", []) else (q[0], q[1..])
  }

  /** A push never overtakes what is already queued: it only shows up once the queue is drained. */
  lemma PopAfterPush(q: seq<string>, x: string)
    ensures Pop(q + [x]) == if q == [] then (x, []) else (q[0], Pop(q).1 + [x])
  {
    if q != [] {
      assert (q + [x])[1..] == q[1..] + [x];
    }
  }

  /** The results of `n` successive reads of a queue. */
  function Reads(q: seq<string>, n: nat): seq<string>
  {
    if n == 0 then [] else [Pop(q).0] + Reads(Pop(q).1, n - 1)
  }

  function Blanks(n: nat): (r: seq<string>)
    ensures |r| == n && forall i :: 0 <= i < n ==> r[i] == ""
  {
    if n == 0 then [] else Blanks(n - 1) + [""]
  }

  /**
   * FIFO order: reading a queue |q| + k times returns its elements oldest
   * first, then "" for every read of the empty queue.
   */
  lemma {:induction false} ReadsDrainInOrder(q: seq<string>, k: nat)
    ensures Reads(q, |q| + k) == q + Blanks(k)
  {
    if q == [] {
      if k > 0 {
        ReadsDrainInOrder([], k - 1);
        assert Blanks(k) == [""] + Blanks(k - 1);
      }
    } else {
      ReadsDrainInOrder(q[1..], k);
      assert |q[1..]| + k == |q| + k - 1;
    }
  }

  // ---------------------------------------------------------------------------
  // Chat and ChatStorage
  // ---------------------------------------------------------------------------

  /**
   * The value of one chat's state. `requests` is the request buffer that
   * src/open_ai/chat_completions.rs appends to through
   * `append_request_to_chat`; core.rs as written has no such field, so its
   * shape (a FIFO like `answers`) is an assumption.
   */
  datatype ChatState = ChatState(id: string, answers: seq<string>, requests: seq<string>, history: seq<Message>)

  /** What `Chat::new` builds: id "default", nothing buffered, empty history. */
  function NewChatState(): ChatState
  {
    ChatState("default", [], [], [])
  }

  class Chat {
    var id: string
    var answers: seq<string>
    var requests: seq<string>
    var history: seq<Message>

    function State(): ChatState
      reads this
    {
      ChatState(id, answers, requests, history)
    }

    /** `Chat::new`: the id is "default" whatever key the chat is stored under. */
    constructor ()
      ensures State() == NewChatState()
    {
      id := "default";
      answers := [];
      requests := [];
      history := [];
    }

    /** Despite its name, this pops the OLDEST deposited answer; "" when none is pending. */
    method GetLastAnswerContent() returns (answer: string)
      modifies this
      ensures (answer, answers) == Pop(old(answers))
      ensures old(answers) == [] ==> answer == "" && answers == []
      ensures old(answers) != [] ==> answer == old(answers)[0] && answers == old(answers)[1..]
      ensures id == old(id) && requests == old(requests) && history == old(history)
    {
      if answers == [] {
        answer := "";
      } else {
        answer := answers[0];
        answers := answers[1..];
      }
    }

    method AddAnswer(answer: string)
      modifies this
      ensures answers == old(answers) + [answer]
      ensures id == old(id) && requests == old(requests) && history == old(history)
    {
      answers := answers + [answer];
    }

    /** The request buffer's push (assumed, see `ChatState`). */
    method AddRequest(request: string)
      modifies this
      ensures requests == old(requests) + [request]
      ensures id == old(id) && answers == old(answers) && history == old(history)
    {
      requests := requests + [request];
    }

    /** Appends exactly one entry at the end of the history. */
    method AddHistory(role: Role, message: string)
      modifies this
      ensures history == old(history) + [Message(role, message)]
      ensures id == old(id) && answers == old(answers) && requests == old(requests)
    {
      history := history + [Message(role, message)];
    }

    /** A copy of the history; the chat is left as it was. */
    method GetHistory() returns (h: seq<Message>)
      ensures h == history
    {
      h := history;
    }
  }

  /** After one deposit into an empty buffer, a first read returns it and a second returns "". */
  method DepositThenReadTwice(answer: string) returns (first: string, second: string)
    ensures first == answer && second == ""
  {
    var chat := new Chat();
    chat.AddAnswer(answer);
    first := chat.GetLastAnswerContent();
    second := chat.GetLastAnswerContent();
  }

  /** A second update of the same key overrides the first. */
  lemma UpdateTwice<K, V>(m: map<K, V>, k: K, a: V, b: V)
    ensures m[k := a][k := b] == m[k := b]
  {
  }

  /** The single `Chat` operation each store helper performs. */
  datatype ChatUpdate =
    | PushRequest(request: string)
    | PushHistory(role: Role, content: string)
    | PushAnswer(answer: string)

  /** The state of a chat after `u`. */
  function Applied(s: ChatState, u: ChatUpdate): ChatState
  {
    match u
    case PushRequest(request) => s.(requests := s.requests + [request])
    case PushHistory(role, content) => s.(history := s.history + [Message(role, content)])
    case PushAnswer(answer) => s.(answers := s.answers + [answer])
  }

  /** The state of chat `id` in a store view, or that of a chat not yet created. */
  function StateOf(view: map<string, ChatState>, id: string): ChatState
  {
    if id in view then view[id] else NewChatState()
  }

  /**
   * `ChatStorage`: chat id to chat. The helpers `append_request_to_chat`,
   * `append_to_chat_history`, `append_answer_to_chat` and
   * `get_full_chat_history`, which src/open_ai/chat_completions.rs imports
   * from core.rs, which does not define them, are modelled as what their
   * call sites imply: get-or-create the chat, then one `Chat` operation.
   */
  class ChatStorage {
    var chats: map<string, Chat>
    /** The state of every stored chat, by id. */
    ghost var Contents: map<string, ChatState>
    /** The chats the store owns. */
    ghost var Repr: set<object>
    /** The key each owned chat is stored under. */
    ghost var Owner: map<Chat, string>

    /**
     * The map owns its chats: each one is in `Repr` (which does not hold the
     * store itself) and is stored under one key only, and `Contents` is
     * their state.
     */
    ghost predicate Valid()
      reads this, Repr
    {
      && this !in Repr
      && (forall k :: k in chats ==> chats[k] in Repr && chats[k] in Owner && Owner[chats[k]] == k)
      && Contents.Keys == chats.Keys
      && (forall k :: k in chats ==> Contents[k] == chats[k].State())
    }

    constructor ()
      ensures Valid() && fresh(Repr)
      ensures chats == map[] && Contents == map[]
    {
      chats := map[];
      Contents := map[];
      Repr := {};
      Owner := map[];
    }

    /**
     * Returns the chat stored under `chatId`, inserting a fresh empty chat
     * first when there is none; no other entry changes.
     */
    method GetOrCreateChat(chatId: string) returns (chat: Chat)
      requires Valid()
      modifies this
      ensures Valid() && Repr == old(Repr) + {chat} && fresh(Repr - old(Repr))
      ensures chatId in old(chats) ==> Repr == old(Repr)
      ensures chatId in chats && chat == chats[chatId]
      ensures chats.Keys == old(chats.Keys) + {chatId}
      ensures chatId in old(chats) ==> chats == old(chats)
      ensures chatId !in old(chats) ==> fresh(chat) && chats == old(chats)[chatId := chat]
      ensures chat.State() == StateOf(old(Contents), chatId)
      ensures Contents == old(Contents)[chatId := StateOf(old(Contents), chatId)]
    {
      if chatId in chats {
        chat := chats[chatId];
      } else {
        chat := InsertNewChat(chatId);
      }
    }

    /** `or_insert(Chat::new())` on a missing key: a fresh empty chat under `chatId`. */
    method InsertNewChat(chatId: string) returns (chat: Chat)
      requires Valid() && chatId !in chats
      modifies this
      ensures Valid() && fresh(chat) && Repr == old(Repr) + {chat}
      ensures chats == old(chats)[chatId := chat]
      ensures chat.State() == NewChatState()
      ensures Contents == old(Contents)[chatId := NewChatState()]
    {
      chat := new Chat();
      chats := chats[chatId := chat];
      Repr := Repr + {chat};
      Owner := Owner[chat := chatId];
      Contents := Contents[chatId := chat.State()];
    }

    /**
     * After the chat under `chatId` alone has changed and `Contents` has been
     * updated at `chatId`, the store is valid again.
     */
    twostate lemma SyncedAfterUpdate(chatId: string)
      requires old(Valid()) && chatId in chats && chats == old(chats) && Repr == old(Repr) && Owner == old(Owner)
      requires forall o :: o in Repr && o != chats[chatId] ==> unchanged(o)
      requires Contents == old(Contents)[chatId := chats[chatId].State()]
      ensures Valid()
    {
      forall k | k in chats
        ensures Contents[k] == chats[k].State()
      {
        if k != chatId {
          assert Owner[chats[k]] != Owner[chats[chatId]];
          assert unchanged(chats[k]);
        }
      }
    }

    /**
     * Get-or-create the chat under `chatId`, then apply `u` to it; `Contents`
     * changes at `chatId` only.
     */
    method UpdateChat(chatId: string, u: ChatUpdate)
      requires Valid()
      modifies this, Repr
      ensures Valid() && fresh(Repr - old(Repr))
      ensures chatId in chats && (chatId in old(chats) ==> Repr == old(Repr))
      ensures Contents == old(Contents)[chatId := Applied(StateOf(old(Contents), chatId), u)]
    {
      ghost var s := StateOf(Contents, chatId);
      var chat := GetOrCreateChat(chatId);
      label created:
      match u {
        case PushRequest(request) => chat.AddRequest(request);
        case PushHistory(role, content) => chat.AddHistory(role, content);
        case PushAnswer(answer) => chat.AddAnswer(answer);
      }
      assert chat.State() == Applied(s, u);
      UpdateTwice(old(Contents), chatId, s, chat.State());
      Contents := Contents[chatId := chat.State()];
      SyncedAfterUpdate@created(chatId);
      assert fresh(Repr - old(Repr));
    }

    /** Pushes `request` onto the request buffer of chat `chatId`. */
    method AppendRequestToChat(chatId: string, request: string)
      requires Valid()
      modifies this, Repr
      ensures Valid() && fresh(Repr - old(Repr))
      ensures chatId in chats && (chatId in old(chats) ==> Repr == old(Repr))
      ensures var s := StateOf(old(Contents), chatId);
              Contents == old(Contents)[chatId := s.(requests := s.requests + [request])]
    {
      UpdateChat(chatId, PushRequest(request));
    }

    /** Appends one entry to the history of chat `chatId`. */
    method AppendToChatHistory(chatId: string, role: Role, content: string)
      requires Valid()
      modifies this, Repr
      ensures Valid() && fresh(Repr - old(Repr))
      ensures chatId in chats && (chatId in old(chats) ==> Repr == old(Repr))
      ensures var s := StateOf(old(Contents), chatId);
              Contents == old(Contents)[chatId := s.(history := s.history + [Message(role, content)])]
    {
      UpdateChat(chatId, PushHistory(role, content));
    }

    /** Deposits `answer` into the answer buffer of chat `chatId`. */
    method AppendAnswerToChat(chatId: string, answer: string)
      requires Valid()
      modifies this, Repr
      ensures Valid() && fresh(Repr - old(Repr))
      ensures chatId in chats && (chatId in old(chats) ==> Repr == old(Repr))
      ensures var s := StateOf(old(Contents), chatId);
              Contents == old(Contents)[chatId := s.(answers := s.answers + [answer])]
    {
      UpdateChat(chatId, PushAnswer(answer));
    }

    /** The whole history of chat `chatId`, which is created if it did not exist. */
    method GetFullChatHistory(chatId: string) returns (history: seq<Message>)
      requires Valid()
      modifies this
      ensures Valid() && fresh(Repr - old(Repr))
      ensures chatId in old(chats) ==> Repr == old(Repr)
      ensures history == StateOf(old(Contents), chatId).history
      ensures Contents == old(Contents)[chatId := StateOf(old(Contents), chatId)]
    {
      var chat := GetOrCreateChat(chatId);
      history := chat.GetHistory();
    }
  }
}
