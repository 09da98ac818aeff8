/**
 * Scheduling a chat completion (src/open_ai/chat_completions.rs), taken as one
 * sequential step: the new messages are appended to the chat, the full history
 * is translated into a provider request, the provider's reply (or its error
 * text) is deposited as the answer and appended as an `Assistant` entry.
 *
 * The provider is a function parameter standing for the HTTP call; the thread
 * that runs the step and the async runtime are not modelled.
 */
module ChatCompletions {
  import opened Wrappers
  import opened Core
  import opened OpenAiSettings

  // ---------------------------------------------------------------------------
  // Request and response of the provider's chat-completion endpoint
  // ---------------------------------------------------------------------------

  datatype RequestMessage = RequestMessage(role: Role, content: string)

  datatype CreateChatCompletionRequest =
    CreateChatCompletionRequest(model: string, maxTokens: u16, messages: seq<RequestMessage>)

  /** Credentials the client is configured with. */
  datatype ClientConfig = ClientConfig(apiKey: string, orgId: string)

  /** One returned choice; its message content may be absent. */
  datatype Choice = Choice(content: Option<string>)

  datatype CreateChatCompletionResponse = CreateChatCompletionResponse(choices: seq<Choice>)

  /** The remote call: a response, or the text of the transport or API error. */
  type Provider = (ClientConfig, CreateChatCompletionRequest) -> Result<CreateChatCompletionResponse, string>

  /** The code indexes `choices[0]` of every successful response. */
  ghost predicate AnswersWithChoices(send: Provider)
  {
    forall config, request :: send(config, request).Success? ==> |send(config, request).value.choices| > 0
  }

  // ---------------------------------------------------------------------------
  // Building the request
  // ---------------------------------------------------------------------------

  /** The request messages for a history, built one entry at a time. */
  function RequestMessages(messages: seq<Message>): seq<RequestMessage>
  {
    if messages == [] then []
    else
      var last := messages[|messages| - 1];
      RequestMessages(messages[..|messages| - 1]) + [RequestMessage(last.role, last.content)]
  }

  /** Translation keeps the number, the order, the roles and the contents of the entries. */
  lemma {:induction false} RequestMessagesPreserve(messages: seq<Message>)
    ensures |RequestMessages(messages)| == |messages|
    ensures forall i :: 0 <= i < |messages| ==>
              RequestMessages(messages)[i] == RequestMessage(messages[i].role, messages[i].content)
  {
    if messages != [] {
      RequestMessagesPreserve(messages[..|messages| - 1]);
    }
  }

  /** The request `build_chat_completion_request` builds from a history and the settings. */
  function RequestFor(settings: Settings, messages: seq<Message>): CreateChatCompletionRequest
  {
    CreateChatCompletionRequest(GetModel(settings), GetMaxTokens(settings), RequestMessages(messages))
  }

  method BuildChatCompletionRequest(settings: Settings, messages: seq<Message>)
    returns (request: CreateChatCompletionRequest)
    ensures request == RequestFor(settings, messages)
    ensures request.model == settings.model && request.maxTokens == settings.maxTokens
    ensures |request.messages| == |messages|
    ensures forall i :: 0 <= i < |messages| ==>
              request.messages[i] == RequestMessage(messages[i].role, messages[i].content)
  {
    var args: seq<RequestMessage> := [];
    for i := 0 to |messages|
      invariant args == RequestMessages(messages[..i])
    {
      assert messages[..i + 1][..i] == messages[..i];
      args := args + [RequestMessage(messages[i].role, messages[i].content)];
    }
    assert messages[..|messages|] == messages;
    RequestMessagesPreserve(messages);
    request := CreateChatCompletionRequest(GetModel(settings), GetMaxTokens(settings), args);
  }

  // ---------------------------------------------------------------------------
  // Calling the provider
  // ---------------------------------------------------------------------------

  /** The client configuration built from the settings' credentials. */
  function ConfigFor(settings: Settings): (config: ClientConfig)
    ensures config.apiKey == settings.apiKey && config.orgId == settings.orgId
  {
    ClientConfig(GetApiKey(settings), GetOrgId(settings))
  }

  /** The text of the first choice, or "" when that choice carries no content. */
  function FirstChoiceContent(response: CreateChatCompletionResponse): (text: string)
    requires |response.choices| > 0
    ensures response.choices[0].content.Some? ==> text == response.choices[0].content.value
    ensures response.choices[0].content.None? ==> text == ""
  {
    response.choices[0].content.GetOr("")
  }

  /** What `chat_completion_request` yields for a history. */
  function CompletionOutcome(settings: Settings, history: seq<Message>, send: Provider): (r: Result<string, string>)
    requires AnswersWithChoices(send)
    ensures var reply := send(ConfigFor(settings), RequestFor(settings, history));
            && (r.Failure? <==> reply.Failure?)
            && (r.Failure? ==> r.error == reply.error)
            && (r.Success? ==> r.value == FirstChoiceContent(reply.value))
  {
    match send(ConfigFor(settings), RequestFor(settings, history))
    case Failure(e) => Failure(e)
    case Success(response) => Success(FirstChoiceContent(response))
  }

  /** `unwrap_or_else(|err| err.to_string())`: an error becomes its text, so a string always results. */
  function ErrorToString(outcome: Result<string, string>): (text: string)
    ensures outcome.Success? ==> text == outcome.value
    ensures outcome.Failure? ==> text == outcome.error
  {
    match outcome
    case Success(s) => s
    case Failure(e) => e
  }

  /** The string `wrapped_chat_completion_request` returns for a history. */
  function CompletionText(settings: Settings, history: seq<Message>, send: Provider): string
    requires AnswersWithChoices(send)
  {
    ErrorToString(CompletionOutcome(settings, history, send))
  }

  /** The completion text is the first choice's content on success and the error text otherwise. */
  lemma CompletionTextCases(settings: Settings, history: seq<Message>, send: Provider)
    requires AnswersWithChoices(send)
    ensures var reply := send(ConfigFor(settings), RequestFor(settings, history));
            && (reply.Failure? ==> CompletionText(settings, history, send) == reply.error)
            && (reply.Success? ==> CompletionText(settings, history, send) == FirstChoiceContent(reply.value))
  {
  }

  method ChatCompletionRequest(settings: Settings, messages: seq<Message>, send: Provider)
    returns (r: Result<string, string>)
    requires AnswersWithChoices(send)
    ensures r == CompletionOutcome(settings, messages, send)
  {
    var config := ConfigFor(settings);
    var request := BuildChatCompletionRequest(settings, messages);
    var reply := send(config, request);
    match reply
    case Failure(e) =>
      r := Failure(e);
    case Success(response) =>
      r := Success(FirstChoiceContent(response));
  }

  method WrappedChatCompletionRequest(settings: Settings, history: seq<Message>, send: Provider)
    returns (text: string)
    requires AnswersWithChoices(send)
    ensures text == CompletionText(settings, history, send)
  {
    var outcome := ChatCompletionRequest(settings, history, send);
    text := ErrorToString(outcome);
  }

  // ---------------------------------------------------------------------------
  // The scheduling step, as a function of one chat's state
  // ---------------------------------------------------------------------------

  /** The lenient role mapping of the scheduler: unknown tags become `User`, so it never fails. */
  function MapRole(tag: string): (r: Role)
    ensures ParseRole(tag).Some? ==> r == ParseRole(tag).value
    ensures ParseRole(tag).None? ==> r == User
    ensures r != Function
  {
    match tag
    case "User" => User
    case "System" => System
    case "Assistant" => Assistant
    case _ => User
  }

  /** The code reads `message[0]` and `message[1]` of every message. */
  predicate AllPairs(messages: seq<seq<string>>)
  {
    forall m :: m in messages ==> |m| >= 2
  }

  /** The history entries the messages become, position by position. */
  function HistoryEntries(messages: seq<seq<string>>): (r: seq<Message>)
    requires AllPairs(messages)
    ensures |r| == |messages|
  {
    seq(|messages|, i requires 0 <= i < |messages| => Message(MapRole(messages[i][0]), messages[i][1]))
  }

  /** The contents pushed to the request buffer, position by position. */
  function RequestContents(messages: seq<seq<string>>): (r: seq<string>)
    requires AllPairs(messages)
    ensures |r| == |messages|
  {
    seq(|messages|, i requires 0 <= i < |messages| => messages[i][1])
  }

  /** The chat after the append loop, one message per iteration. */
  function AppendMessages(s: ChatState, messages: seq<seq<string>>): ChatState
    requires AllPairs(messages)
  {
    if messages == [] then s
    else
      var m := messages[|messages| - 1];
      var t := AppendMessages(s, messages[..|messages| - 1]);
      t.(requests := t.requests + [m[1]], history := t.history + [Message(MapRole(m[0]), m[1])])
  }

  /** One more turn of the append loop appends the next message. */
  lemma AppendMessagesStep(s: ChatState, messages: seq<seq<string>>, i: nat)
    requires AllPairs(messages) && i < |messages|
    ensures var t := AppendMessages(s, messages[..i]);
            AppendMessages(s, messages[..i + 1])
              == t.(requests := t.requests + [messages[i][1]],
                    history := t.history + [Message(MapRole(messages[i][0]), messages[i][1])])
  {
    assert messages[..i + 1][..i] == messages[..i];
  }

  /**
   * The append loop adds exactly one history entry and one request per
   * message, in input order, and touches nothing else.
   */
  lemma {:induction false} AppendMessagesShape(s: ChatState, messages: seq<seq<string>>)
    requires AllPairs(messages)
    ensures AppendMessages(s, messages)
         == s.(requests := s.requests + RequestContents(messages),
               history := s.history + HistoryEntries(messages))
  {
    if messages != [] {
      var n := |messages| - 1;
      AppendMessagesShape(s, messages[..n]);
      EntriesSnoc(messages);
      var t := AppendMessages(s, messages[..n]);
      assert t.history + [Message(MapRole(messages[n][0]), messages[n][1])]
          == s.history + HistoryEntries(messages);
      assert t.requests + [messages[n][1]] == s.requests + RequestContents(messages);
    }
  }

  /** The entries and contents of a message list extend those of its prefix by the last message's. */
  lemma EntriesSnoc(messages: seq<seq<string>>)
    requires AllPairs(messages) && messages != []
    ensures var n := |messages| - 1;
            && HistoryEntries(messages) == HistoryEntries(messages[..n]) + [Message(MapRole(messages[n][0]), messages[n][1])]
            && RequestContents(messages) == RequestContents(messages[..n]) + [messages[n][1]]
  {
    var n := |messages| - 1;
    assert HistoryEntries(messages) == HistoryEntries(messages[..n]) + [HistoryEntries(messages)[n]];
    assert RequestContents(messages) == RequestContents(messages[..n]) + [RequestContents(messages)[n]];
  }

  /** The chat after a whole scheduling step. */
  function Scheduled(s: ChatState, messages: seq<seq<string>>, settings: Settings, send: Provider): ChatState
    requires AllPairs(messages) && AnswersWithChoices(send)
  {
    var appended := AppendMessages(s, messages);
    var result := CompletionText(settings, appended.history, send);
    appended.(answers := appended.answers + [result],
              history := appended.history + [Message(Assistant, result)])
  }

  /**
   * A scheduling step appends the messages in order, hands the provider the
   * full history after those appends, deposits exactly one answer and appends
   * exactly one `Assistant` entry, both equal to the result string.
   */
  lemma ScheduledShape(s: ChatState, messages: seq<seq<string>>, settings: Settings, send: Provider)
    requires AllPairs(messages) && AnswersWithChoices(send)
    ensures var snapshot := s.history + HistoryEntries(messages);
            var result := CompletionText(settings, snapshot, send);
            Scheduled(s, messages, settings, send)
              == ChatState(s.id, s.answers + [result], s.requests + RequestContents(messages),
                           snapshot + [Message(Assistant, result)])
  {
    AppendMessagesShape(s, messages);
  }

  /** A first exchange on a new chat: the history is the user's line followed by the answer. */
  lemma FirstExchange(content: string, settings: Settings, send: Provider)
    requires AnswersWithChoices(send)
    ensures var result := CompletionText(settings, [Message(User, content)], send);
            var r := Scheduled(NewChatState(), [["User", content]], settings, send);
            r.history == [Message(User, content), Message(Assistant, result)]
            && r.answers == [result] && r.requests == [content] && r.id == "default"
  {
    ScheduledShape(NewChatState(), [["User", content]], settings, send);
  }

  // ---------------------------------------------------------------------------
  // The scheduling step on the store
  // ---------------------------------------------------------------------------

  /** One turn of the append loop: the content is pushed as a request, then appended as an entry. */
  method AppendMessageToChat(store: ChatStorage, chatId: string, message: seq<string>)
    requires store.Valid() && |message| >= 2
    modifies store, store.Repr
    ensures store.Valid() && fresh(store.Repr - old(store.Repr))
    ensures chatId in store.chats && (chatId in old(store.chats) ==> store.Repr == old(store.Repr))
    ensures var s := StateOf(old(store.Contents), chatId);
            store.Contents == old(store.Contents)[chatId := s.(requests := s.requests + [message[1]],
                                                               history := s.history + [Message(MapRole(message[0]), message[1])])]
  {
    ghost var s := StateOf(store.Contents, chatId);
    store.AppendRequestToChat(chatId, message[1]);
    var role := MapRole(message[0]);
    store.AppendToChatHistory(chatId, role, message[1]);
    UpdateTwice(old(store.Contents), chatId, s.(requests := s.requests + [message[1]]), StateOf(store.Contents, chatId));
  }

  /** The append loop, over the messages in input order. */
  method AppendMessagesToChat(store: ChatStorage, chatId: string, messages: seq<seq<string>>)
    requires store.Valid() && AllPairs(messages)
    modifies store, store.Repr
    ensures store.Valid() && fresh(store.Repr - old(store.Repr))
    ensures messages == [] ==> store.Contents == old(store.Contents) && store.Repr == old(store.Repr)
    ensures messages != [] ==> chatId in store.chats
    ensures messages != [] ==>
              store.Contents == old(store.Contents)[chatId := AppendMessages(StateOf(old(store.Contents), chatId), messages)]
  {
    ghost var c0 := store.Contents;
    ghost var s0 := StateOf(c0, chatId);
    for i := 0 to |messages|
      invariant store.Valid() && fresh(store.Repr - old(store.Repr))
      invariant i == 0 ==> store.Contents == c0 && store.Repr == old(store.Repr)
      invariant i > 0 ==> chatId in store.chats
      invariant i > 0 ==> store.Contents == c0[chatId := AppendMessages(s0, messages[..i])]
    {
      ghost var ci := store.Contents;
      ghost var before := AppendMessages(s0, messages[..i]);
      assert StateOf(ci, chatId) == before;
      ghost var next := AppendMessages(s0, messages[..i + 1]);
      AppendMessagesStep(s0, messages, i);
      ghost var ri := store.Repr;
      AppendMessageToChat(store, chatId, messages[i]);
      if i > 0 {
        assert store.Repr == ri;
      }
      assert store.Contents == ci[chatId := next];
      if i > 0 {
        UpdateTwice(c0, chatId, AppendMessages(s0, messages[..i]), next);
      }
    }
    assert messages[..|messages|] == messages;
  }

  /** The append loop followed by the history snapshot that is handed to the provider. */
  method AppendAndSnapshot(store: ChatStorage, chatId: string, messages: seq<seq<string>>)
    returns (history: seq<Message>)
    requires store.Valid() && AllPairs(messages)
    modifies store, store.Repr
    ensures store.Valid() && fresh(store.Repr - old(store.Repr))
    ensures var appended := AppendMessages(StateOf(old(store.Contents), chatId), messages);
            && history == appended.history
            && store.Contents == old(store.Contents)[chatId := appended]
  {
    ghost var c0 := store.Contents;
    ghost var appended := AppendMessages(StateOf(c0, chatId), messages);
    AppendMessagesToChat(store, chatId, messages);
    ghost var c1 := store.Contents;
    ghost var r1 := store.Repr;
    assert StateOf(c1, chatId) == appended;
    history := store.GetFullChatHistory(chatId);
    assert store.Contents == c1[chatId := appended];
    if messages == [] {
      assert r1 == old(store.Repr);
    } else {
      assert store.Repr == r1;
    }
    if messages != [] {
      UpdateTwice(c0, chatId, appended, appended);
    }
  }

  /** The deposit after the provider call: one answer, then one `Assistant` entry, both `result`. */
  method DepositResult(store: ChatStorage, chatId: string, result: string)
    requires store.Valid()
    modifies store, store.Repr
    ensures store.Valid() && fresh(store.Repr - old(store.Repr))
    ensures var s := StateOf(old(store.Contents), chatId);
            store.Contents == old(store.Contents)[chatId := s.(answers := s.answers + [result],
                                                               history := s.history + [Message(Assistant, result)])]
  {
    ghost var s := StateOf(store.Contents, chatId);
    store.AppendAnswerToChat(chatId, result);
    store.AppendToChatHistory(chatId, Assistant, result);
    UpdateTwice(old(store.Contents), chatId, s.(answers := s.answers + [result]), StateOf(store.Contents, chatId));
  }

  /**
   * The body of the thread `schedule_chat_completion_request` spawns, run to
   * completion: the chat `chatId` ends in the state `Scheduled` describes and
   * every other chat is left as it was.
   */
  method ScheduleChatCompletionRequest(store: ChatStorage, chatId: string, messages: seq<seq<string>>,
                                       settings: Settings, send: Provider)
    requires store.Valid() && AllPairs(messages) && AnswersWithChoices(send)
    modifies store, store.Repr
    ensures store.Valid() && fresh(store.Repr - old(store.Repr))
    ensures store.Contents
         == old(store.Contents)[chatId := Scheduled(StateOf(old(store.Contents), chatId), messages, settings, send)]
  {
    ghost var appended := AppendMessages(StateOf(store.Contents, chatId), messages);
    var history := AppendAndSnapshot(store, chatId, messages);
    var result := WrappedChatCompletionRequest(settings, history, send);
    ghost var target := appended.(answers := appended.answers + [result],
                                  history := appended.history + [Message(Assistant, result)]);
    assert target == Scheduled(StateOf(old(store.Contents), chatId), messages, settings, send);
    DepositResult(store, chatId, result);
    UpdateTwice(old(store.Contents), chatId, appended, target);
  }
}
