# CyberAI chat store, modelled in Dafny

This project models the conversation core of the CyberAI plugin
(`src/open_ai/`): the per-conversation chat store, the sequential step that
schedules a chat completion, and the settings record that feeds the request.

- `core.dfy` (module `Core`, from `src/open_ai/core.rs`):
  - the history entry `Message` and its role;
  - the strict conversion of a `[role, content]` string pair into an entry, which returns an error value where the source panics;
  - the `Chat` class with its append-only `history` and its `answers` buffer;
  - the `ChatStorage` class, a map from chat id to `Chat` that creates chats lazily.

  The answer buffer is crossbeam's `SegQueue`. It is a FIFO queue, so a read pops the OLDEST answer, whatever its name says, and a read of an empty buffer returns `""`.
- `chat_completions.dfy` (module `ChatCompletions`, from `src/open_ai/chat_completions.rs`): the body of the thread that `schedule_chat_completion_request` spawns, run as one sequential step:
  - lenient role mapping, where unknown tags become `User`;
  - the append loop over the new messages;
  - the history snapshot;
  - request building from the history and the settings;
  - the provider call, with first-choice extraction and an error turned into its text;
  - the deposit of the result as an answer and as an `Assistant` entry.

  The HTTP provider is a function parameter, `Provider`.
- `settings.dfy` (module `OpenAiSettings`, from `src/open_ai/settings.rs`): the `Settings` record, its default and its getters.
- `wrappers.dfy` (module `Wrappers`): `Option` and `Result`.

A store's abstract state is its ghost field `ChatStorage.Contents`, a map from chat id to `ChatState`. Every store operation is specified as an update of that map at one key, so every other chat is left as it was. The whole scheduling step is specified by the function `ChatCompletions.Scheduled`. Its lemmas give the step's shape:
- the messages are appended in input order;
- the provider sees the full history after those appends;
- exactly one answer is deposited and exactly one `Assistant` entry is appended.

Behaviour of the code that the model keeps:
- The scheduler maps an unknown role tag to `User`. Only the `Vec<String>` conversion in `core.rs` rejects unknown tags.
- The answer buffer is FIFO, so a read returns the oldest answer.
- A provider error is deposited as an answer and appended as an `Assistant` entry, like any other answer.
- `Settings` has four fields: API key, organisation id, model and token budget.

## Model

| member | source | states |
|---|---|---|
| `OpenAiSettings.Default` | src/open_ai/settings.rs:23-32 | the default settings have empty `api_key` and `org_id`, model "gpt-3.5-turbo" and 512 max tokens |
| `OpenAiSettings.GetApiKey` | src/open_ai/settings.rs:35-37 | returns the stored API key; settings are values, so nothing changes |
| `OpenAiSettings.GetOrgId` | src/open_ai/settings.rs:39-41 | returns the stored organisation id |
| `OpenAiSettings.GetModel` | src/open_ai/settings.rs:43-45 | returns the stored model name |
| `OpenAiSettings.GetMaxTokens` | src/open_ai/settings.rs:47-49 | returns the stored token budget, a `u16`, so always within 0..65535 |
| `OpenAiSettings.DefaultGetters` | src/open_ai/settings.rs:23-49 | the getters of the default record report the documented defaults |
| `Core.ParseRole` | src/open_ai/core.rs:19-24 | a tag is accepted iff it is "System", "User" or "Assistant", and the accepted role is written as that very tag |
| `Core.ParseRoleTag` | src/open_ai/core.rs:19-24 | every role but `Function` parses back from its own tag |
| `Core.IntoParameters` | src/open_ai/core.rs:13-31 | the length error occurs iff the vector does not have exactly 2 elements; the role error occurs iff there are 2 elements and the tag is unknown; on success the vector is exactly [tag of the role, content] |
| `Core.IntoParametersRoundTrip` | src/open_ai/core.rs:13-31 | converting an entry written as `[role, content]` gives back the entry |
| `Core.Pop` | src/open_ai/core.rs:58-60 | reading an empty queue gives "" and leaves it empty; otherwise it gives the oldest element, and that element followed by the rest is the old queue |
| `Core.PopAfterPush` | src/open_ai/core.rs:58-64 | a pushed answer is read first only when the queue was empty; otherwise the oldest answer is read and the new one stays at the back |
| `Core.ReadsDrainInOrder` | src/open_ai/core.rs:58-64 | reading a queue \|q\| + k times returns its elements oldest first, then "" for each read of the empty queue |
| `Core.Chat.constructor` | src/open_ai/core.rs:50-56 | a new chat has id "default", no answers, no requests and an empty history |
| `Core.Chat.GetLastAnswerContent` | src/open_ai/core.rs:58-60 | pops the oldest answer, or returns "" on an empty buffer; history, requests and id are unchanged |
| `Core.Chat.AddAnswer` | src/open_ai/core.rs:62-64 | puts the answer at the back of the buffer; nothing else changes |
| `Core.Chat.AddRequest` | src/open_ai/chat_completions.rs:52 | puts the request at the back of the request buffer (assumed shape); nothing else changes |
| `Core.Chat.AddHistory` | src/open_ai/core.rs:66-72 | appends exactly one entry (role, message) at the end; earlier entries and both buffers are unchanged |
| `Core.Chat.GetHistory` | src/open_ai/core.rs:74-76 | returns a sequence equal to the history and changes nothing |
| `Core.DepositThenReadTwice` | src/open_ai/core.rs:58-64 | after one deposit into a new chat, two reads return the answer and then "" |
| `Core.ChatStorage.constructor` | src/open_ai/core.rs:85-89 | a new store holds no chats |
| `Core.ChatStorage.GetOrCreateChat` | src/open_ai/core.rs:91-93 | for a stored key, returns that chat and leaves the map unchanged; for a new key, inserts a fresh empty chat; the key set grows by at most that key, and no other entry changes |
| `Core.ChatStorage.InsertNewChat` | src/open_ai/core.rs:92 | a missing key receives a fresh chat in the state of `Chat::new` |
| `Core.ChatStorage.UpdateChat` | src/open_ai/core.rs:91-93 | get-or-create the chat under the id, then one `Chat` operation; the store's state changes at that id only, and only by that operation (`Applied`) |
| `Core.ChatStorage.AppendRequestToChat` | src/open_ai/chat_completions.rs:52 | get-or-create the chat, then push the request onto its request buffer; other chats are unchanged |
| `Core.ChatStorage.AppendToChatHistory` | src/open_ai/chat_completions.rs:60 | get-or-create the chat, then append one entry to its history; other chats are unchanged |
| `Core.ChatStorage.AppendAnswerToChat` | src/open_ai/chat_completions.rs:67 | get-or-create the chat, then deposit the answer; other chats are unchanged |
| `Core.ChatStorage.GetFullChatHistory` | src/open_ai/chat_completions.rs:63 | get-or-create the chat and return its whole history; no chat's state changes |
| `ChatCompletions.MapRole` | src/open_ai/chat_completions.rs:54-59 | agrees with the strict parser on the three known tags, sends every other tag to `User`, never fails and never yields `Function` |
| `ChatCompletions.RequestMessagesPreserve` | src/open_ai/chat_completions.rs:106-114 | the request messages have the history's count, order, roles and contents |
| `ChatCompletions.BuildChatCompletionRequest` | src/open_ai/chat_completions.rs:98-123 | the built request carries the settings' model and max tokens, and one message per history entry with the same role and content, in order; the loop is proved equal to the reference function `RequestFor` |
| `ChatCompletions.ConfigFor` | src/open_ai/chat_completions.rs:77-83 | the client is configured with the settings' API key and organisation id |
| `ChatCompletions.FirstChoiceContent` | src/open_ai/chat_completions.rs:89-93 | the response text is the first choice's content, or "" when that content is absent; at least one choice is required |
| `ChatCompletions.CompletionOutcome` | src/open_ai/chat_completions.rs:72-96 | the completion fails iff the provider call on the built request fails, with the provider's error; otherwise it is the first choice's text |
| `ChatCompletions.ChatCompletionRequest` | src/open_ai/chat_completions.rs:72-96 | the method builds the request, calls the provider and extracts the first choice, yielding exactly `CompletionOutcome` |
| `ChatCompletions.ErrorToString` | src/open_ai/chat_completions.rs:44 | an error becomes its text and a success its value, so a string always results |
| `ChatCompletions.CompletionTextCases` | src/open_ai/chat_completions.rs:40-47 | the completion string is the provider's error text on failure and the first choice's content on success; the error is never propagated; this characterises `CompletionText`, which models `wrapped_chat_completion_request` |
| `ChatCompletions.WrappedChatCompletionRequest` | src/open_ai/chat_completions.rs:40-47 | the method yields the completion string for the given history |
| `ChatCompletions.AppendMessagesStep` | src/open_ai/chat_completions.rs:51-61 | one more turn of the append loop pushes the next message's content and appends its entry |
| `ChatCompletions.AppendMessagesShape` | src/open_ai/chat_completions.rs:51-61 | the append loop grows the history by exactly \|messages\| entries (role mapped from element 0, content element 1) and the request buffer by the contents, in input order; id and answers are unchanged; `AppendMessages` is the loop as a recursive function |
| `ChatCompletions.ScheduledShape` | src/open_ai/chat_completions.rs:49-70 | after a scheduling step, the provider has seen the full history after the appends; exactly one answer is deposited and exactly one `Assistant` entry is appended, both equal to the result string; this gives the closed form of `Scheduled`, the function that specifies the whole step |
| `ChatCompletions.FirstExchange` | src/open_ai/chat_completions.rs:49-70 | scheduling `[["User", c]]` on a new chat leaves history [(User, c), (Assistant, result)], answers [result] and requests [c] |
| `ChatCompletions.AppendMessageToChat` | src/open_ai/chat_completions.rs:52-60 | one loop turn on the store: the content is pushed as a request, then appended with the mapped role; other chats are unchanged |
| `ChatCompletions.AppendMessagesToChat` | src/open_ai/chat_completions.rs:51-61 | the append loop on the store leaves the chat in the state `AppendMessages` gives, and other chats unchanged |
| `ChatCompletions.AppendAndSnapshot` | src/open_ai/chat_completions.rs:51-63 | the loop followed by the snapshot: the returned history is the chat's full history after all appends |
| `ChatCompletions.DepositResult` | src/open_ai/chat_completions.rs:67-68 | deposits the result as one answer and appends it as one `Assistant` entry; other chats are unchanged |
| `ChatCompletions.ScheduleChatCompletionRequest` | src/open_ai/chat_completions.rs:49-70 | the whole step leaves chat `chatId` in the state `Scheduled` gives and every other chat as it was; a chat that did not exist is created |

## Left out

- Plugin registration in `src/lib.rs` is host glue. The function it registers as `GetLastAnswerContent` is not defined in `chat_completions.rs`.
- Concurrency is not modelled: the thread of `schedule_chat_completion_request` (chat_completions.rs:50), the tokio runtime and `block_on` (chat_completions.rs:41-43), and the lock-free thread safety of `SegQueue`. The step runs sequentially to completion. Interleaving with other schedulers on the same chat is not represented.
- The `lazy_static` globals `CHAT_STORAGE` and `SETTINGS` are not modelled. The store and the settings are explicitly constructed values passed as parameters.
- Loading settings from a file and JSON (de)serialisation are I/O and foreign code: `get_settings` and `Into<String> for &Settings`. This includes the panics of the loader's `unwrap` calls (settings.rs:59, 62-63, 70).
- The HTTP client and `chat().create` (chat_completions.rs:80-87) are not modelled. The provider is the function parameter `Provider`, which returns a response or the error's text.
- `BuildChatCompletionRequest`: the builders' `build()?` (chat_completions.rs:112, 120) is modelled as never failing, because every field they need is set.
- `ChatCompletionRequest`: the panic on a response with no choices (chat_completions.rs:89) is excluded by a precondition on the provider (`AnswersWithChoices`); it is not modelled as an aborted thread.
- `ScheduleChatCompletionRequest`: every message must have at least two elements (`AllPairs`), because the code indexes `message[0]` and `message[1]`. The panic a shorter message would cause midway through the loop is not modelled, nor the appends already made before it.
- The wrappers `get_answer_content`, `get_request_content`, `get_history`, `get_history_as_string` and `flush` (chat_completions.rs:20-38) delegate to helpers that `core.rs` does not define. Their reading, formatting and flushing semantics are not modelled.
- The request buffer that `append_request_to_chat` fills has no field in `core.rs`. Its shape is an assumption: a FIFO of strings like `answers`, push only.
- `Clone for ChatCompletionParameters` (core.rs:33-40) needs no model, because entries are immutable datatype values.
- `Role::Function` exists only as a role value; no operation here produces it.
