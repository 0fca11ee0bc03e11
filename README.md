# Auto-reply for new messages: a Dafny model

This project models the automatic-reply feature of a chat client. When a new
message event arrives and the user has switched auto-reply on, the client
asks a language-completion service for a reply and sends it back to the peer.
The request is conditioned on a short rolling history kept for each peer. If
anything fails, the client sends a canned "away" text instead.

Two source files form the core:

- `src/lib/openai.ts` (module `OpenAi`, file `openai.dfy`) has the
  process-wide `chatHistories` map, modelled as the class `ChatHistories`
  with a `map<PeerId, seq<ChatMessage>>` field. Its methods `GetChatHistory`
  and `AddMessageToHistory` reassign that field. The rest of the file is
  modelled as pure functions: the persona's system instruction
  (`SystemInstruction`), the request (`BuildPrompt`) and the extraction of
  the reply (`ExtractReply`). `GenerateAIReply` and `AddUserMessage` are
  module-level methods that take the store as a parameter. The completion service is a function parameter that
  returns either `Failed` or a list of choices. Every failure becomes `Failed`,
  and so becomes the empty reply.
- `src/lib/appManagers/appAutoReplyManager.ts` (module `AutoReply`, file
  `auto_reply.dfy`) has `onUpdateNewMessage`. It is modelled as the class
  `AppAutoReplyManager`:
  - `TryHandle` is the `try` block, with its early returns.
  - `OnUpdateNewMessage` adds the `catch` block.
  - Every `sendText` attempt is appended to the field `sendLog`.
  - The host's collaborators form the datatype `Host`: the k-th `getState`
    read of the event, the channel classifier, and the success of the k-th
    send attempt. Each `getState` read and each `isChannel` call may throw.

  The pure function `Handle` says what one event does: the sends attempted
  and the histories afterwards. `Screen` is the guard chain on its own.
  `ResolvePersona` resolves the agent type and the custom text. The methods
  are proved equal to these functions, and the lemmas about them state the
  response protocol.

Module `Wrappers` (`wrappers.dfy`) holds `Option` and `Attempt` (returns or
throws).

JavaScript truthiness is modelled explicitly:

- A peer id is usable when it is present and not `0`.
- An agent type or custom text that is missing or `""` counts as absent.
- `autoAIReply` is read as a boolean, and missing settings disable the
  feature.

## Model

| member | source | states |
|---|---|---|
| `OpenAi.LastNOfConcat` | src/lib/openai.ts:29-37 | Trimming a history to its newest n turns and then appending more keeps the same turns as appending everything first and trimming once. |
| `OpenAi.AppendAllKeepsNewest` | src/lib/openai.ts:29-37 | After any run of appends to a history of at most 10 turns, the history is exactly the newest 10 of all turns (or all of them), in arrival order. |
| `OpenAi.ElevenAppendsEvictTheFirst` | src/lib/openai.ts:33-36 | Eleven appends to an empty history keep turns 2 to 11: the first is evicted. |
| `OpenAi.ChatHistories.constructor` | src/lib/openai.ts:18 | The store starts with no peer entries. |
| `OpenAi.ChatHistories.GetChatHistory` | src/lib/openai.ts:21-26 | Returns the peer's existing history unchanged and changes nothing. For a new peer, it installs an empty history and returns it. No other peer's entry changes. Every history stays at most 10 turns long. |
| `OpenAi.ChatHistories.AddMessageToHistory` | src/lib/openai.ts:29-37 | The peer's history becomes the newest 10 turns of the old history followed by the message. Every other peer's entry is unchanged, and the bound of 10 is preserved. |
| `OpenAi.AppendedHistory` | src/lib/openai.ts:31-36 | After one append the history has length min(old + 1, 10). The new message is last, and the rest are the newest old turns in their original order. |
| `OpenAi.PersonaDescriptor` | src/lib/openai.ts:53 | The persona text is the custom text when that is non-empty, and "professional and helpful" otherwise. It is never empty. |
| `OpenAi.SystemInstruction` | src/lib/openai.ts:45-54 | `professional`, `friendly` and `concise` map to their fixed instructions. Any other agent type, not only `custom`, gets "You are a X assistant.", and the descriptor X can be read back out of the instruction. |
| `OpenAi.FixedInstructionsDistinct` | src/lib/openai.ts:47-52 | The three built-in instructions are pairwise different. |
| `OpenAi.CustomInstructionExample` | src/lib/openai.ts:53 | A custom persona "pirate" yields "You are a pirate assistant.". |
| `OpenAi.CustomInstructionDefault` | src/lib/openai.ts:53 | A custom persona without text yields the "professional and helpful" instruction. |
| `OpenAi.EmptyCustomTypeIsMissing` | src/lib/openai.ts:53 | An empty custom text gives the same instruction as a missing one. |
| `OpenAi.ToPromptEntries` | src/lib/openai.ts:58-61 | Each stored turn becomes one request entry with the same role and content, in the same order. |
| `OpenAi.BuildPrompt` | src/lib/openai.ts:56-68 | The request has \|history\| + 2 entries: the system instruction first, the stored turns in order, and the new user message last. |
| `OpenAi.ExtractReply` | src/lib/openai.ts:70-75 | The reply is non-empty exactly when the call succeeded and the first choice has non-empty content, and it is then that content. A failed call, no choices, or missing or empty content all give "". |
| `OpenAi.GeneratedReply` | src/lib/openai.ts:41-75 | The reply is non-empty exactly when the service's answer has a first choice with non-empty content. It is then that content. The request is built from the persona's instruction, the peer's history and the message. |
| `OpenAi.RecordReply` | src/lib/openai.ts:77-84 | An empty reply leaves the history unchanged. A non-empty reply gives length min(old + 1, 10), with the assistant turn last and the newest old turns before it. |
| `OpenAi.RecordReplyAddsOnlyTheReply` | src/lib/openai.ts:77-84 | Recording a reply adds no turn except the assistant turn carrying that reply. The user's message is never recorded. |
| `OpenAi.GenerateAIReply` | src/lib/openai.ts:39-91 | The result is the reply extracted from the service's answer to the request built from the peer's history. The peer's entry is created if it was missing. A non-empty reply is appended as one assistant turn, and an empty reply leaves the history as it was. |
| `OpenAi.AddUserMessage` | src/lib/openai.ts:94-100 | Appends the user's message as a `user` turn under the same bound of 10. |
| `AutoReply.AgentType` | src/lib/appManagers/appAutoReplyManager.ts:46 | The agent type is the configured one when that is non-empty. It is "professional" when the settings are missing, when the agent setting is missing, or when it is empty. |
| `AutoReply.Screen` | src/lib/appManagers/appAutoReplyManager.ts:37-72 | The guards run in source order (message, enabled, outgoing, peer id, channel), and each early return happens exactly when every earlier guard passed and its own check failed. The handler proceeds exactly when all guards pass and the peer is classified as not a channel. A failed state read or channel check is a fault. |
| `AutoReply.ResolvePersona` | src/lib/appManagers/appAutoReplyManager.ts:76-81 | The custom text comes from a second state read, made only when the agent type is "custom". Otherwise the text is missing. The resolution throws exactly when that second read throws. |
| `AutoReply.TryBody` | src/lib/appManagers/appAutoReplyManager.ts:34-97 | The `try` block makes at most one send, and it makes one exactly when every guard passed and the persona resolved. That send goes to the screened peer, and the block throws exactly when the send fails. Without a send, the histories are unchanged, and the block threw exactly when the guard chain did not simply return. |
| `AutoReply.Handle` | src/lib/appManagers/appAutoReplyManager.ts:33-114 | Nothing is rethrown, and an event attempts at most two sends, all to the message's peer, and only when that peer id is present and non-zero. A filtered event sends nothing and leaves the histories unchanged. Histories change only for an eligible event. A second send is always the away text, and it happens only after the first send failed. |
| `AutoReply.GeneratedReplySentOnce` | src/lib/appManagers/appAutoReplyManager.ts:81-90 | When the event is eligible and the reply is non-empty, the first send is exactly that reply to the peer, whether or not the send succeeds. When it succeeds, that is the only send. The history gains the assistant turn. |
| `AutoReply.EmptyReplySendsFallback` | src/lib/appManagers/appAutoReplyManager.ts:91-96 | When the event is eligible and the reply is empty, the first send is the away text to the peer. The history only gains its (possibly empty) entry. |
| `AutoReply.FailedSendFallsBack` | src/lib/appManagers/appAutoReplyManager.ts:86-108 | When the first send fails, the catch block sends the away text to the same peer: exactly two attempts. |
| `AutoReply.FaultSendsFallbackOnly` | src/lib/appManagers/appAutoReplyManager.ts:98-113 | When the message carries a peer id that is present and non-zero, an exception from a state read or the channel check gives exactly one send: the away text to that peer. The history does not change. |
| `AutoReply.OutgoingMessageCanDrawFallback` | src/lib/appManagers/appAutoReplyManager.ts:98-113 | The `catch` block does not re-check the guards: any outgoing message with a present, non-zero peer id whose first state read throws draws exactly one send, the away text to that peer. |
| `AutoReply.GreetingScenario` | src/lib/appManagers/appAutoReplyManager.ts:81-90 | Start with an empty history and auto-reply on, receive "Hi", and have the service answer "Hello!". Then "Hello!" is sent once, and the history holds the assistant's turn only. |
| `AutoReply.AppAutoReplyManager.SendText` | src/lib/appManagers/appAutoReplyManager.ts:86-89 | Each `sendText` call appends one attempt (peer and text) to the log, and its success is the host's answer for that attempt. The calls at :93-96 and :105-108 are the same operation. |
| `AutoReply.AppAutoReplyManager.TryHandle` | src/lib/appManagers/appAutoReplyManager.ts:34-97 | The `try` block appends exactly the sends given by the model of the try block to the log, and reports whether it threw. It leaves the store as that model says. |
| `AutoReply.AppAutoReplyManager.OnUpdateNewMessage` | src/lib/appManagers/appAutoReplyManager.ts:33-114 | The handler appends exactly `Handle`'s sends to the log and leaves the store as `Handle` says, keeping every history at most 10 turns long. |

## Behaviour worth noting

- When the first send throws, the `catch` block sends the away text to the same peer, so the peer can get two send attempts (`FailedSendFallsBack`).
- Only the assistant's reply is recorded in the history. Nothing in the handler calls `addUserMessage`, so after one exchange the history holds a single turn (`GreetingScenario`).
- An exception from the first state read sends the away text even when the message is outgoing or the feature is off (`OutgoingMessageCanDrawFallback`). An exception from the channel check sends it even though the peer may be a channel (`FaultSendsFallbackOnly`). The `catch` block checks only the peer id.
- Any agent type other than the three built-in ones gets the templated instruction "You are a X assistant." The handler reads the custom text only for `custom`, so any other unknown type uses "professional and helpful" (`SystemInstruction`, `ResolvePersona`).

## Left out

- `server.js`, the static HTTPS server, is not part of this model. It is I/O plumbing.
- The OpenAI client construction and the network request are not modelled. The service is a function parameter from (model name, request) to `Failed` or a list of choices. Any thrown error or malformed answer is the `Failed` case.
- `Date.now()` is the `now` parameter of the generator and of `AddUserMessage`.
- Logging (`console.*`, the logger) and the `settings_updated` listener, which only logs, are left out. Neither affects any send or the history.
- Registration on the event bus, the `AppManager` base class and the singleton export are left out. They are host wiring. Both `updateNewMessage` and `updateNewChannelMessage` reach the same handler, which is modelled once.
- Asynchronous suspension is left out, and so is the interleaving of concurrent events for the same peer. One handler run is modelled as a sequential run.
- Aliasing is not modelled. The source's per-peer array is shared between the map and the `history` local; the model reassigns the map entry instead. The local is used only before the append, so no behaviour is lost.
- Dynamic typing is not modelled. A non-string setting or message text has no counterpart: texts are strings, and `autoAIReply` is a boolean.
- `isChannel`'s own logic belongs to the host and is not part of this model. It is a function of the peer id that returns a boolean or throws.
