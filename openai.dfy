/**
 * The reply generator and its rolling per-peer chat history
 * (src/lib/openai.ts): a bounded history store, the persona's system
 * instruction, the prompt sent to the completion service, the extraction of
 * the reply, and `generateAIReply`, which ties them together.
 */
module OpenAi {
  import opened Wrappers

  type PeerId = int

  datatype Role = User | Assistant | System

  /** One turn of a conversation; `timestamp` is the caller's clock reading. */
  datatype ChatMessage = ChatMessage(role: Role, content: string, timestamp: nat)

  /** At most this many turns are kept per peer. */
  const MaxHistory: nat := 10

  function Min(a: nat, b: nat): nat
  {
    if a <= b then a else b
  }

  // ---------------------------------------------------------------------
  // The trim-from-front law
  // ---------------------------------------------------------------------

  /** The newest `n` elements of `s` (all of `s` when it is shorter), in their original order. */
  function LastN<T>(s: seq<T>, n: nat): seq<T>
  {
    s[|s| - Min(|s|, n)..]
  }

  /** Trimming before appending more turns changes nothing: only the newest `n` survive either way. */
  lemma LastNOfConcat<T>(s: seq<T>, t: seq<T>, n: nat)
    ensures LastN(LastN(s, n) + t, n) == LastN(s + t, n)
  {
  }

  /** The history left after adding each of `ms`, in order, as AddMessageToHistory does. */
  function AppendAll(history: seq<ChatMessage>, ms: seq<ChatMessage>): seq<ChatMessage>
    decreases |ms|
  {
    if ms == [] then history else AppendAll(LastN(history + [ms[0]], MaxHistory), ms[1..])
  }

  /** After any run of appends the history is exactly the newest ten turns, in arrival order. */
  lemma {:induction false} AppendAllKeepsNewest(history: seq<ChatMessage>, ms: seq<ChatMessage>)
    requires |history| <= MaxHistory
    ensures AppendAll(history, ms) == LastN(history + ms, MaxHistory)
    decreases |ms|
  {
    if ms == [] {
      calc {
        LastN(history + ms, MaxHistory);
        { assert history + ms == history; }
        LastN(history, MaxHistory);
        { assert history[0..] == history; }
        history;
      }
    } else {
      var next := LastN(history + [ms[0]], MaxHistory);
      calc {
        AppendAll(history, ms);
        AppendAll(next, ms[1..]);
        { AppendAllKeepsNewest(next, ms[1..]); }
        LastN(next + ms[1..], MaxHistory);
        { LastNOfConcat(history + [ms[0]], ms[1..], MaxHistory); }
        LastN(history + [ms[0]] + ms[1..], MaxHistory);
        { assert history + [ms[0]] + ms[1..] == history + ms; }
        LastN(history + ms, MaxHistory);
      }
    }
  }

  /** Eleven appends to an empty history keep the second to the eleventh turn: the first is evicted. */
  lemma ElevenAppendsEvictTheFirst(ms: seq<ChatMessage>)
    requires |ms| == 11
    ensures AppendAll([], ms) == ms[1..]
  {
    AppendAllKeepsNewest([], ms);
    assert [] + ms == ms;
  }

  // ---------------------------------------------------------------------
  // The history store
  // ---------------------------------------------------------------------

  /** The history recorded for `peerId`, empty when none was created yet. */
  function HistoryIn(histories: map<PeerId, seq<ChatMessage>>, peerId: PeerId): seq<ChatMessage>
  {
    if peerId in histories then histories[peerId] else []
  }

  /** The process-wide `chatHistories` map, owned by one object. */
  class ChatHistories {
    var histories: map<PeerId, seq<ChatMessage>>

    /** Every peer's history holds at most MaxHistory turns. */
    ghost predicate Valid()
      reads this
    {
      forall p :: p in histories ==> |histories[p]| <= MaxHistory
    }

    constructor ()
      ensures Valid() && histories == map[]
    {
      histories := map[];
    }

    /** Returns the peer's history, installing an empty one on first access. */
    method GetChatHistory(peerId: PeerId) returns (history: seq<ChatMessage>)
      requires Valid()
      modifies this
      ensures Valid()
      ensures history == HistoryIn(old(histories), peerId)
      ensures peerId in old(histories) ==> histories == old(histories)
      ensures peerId !in old(histories) ==> histories == old(histories)[peerId := []]
    {
      if peerId !in histories {
        histories := histories[peerId := []];
      }
      history := histories[peerId];
    }

    /** Pushes `message` onto the peer's history, then drops the oldest turns beyond MaxHistory. */
    method AddMessageToHistory(peerId: PeerId, message: ChatMessage)
      requires Valid()
      modifies this
      ensures Valid()
      ensures histories == old(histories)[peerId := LastN(HistoryIn(old(histories), peerId) + [message], MaxHistory)]
    {
      var history := GetChatHistory(peerId);
      history := history + [message];
      if |history| > MaxHistory {
        history := history[|history| - MaxHistory..];
      }
      histories := histories[peerId := history];
    }
  }

  /** What one append does to a history: bounded length, the new turn last, the rest the newest old turns. */
  lemma AppendedHistory(history: seq<ChatMessage>, message: ChatMessage)
    ensures var h := LastN(history + [message], MaxHistory);
      && |h| == Min(|history| + 1, MaxHistory)
      && h[|h| - 1] == message
      && h[..|h| - 1] == history[|history| + 1 - |h|..]
  {
  }

  // ---------------------------------------------------------------------
  // Persona: the system instruction
  // ---------------------------------------------------------------------

  const ProfessionalInstruction := "You are a professional and formal assistant."
  const FriendlyInstruction := "You are a friendly and casual assistant."
  const ConciseInstruction := "You are a concise assistant that gives brief, direct answers."

  /** The three built-in personas and their fixed instructions. */
  const FixedInstructions: map<string, string> := map[
    "professional" := ProfessionalInstruction,
    "friendly" := FriendlyInstruction,
    "concise" := ConciseInstruction]

  const Opening := "You are a "
  const Closing := " assistant."
  const DefaultDescriptor := "professional and helpful"

  /** An instruction of the shape "You are a <descriptor> assistant." */
  predicate Framed(instruction: string)
  {
    && |instruction| >= |Opening| + |Closing|
    && instruction[..|Opening|] == Opening
    && instruction[|instruction| - |Closing|..] == Closing
  }

  /** The descriptor between the opening and the closing of a framed instruction. */
  function Descriptor(instruction: string): string
    requires Framed(instruction)
  {
    instruction[|Opening|..|instruction| - |Closing|]
  }

  /** The persona text for other agent types: `customType`, or the default when it is missing or empty. */
  function PersonaDescriptor(customType: Option<string>): (d: string)
    ensures d != ""
    ensures customType.Some? && customType.value != "" ==> d == customType.value
    ensures customType.None? || customType.value == "" ==> d == DefaultDescriptor
  {
    if customType.Some? && customType.value != "" then customType.value else DefaultDescriptor
  }

  /** The system instruction for a persona; total on every agent type string. */
  function SystemInstruction(agentType: string, customType: Option<string>): (r: string)
    ensures agentType in FixedInstructions ==> r == FixedInstructions[agentType]
    ensures agentType !in FixedInstructions ==> Framed(r) && Descriptor(r) == PersonaDescriptor(customType)
  {
    if agentType == "professional" then ProfessionalInstruction
    else if agentType == "friendly" then FriendlyInstruction
    else if agentType == "concise" then ConciseInstruction
    else
      var d := PersonaDescriptor(customType);
      var r := Opening + d + Closing;
      assert r[..|Opening|] == Opening;
      assert r[|r| - |Closing|..] == Closing;
      assert r[|Opening|..|r| - |Closing|] == d;
      r
  }

  /** The three built-in personas give three different instructions. */
  lemma FixedInstructionsDistinct()
    ensures ProfessionalInstruction != FriendlyInstruction
    ensures FriendlyInstruction != ConciseInstruction
    ensures ProfessionalInstruction != ConciseInstruction
  {
  }

  /** A custom persona's text is what the instruction names. */
  lemma CustomInstructionExample()
    ensures SystemInstruction("custom", Some("pirate")) == "You are a pirate assistant."
  {
  }

  /** A custom persona without text falls back to the default descriptor. */
  lemma CustomInstructionDefault()
    ensures SystemInstruction("custom", None) == Opening + DefaultDescriptor + Closing
  {
    assert "custom" !in FixedInstructions;
  }

  /** An empty custom text is falsy, so it is treated exactly like a missing one. */
  lemma EmptyCustomTypeIsMissing(agentType: string)
    ensures SystemInstruction(agentType, Some("")) == SystemInstruction(agentType, None)
  {
    assert PersonaDescriptor(Some("")) == PersonaDescriptor(None);
  }

  // ---------------------------------------------------------------------
  // Prompt assembly
  // ---------------------------------------------------------------------

  /** One `{role, content}` entry of the request sent to the completion service. */
  datatype PromptEntry = PromptEntry(role: Role, content: string)

  /** The model named in every request. */
  const CompletionModel := "gpt-3.5-turbo"

  /** Each stored turn as a request entry, dropping its timestamp. */
  function ToPromptEntries(history: seq<ChatMessage>): (r: seq<PromptEntry>)
    ensures |r| == |history|
    ensures forall i :: 0 <= i < |r| ==> r[i].role == history[i].role && r[i].content == history[i].content
  {
    if history == [] then []
    else [PromptEntry(history[0].role, history[0].content)] + ToPromptEntries(history[1..])
  }

  /** The request: the system instruction, then the stored turns in order, then the new user turn. */
  function BuildPrompt(instruction: string, history: seq<ChatMessage>, messageText: string): (r: seq<PromptEntry>)
    ensures |r| == |history| + 2
    ensures r[0] == PromptEntry(System, instruction)
    ensures forall i :: 0 <= i < |history| ==> r[i + 1].role == history[i].role && r[i + 1].content == history[i].content
    ensures r[|r| - 1] == PromptEntry(User, messageText)
  {
    [PromptEntry(System, instruction)] + ToPromptEntries(history) + [PromptEntry(User, messageText)]
  }

  // ---------------------------------------------------------------------
  // The completion service and the reply
  // ---------------------------------------------------------------------

  /** A candidate answer; `content` is missing when the choice carries no message text. */
  datatype Choice = Choice(content: Option<string>)

  /** What the completion call yields: any failure, or the list of candidates. */
  datatype Completion = Failed | Choices(choices: seq<Choice>)

  /** The first candidate's text, or "" when the call failed or gave nothing usable. */
  function ExtractReply(completion: Completion): (reply: string)
    ensures reply != "" <==>
      && completion.Choices?
      && |completion.choices| > 0
      && completion.choices[0].content.Some?
      && completion.choices[0].content.value != ""
    ensures reply != "" ==> reply == completion.choices[0].content.value
  {
    match completion
    case Failed => ""
    case Choices(choices) =>
      if |choices| > 0 && choices[0].content.Some? then choices[0].content.value else ""
  }

  /**
   * The reply generated for `messageText` given the peer's stored history: the
   * first choice's text in the service's answer to the request for this
   * persona, history and message, or "" when there is none.
   */
  function GeneratedReply(history: seq<ChatMessage>, messageText: string, agentType: string,
                          customType: Option<string>, complete: (string, seq<PromptEntry>) -> Completion): (reply: string)
    ensures var answer := complete(CompletionModel, BuildPrompt(SystemInstruction(agentType, customType), history, messageText));
      && (reply != "" <==> answer.Choices? && |answer.choices| > 0
                           && answer.choices[0].content.Some? && answer.choices[0].content.value != "")
      && (reply != "" ==> reply == answer.choices[0].content.value)
  {
    ExtractReply(complete(CompletionModel, BuildPrompt(SystemInstruction(agentType, customType), history, messageText)))
  }

  /** The peer's history after a reply: a non-empty reply is appended as an assistant turn. */
  function RecordReply(history: seq<ChatMessage>, reply: string, now: nat): (r: seq<ChatMessage>)
    ensures reply == "" ==> r == history
    ensures reply != "" ==> |r| == Min(|history| + 1, MaxHistory) && r[|r| - 1] == ChatMessage(Assistant, reply, now)
    ensures reply != "" ==> r[..|r| - 1] == history[|history| + 1 - |r|..]
  {
    if reply != "" then LastN(history + [ChatMessage(Assistant, reply, now)], MaxHistory) else history
  }

  /** The only turn RecordReply can add is the assistant's reply; never a user turn. */
  lemma RecordReplyAddsOnlyTheReply(history: seq<ChatMessage>, reply: string, now: nat, m: ChatMessage)
    requires m in RecordReply(history, reply, now)
    ensures m in history || (reply != "" && m == ChatMessage(Assistant, reply, now))
  {
  }

  /**
   * `generateAIReply`: reads (and lazily creates) the peer's history, asks the
   * completion service, and records a non-empty reply. A failed call yields "".
   * `now` stands for the clock reading; the user's own message is not recorded.
   */
  method GenerateAIReply(store: ChatHistories, messageText: string, peerId: PeerId, agentType: string,
                         customType: Option<string>, complete: (string, seq<PromptEntry>) -> Completion, now: nat)
    returns (reply: string)
    requires store.Valid()
    modifies store
    ensures store.Valid()
    ensures reply == GeneratedReply(HistoryIn(old(store.histories), peerId), messageText, agentType, customType, complete)
    ensures store.histories == old(store.histories)[peerId := RecordReply(HistoryIn(old(store.histories), peerId), reply, now)]
  {
    var history := store.GetChatHistory(peerId);
    var systemMessage := SystemInstruction(agentType, customType);
    var messages := BuildPrompt(systemMessage, history, messageText);
    var completion := complete(CompletionModel, messages);
    reply := ExtractReply(completion);
    assert reply == GeneratedReply(history, messageText, agentType, customType, complete);
    if reply != "" {
      store.AddMessageToHistory(peerId, ChatMessage(Assistant, reply, now));
    }
    assert store.histories == old(store.histories)[peerId := RecordReply(history, reply, now)];
  }

  /** `addUserMessage`: records the user's turn with the given clock reading. */
  method AddUserMessage(store: ChatHistories, peerId: PeerId, messageText: string, now: nat)
    requires store.Valid()
    modifies store
    ensures store.Valid()
    ensures store.histories == old(store.histories)[peerId := LastN(HistoryIn(old(store.histories), peerId) + [ChatMessage(User, messageText, now)], MaxHistory)]
  {
    store.AddMessageToHistory(peerId, ChatMessage(User, messageText, now));
  }
}
