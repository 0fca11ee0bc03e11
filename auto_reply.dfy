/**
 * The auto-reply handler (src/lib/appManagers/appAutoReplyManager.ts,
 * `onUpdateNewMessage`): an ordered chain of early-return guards, a reply
 * generated through OpenAi.GenerateAIReply or the fixed away text, and a
 * catch block that sends the away text once more when anything threw.
 *
 * The host's collaborators (the state accessor, the channel classifier and
 * `sendText`) are values of the datatype Host; the handler's observable
 * output is the log of `sendText` attempts.
 */
module AutoReply {
  import opened Wrappers
  import opened OpenAi

  /** The canned text sent when no reply was generated or something failed. */
  const FallbackText := "I'm currently away and will respond to your message later."

  /** The fields of an incoming message the handler reads: `message`, `pFlags.out`, `peerId`. */
  datatype Message = Message(text: string, out: bool, peerId: Option<PeerId>)

  /** A new-message event; `message` may be missing. */
  datatype Update = Update(message: Option<Message>)

  /** The auto-reply settings: `autoAIReply`, `autoAIReplyAgent`, `customAIReplyAgent`. */
  datatype Settings = Settings(autoAIReply: bool, autoAIReplyAgent: Option<string>, customAIReplyAgent: Option<string>)

  /** The application state as `getState` returns it; `settings` may be missing. */
  datatype AppState = AppState(settings: Option<Settings>)

  /** One `sendText` call: the peer and the text. */
  datatype Send = Send(peerId: PeerId, text: string)

  /**
   * The host's collaborators during one event: the k-th `getState` call of the
   * event (0 for the first read, 1 for the re-read of a custom persona), the
   * channel classifier, and whether the k-th `sendText` attempt succeeds.
   */
  datatype Host = Host(
    getState: nat -> Attempt<AppState>,
    isChannel: PeerId -> Attempt<bool>,
    sendSucceeds: nat -> bool)

  /** A peer id is usable when it is present and truthy (not 0). */
  predicate PeerPresent(peerId: Option<PeerId>)
  {
    peerId.Some? && peerId.value != 0
  }

  /** `state.settings?.autoAIReply` is truthy. */
  predicate ReplyEnabled(state: AppState)
  {
    state.settings.Some? && state.settings.value.autoAIReply
  }

  /** `state.settings?.autoAIReplyAgent || 'professional'`. */
  function AgentType(state: AppState): (agentType: string)
    ensures agentType != ""
    ensures (|| state.settings.None?
             || state.settings.value.autoAIReplyAgent.None?
             || state.settings.value.autoAIReplyAgent.value == "") ==> agentType == "professional"
    ensures state.settings.Some? && state.settings.value.autoAIReplyAgent.Some? && state.settings.value.autoAIReplyAgent.value != "" ==>
              agentType == state.settings.value.autoAIReplyAgent.value
  {
    if state.settings.Some? && state.settings.value.autoAIReplyAgent.Some? && state.settings.value.autoAIReplyAgent.value != ""
    then state.settings.value.autoAIReplyAgent.value
    else "professional"
  }

  /** `state.settings?.customAIReplyAgent`. */
  function CustomType(state: AppState): Option<string>
  {
    if state.settings.Some? then state.settings.value.customAIReplyAgent else None
  }

  // ---------------------------------------------------------------------
  // The guard chain
  // ---------------------------------------------------------------------

  datatype SkipReason = NoMessage | Disabled | Outgoing | NoPeer | ChannelPeer

  /** How the guard chain ends: an early return, an exception, or a peer to answer. */
  datatype Verdict = Skip(reason: SkipReason) | Fault | Proceed(peerId: PeerId)

  /**
   * The guards in source order: message present, auto-reply enabled, not
   * outgoing, peer id present, not a channel. The state read and the channel
   * classifier may throw on the way.
   */
  function Screen(update: Update, host: Host): (v: Verdict)
    ensures v == Skip(NoMessage) <==> update.message.None?
    ensures v.Fault? <==>
      && update.message.Some?
      && (|| host.getState(0).Throws?
          || (&& ReplyEnabled(host.getState(0).value)
              && !update.message.value.out
              && PeerPresent(update.message.value.peerId)
              && host.isChannel(update.message.value.peerId.value).Throws?))
    ensures v == Skip(Disabled) <==>
      update.message.Some? && host.getState(0).Returns? && !ReplyEnabled(host.getState(0).value)
    ensures v == Skip(Outgoing) <==>
      && update.message.Some? && host.getState(0).Returns? && ReplyEnabled(host.getState(0).value)
      && update.message.value.out
    ensures v == Skip(NoPeer) <==>
      && update.message.Some? && host.getState(0).Returns? && ReplyEnabled(host.getState(0).value)
      && !update.message.value.out && !PeerPresent(update.message.value.peerId)
    ensures v.Proceed? <==>
      && update.message.Some? && host.getState(0).Returns? && ReplyEnabled(host.getState(0).value)
      && !update.message.value.out && PeerPresent(update.message.value.peerId)
      && host.isChannel(update.message.value.peerId.value) == Returns(false)
    ensures v.Proceed? ==> update.message.value.peerId == Some(v.peerId)
  {
    if update.message.None? then Skip(NoMessage)
    else
      var message := update.message.value;
      match host.getState(0)
      case Throws => Fault
      case Returns(state) =>
        if !ReplyEnabled(state) then Skip(Disabled)
        else if message.out then Skip(Outgoing)
        else if !PeerPresent(message.peerId) then Skip(NoPeer)
        else
          match host.isChannel(message.peerId.value)
          case Throws => Fault
          case Returns(channel) =>
            if channel then Skip(ChannelPeer) else Proceed(message.peerId.value)
  }

  /** The persona handed to the generator. */
  datatype Persona = Persona(agentType: string, customType: Option<string>)

  /**
   * The persona for a state: the custom text is re-read from a second state
   * read only when the agent type is "custom", and is missing otherwise.
   */
  function ResolvePersona(host: Host, state: AppState): (r: Attempt<Persona>)
    ensures r.Throws? <==> AgentType(state) == "custom" && host.getState(1).Throws?
    ensures r.Returns? ==> r.value.agentType == AgentType(state)
    ensures AgentType(state) != "custom" ==> r == Returns(Persona(AgentType(state), None))
    ensures AgentType(state) == "custom" && host.getState(1).Returns? ==>
              r == Returns(Persona("custom", CustomType(host.getState(1).value)))
  {
    var agentType := AgentType(state);
    if agentType == "custom" then
      match host.getState(1)
      case Throws => Throws
      case Returns(again) => Returns(Persona(agentType, CustomType(again)))
    else Returns(Persona(agentType, None))
  }

  // ---------------------------------------------------------------------
  // What one event does
  // ---------------------------------------------------------------------

  /** The send attempts of an event, whether it ended by throwing, and the histories afterwards. */
  datatype Handled = Handled(sends: seq<Send>, threw: bool, histories: map<PeerId, seq<ChatMessage>>)

  /** The `try` block: guards, persona, generation, and one send of the reply or the away text. */
  function TryBody(update: Update, host: Host, histories: map<PeerId, seq<ChatMessage>>,
                   complete: (string, seq<PromptEntry>) -> Completion, now: nat): (b: Handled)
    ensures |b.sends| <= 1
    ensures b.sends != [] <==> Screen(update, host).Proceed? && ResolvePersona(host, host.getState(0).value).Returns?
    ensures b.sends != [] ==> b.sends[0].peerId == Screen(update, host).peerId && b.threw == !host.sendSucceeds(0)
    ensures b.sends == [] ==> b.histories == histories && (b.threw <==> !Screen(update, host).Skip?)
  {
    match Screen(update, host)
    case Skip(_) => Handled([], false, histories)
    case Fault => Handled([], true, histories)
    case Proceed(peerId) =>
      match ResolvePersona(host, host.getState(0).value)
      case Throws => Handled([], true, histories)
      case Returns(persona) =>
        var history := HistoryIn(histories, peerId);
        var reply := GeneratedReply(history, update.message.value.text, persona.agentType, persona.customType, complete);
        var text := if reply != "" then reply else FallbackText;
        Handled([Send(peerId, text)], !host.sendSucceeds(0), histories[peerId := RecordReply(history, reply, now)])
  }

  /**
   * The whole handler: the `try` block, then, if it threw, one more send of the
   * away text to the message's peer id when that is present. Nothing escapes.
   */
  function Handle(update: Update, host: Host, histories: map<PeerId, seq<ChatMessage>>,
                  complete: (string, seq<PromptEntry>) -> Completion, now: nat): (r: Handled)
    ensures !r.threw
    ensures |r.sends| <= 2
    ensures forall i :: 0 <= i < |r.sends| ==>
              update.message.Some? && update.message.value.peerId == Some(r.sends[i].peerId)
    ensures Screen(update, host).Skip? ==> r.sends == [] && r.histories == histories
    ensures r.histories != histories ==> Screen(update, host).Proceed?
    ensures |r.sends| == 2 ==> r.sends[1].text == FallbackText && !host.sendSucceeds(0)
    ensures r.sends != [] ==> update.message.Some? && PeerPresent(update.message.value.peerId)
  {
    var body := TryBody(update, host, histories, complete, now);
    if body.threw && update.message.Some? && PeerPresent(update.message.value.peerId) then
      Handled(body.sends + [Send(update.message.value.peerId.value, FallbackText)], false, body.histories)
    else
      Handled(body.sends, false, body.histories)
  }

  /**
   * An eligible event whose reply is non-empty sends that reply first, whether or
   * not the send succeeds; when it succeeds, that is the only send.
   */
  lemma GeneratedReplySentOnce(update: Update, host: Host, histories: map<PeerId, seq<ChatMessage>>,
                               complete: (string, seq<PromptEntry>) -> Completion, now: nat,
                               peerId: PeerId, persona: Persona, reply: string)
    requires Screen(update, host) == Proceed(peerId)
    requires ResolvePersona(host, host.getState(0).value) == Returns(persona)
    requires reply == GeneratedReply(HistoryIn(histories, peerId), update.message.value.text,
                                     persona.agentType, persona.customType, complete)
    requires reply != ""
    ensures |Handle(update, host, histories, complete, now).sends| >= 1
    ensures Handle(update, host, histories, complete, now).sends[0] == Send(peerId, reply)
    ensures host.sendSucceeds(0) ==> Handle(update, host, histories, complete, now).sends == [Send(peerId, reply)]
    ensures Handle(update, host, histories, complete, now).histories ==
              histories[peerId := LastN(HistoryIn(histories, peerId) + [ChatMessage(Assistant, reply, now)], MaxHistory)]
  {
    var body := TryBody(update, host, histories, complete, now);
    assert body == Handled([Send(peerId, reply)], !host.sendSucceeds(0),
                           histories[peerId := RecordReply(HistoryIn(histories, peerId), reply, now)]);
  }

  /** An eligible event whose reply is empty sends the away text first, and records nothing but the entry. */
  lemma EmptyReplySendsFallback(update: Update, host: Host, histories: map<PeerId, seq<ChatMessage>>,
                                complete: (string, seq<PromptEntry>) -> Completion, now: nat,
                                peerId: PeerId, persona: Persona)
    requires Screen(update, host) == Proceed(peerId)
    requires ResolvePersona(host, host.getState(0).value) == Returns(persona)
    requires GeneratedReply(HistoryIn(histories, peerId), update.message.value.text,
                            persona.agentType, persona.customType, complete) == ""
    ensures var r := Handle(update, host, histories, complete, now);
      && |r.sends| >= 1
      && r.sends[0] == Send(peerId, FallbackText)
      && r.histories == histories[peerId := HistoryIn(histories, peerId)]
  {
  }

  /** When the first send fails, the catch block sends the away text to the same peer; no third send. */
  lemma FailedSendFallsBack(update: Update, host: Host, histories: map<PeerId, seq<ChatMessage>>,
                            complete: (string, seq<PromptEntry>) -> Completion, now: nat,
                            peerId: PeerId, persona: Persona)
    requires Screen(update, host) == Proceed(peerId)
    requires ResolvePersona(host, host.getState(0).value) == Returns(persona)
    requires !host.sendSucceeds(0)
    ensures var r := Handle(update, host, histories, complete, now);
      |r.sends| == 2 && r.sends[0].peerId == peerId && r.sends[1] == Send(peerId, FallbackText)
  {
  }

  /**
   * An exception in the guard chain or the persona re-read leads to exactly one
   * send, the away text, whenever the message names a peer; the enabled,
   * outgoing and channel guards are not consulted again.
   */
  lemma FaultSendsFallbackOnly(update: Update, host: Host, histories: map<PeerId, seq<ChatMessage>>,
                               complete: (string, seq<PromptEntry>) -> Completion, now: nat)
    requires update.message.Some? && PeerPresent(update.message.value.peerId)
    requires || Screen(update, host).Fault?
             || (Screen(update, host).Proceed? && ResolvePersona(host, host.getState(0).value).Throws?)
    ensures Handle(update, host, histories, complete, now) ==
              Handled([Send(update.message.value.peerId.value, FallbackText)], false, histories)
  {
  }

  /** An outgoing message still draws the away text when the first state read throws. */
  lemma OutgoingMessageCanDrawFallback(update: Update, host: Host, histories: map<PeerId, seq<ChatMessage>>,
                                       complete: (string, seq<PromptEntry>) -> Completion, now: nat)
    requires update.message.Some? && update.message.value.out && PeerPresent(update.message.value.peerId)
    requires host.getState(0).Throws?
    ensures Handle(update, host, histories, complete, now).sends == [Send(update.message.value.peerId.value, FallbackText)]
  {
    FaultSendsFallbackOnly(update, host, histories, complete, now);
  }

  /**
   * An empty history, the message "Hi", auto-reply on and a service answering
   * "Hello!": one send of "Hello!", and the history holds only the assistant's
   * turn, because the handler never records the user's message.
   */
  lemma GreetingScenario(now: nat)
    ensures var update := Update(Some(Message("Hi", false, Some(7))));
            var host := Host(k => Returns(AppState(Some(Settings(true, None, None)))), p => Returns(false), k => true);
            var complete := (model: string, prompt: seq<PromptEntry>) => Choices([Choice(Some("Hello!"))]);
            var r := Handle(update, host, map[], complete, now);
            r.sends == [Send(7, "Hello!")] && r.histories == map[7 := [ChatMessage(Assistant, "Hello!", now)]]
  {
    var h: seq<ChatMessage> := [ChatMessage(Assistant, "Hello!", now)];
    assert LastN([] + h, MaxHistory) == h;
  }

  // ---------------------------------------------------------------------
  // The handler object
  // ---------------------------------------------------------------------

  /** The auto-reply manager: the history store it shares with the generator and the log of sends. */
  class AppAutoReplyManager {
    const store: ChatHistories
    /** Every `sendText` attempt so far, successful or not, in order. */
    var sendLog: seq<Send>

    constructor (store: ChatHistories)
      ensures this.store == store && sendLog == []
    {
      this.store := store;
      sendLog := [];
    }

    /** The host's `sendText`, as the `attempt`-th send of the current event. */
    method SendText(host: Host, attempt: nat, peerId: PeerId, text: string) returns (ok: bool)
      modifies this`sendLog
      ensures sendLog == old(sendLog) + [Send(peerId, text)]
      ensures ok == host.sendSucceeds(attempt)
    {
      sendLog := sendLog + [Send(peerId, text)];
      ok := host.sendSucceeds(attempt);
    }

    /** The `try` block of `onUpdateNewMessage`; `threw` says whether it ended in an exception. */
    method TryHandle(update: Update, host: Host, complete: (string, seq<PromptEntry>) -> Completion, now: nat)
      returns (threw: bool)
      requires store.Valid()
      modifies this`sendLog, store
      ensures store.Valid()
      ensures var body := TryBody(update, host, old(store.histories), complete, now);
        sendLog == old(sendLog) + body.sends && threw == body.threw && store.histories == body.histories
    {
      threw := false;
      if update.message.None? {
        return;
      }
      var message := update.message.value;
      var state := host.getState(0);
      if state.Throws? {
        threw := true;
        return;
      }
      var agentType := AgentType(state.value);
      if !ReplyEnabled(state.value) {
        return;
      }
      if message.out {
        return;
      }
      if !PeerPresent(message.peerId) {
        return;
      }
      var peerId := message.peerId.value;
      var channel := host.isChannel(peerId);
      if channel.Throws? {
        threw := true;
        return;
      }
      if channel.value {
        return;
      }
      var customType: Option<string> := None;
      if agentType == "custom" {
        var again := host.getState(1);
        if again.Throws? {
          threw := true;
          return;
        }
        customType := CustomType(again.value);
      }
      var aiReply := GenerateAIReply(store, message.text, peerId, agentType, customType, complete, now);
      var ok;
      if aiReply != "" {
        ok := SendText(host, 0, peerId, aiReply);
      } else {
        ok := SendText(host, 0, peerId, FallbackText);
      }
      threw := !ok;
    }

    /** `onUpdateNewMessage`: the `try` block, then the catch block's single fallback send. */
    method OnUpdateNewMessage(update: Update, host: Host, complete: (string, seq<PromptEntry>) -> Completion, now: nat)
      requires store.Valid()
      modifies this`sendLog, store
      ensures store.Valid()
      ensures var r := Handle(update, host, old(store.histories), complete, now);
        sendLog == old(sendLog) + r.sends && store.histories == r.histories
    {
      var before := |sendLog|;
      var threw := TryHandle(update, host, complete, now);
      if threw {
        if update.message.Some? && PeerPresent(update.message.value.peerId) {
          var _ := SendText(host, |sendLog| - before, update.message.value.peerId.value, FallbackText);
        }
      }
    }
  }
}
