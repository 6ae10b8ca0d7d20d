/**
 * The chat widget's state hook: the message list, the loading and typing flags, the
 * session id, the error banner and the lead-capture flag, and the three actions that
 * change them (start a session, send a message, clear the chat). Each action of the
 * `ChatHook` class is specified by a transition on `HookState` values, and the
 * properties of the hook are proved about those transitions.
 */
module UseChat {
  import opened Wrappers
  import opened Text

  const WelcomeText: string := ("Hello! I'm the Metalogics AI Assistant. " +
    "I'm here to help you learn about our " +
    "services and answer any questions you " +
    "might have. How can I assist you today?")
  const InitErrorText: string := "Failed to initialize chat. Please refresh and try again."
  const SendErrorText: string := "Failed to send message. Please try again."
  const TroubleText: string := ("I apologize, but I'm experiencing " +
    "technical difficulties. Please try again " +
    "or contact our support team directly.")

  /** How many of the earlier messages go with a new one as context. */
  const ContextSize: nat := 10

  datatype Role = UserRole | AssistantRole

  function RoleName(role: Role): string {
    match role
    case UserRole => "user"
    case AssistantRole => "assistant"
  }

  /** A link to a knowledge-base page, as the server sends it with an answer. */
  datatype Link = Link(title: string, url: string)

  /** A message on screen (its id and timestamp are not modelled). */
  datatype ChatMessage = ChatMessage(role: Role, content: string, confidence: Option<string>,
                                     relevantContent: seq<Link>, isError: bool)

  /** What goes to the server about an earlier message. */
  datatype ContextItem = ContextItem(role: string, content: string)

  /** The server's answer to a message. */
  datatype ApiReply = ApiReply(response: string, sessionId: string, confidence: string,
                               shouldCaptureLeads: bool, relevantContent: seq<Link>)

  /** Every piece of state the hook exposes. */
  datatype HookState = HookState(messages: seq<ChatMessage>, isLoading: bool, isTyping: bool,
                                 sessionId: Option<string>, error: Option<string>, shouldCaptureLeads: bool)

  /** The state on first render. */
  const Fresh: HookState := HookState([], false, false, None, None, false)

  const Welcome: ChatMessage := ChatMessage(AssistantRole, WelcomeText, None, [], false)

  // ---------------------------------------------------------------------------
  // Starting a session
  // ---------------------------------------------------------------------------

  /**
   * `initializeChat`. `session` is the id the server hands out, `None` when the call
   * throws. Success replaces the messages with the welcome message; failure only raises
   * the error banner. Neither touches the other fields, so an earlier error stays up.
   */
  function Initialize(s: HookState, session: Option<string>): (r: HookState)
    ensures session.Some? ==> r.messages == [Welcome] && r.sessionId == session && r.error == s.error
    ensures session.None? ==> r.messages == s.messages && r.sessionId == s.sessionId && r.error == Some(InitErrorText)
    ensures r.isLoading == s.isLoading && r.isTyping == s.isTyping && r.shouldCaptureLeads == s.shouldCaptureLeads
  {
    match session
    case Some(id) => s.(sessionId := Some(id), messages := [Welcome])
    case None => s.(error := Some(InitErrorText))
  }

  // ---------------------------------------------------------------------------
  // Sending a message
  // ---------------------------------------------------------------------------

  /** The context sent with a message: the last ten earlier messages, role and content only, in order. */
  function ContextWindow(history: seq<ChatMessage>): (r: seq<ContextItem>)
    ensures |r| == if |history| < ContextSize then |history| else ContextSize
    ensures forall k :: 0 <= k < |r| ==>
      r[k] == ContextItem(RoleName(history[|history| - |r| + k].role), history[|history| - |r| + k].content)
  {
    var start := if |history| < ContextSize then 0 else |history| - ContextSize;
    seq(|history| - start, k requires 0 <= k < |history| - start =>
      ContextItem(RoleName(history[start + k].role), history[start + k].content))
  }

  /** `sendMessage` does something only for a message with a non-space character while no other is loading. */
  predicate Accepted(s: HookState, text: string) {
    Trim(text) != [] && !s.isLoading
  }

  /** The message shown for the user's text: the text trimmed. */
  function UserMessage(text: string): ChatMessage {
    ChatMessage(UserRole, Trim(text), None, [], false)
  }

  /** The message shown for the server's answer, or the apology when the call failed. */
  function ReplyMessage(reply: Result<ApiReply>): ChatMessage {
    match reply
    case Success(a) => ChatMessage(AssistantRole, a.response, Some(a.confidence), a.relevantContent, false)
    case Failure(_) => ChatMessage(AssistantRole, TroubleText, None, [], true)
  }

  /** The session id after an answer: the answer's id when it is non-empty and new. */
  function AdoptedSession(current: Option<string>, reply: Result<ApiReply>): Option<string> {
    if reply.Success? && reply.value.sessionId != [] && Some(reply.value.sessionId) != current
    then Some(reply.value.sessionId)
    else current
  }

  /**
   * `sendMessage`. `reply` is what the server call returns for the untrimmed text, the
   * session id and the context window, or the thrown error's message.
   */
  function Send(s: HookState, text: string, reply: Result<ApiReply>): (r: HookState)
    ensures !Accepted(s, text) ==> r == s
    ensures Accepted(s, text) ==> r.messages == s.messages + [UserMessage(text), ReplyMessage(reply)]
    ensures Accepted(s, text) ==> !r.isLoading && !r.isTyping
  {
    if !Accepted(s, text) then s
    else
      var error := match reply
        case Success(_) => None
        case Failure(message) => Some(if message == [] then SendErrorText else message);
      HookState(s.messages + [UserMessage(text), ReplyMessage(reply)], false, false,
                AdoptedSession(s.sessionId, reply), error,
                if reply.Success? then reply.value.shouldCaptureLeads else s.shouldCaptureLeads)
  }

  /**
   * An accepted message puts exactly two messages after the earlier ones: the user's text
   * trimmed, then the answer (an error-free assistant message with the server's text,
   * confidence and links) or the apology marked as an error.
   */
  lemma SendAppendsExchange(s: HookState, text: string, reply: Result<ApiReply>)
    requires Accepted(s, text)
    ensures var r := Send(s, text, reply);
      && |r.messages| == |s.messages| + 2
      && r.messages[..|s.messages|] == s.messages
      && r.messages[|s.messages|] == ChatMessage(UserRole, Trim(text), None, [], false)
      && r.messages[|s.messages| + 1].role == AssistantRole
      && (r.messages[|s.messages| + 1].isError <==> reply.Failure?)
      && (reply.Success? ==>
            r.messages[|s.messages| + 1].content == reply.value.response
            && r.messages[|s.messages| + 1].relevantContent == reply.value.relevantContent)
  {
    var r := Send(s, text, reply);
    assert r.messages[..|s.messages|] == s.messages;
  }

  /** A blank message, or one sent while another is loading, changes nothing at all. */
  lemma SendIgnoresBlankOrBusy(s: HookState, text: string, reply: Result<ApiReply>)
    requires s.isLoading || forall k :: 0 <= k < |text| ==> IsSpace(text[k])
    ensures Send(s, text, reply) == s
  {
    TrimEmptyIffAllSpace(text);
  }

  /**
   * The error banner after an accepted message: cleared on an answer, otherwise the
   * error's own message, or the stock text when that message is empty.
   */
  lemma SendSetsError(s: HookState, text: string, reply: Result<ApiReply>)
    requires Accepted(s, text)
    ensures reply.Success? ==> Send(s, text, reply).error == None
    ensures reply.Failure? && reply.error != [] ==> Send(s, text, reply).error == Some(reply.error)
    ensures reply.Failure? && reply.error == [] ==> Send(s, text, reply).error == Some(SendErrorText)
  {
  }

  /**
   * The lead-capture flag follows the latest answer and is left alone by a failure; the
   * session id becomes the answer's when that is non-empty and is otherwise kept. The
   * hook's "differs from the current id" test therefore never changes the outcome.
   */
  lemma SendFollowsAnswer(s: HookState, text: string, reply: Result<ApiReply>)
    requires Accepted(s, text)
    ensures reply.Success? ==> Send(s, text, reply).shouldCaptureLeads == reply.value.shouldCaptureLeads
    ensures reply.Failure? ==> Send(s, text, reply).shouldCaptureLeads == s.shouldCaptureLeads
    ensures Send(s, text, reply).sessionId
         == if reply.Success? && reply.value.sessionId != [] then Some(reply.value.sessionId) else s.sessionId
  {
  }

  /** Sending never removes or rewrites a message already on screen. */
  lemma {:induction false} SendKeepsHistory(s: HookState, texts: seq<string>, replies: seq<Result<ApiReply>>)
    requires |texts| == |replies|
    ensures |s.messages| <= |SendAll(s, texts, replies).messages|
    ensures SendAll(s, texts, replies).messages[..|s.messages|] == s.messages
    decreases |texts|
  {
    if texts != [] {
      var n := |texts| - 1;
      var before := SendAll(s, texts[..n], replies[..n]);
      SendKeepsHistory(s, texts[..n], replies[..n]);
      var after := Send(before, texts[n], replies[n]);
      assert after.messages[..|before.messages|] == before.messages;
      assert after.messages[..|s.messages|] == before.messages[..|before.messages|][..|s.messages|];
    }
  }

  /** Several messages sent one after the other. */
  function SendAll(s: HookState, texts: seq<string>, replies: seq<Result<ApiReply>>): HookState
    requires |texts| == |replies|
    decreases |texts|
  {
    if texts == [] then s
    else
      var n := |texts| - 1;
      Send(SendAll(s, texts[..n], replies[..n]), texts[n], replies[n])
  }

  /**
   * Since each action ends with both flags down, a hook that starts idle stays idle
   * between messages, so the "already loading" guard only matters while a call is
   * outstanding.
   */
  lemma {:induction false} SendAllStaysIdle(s: HookState, texts: seq<string>, replies: seq<Result<ApiReply>>)
    requires |texts| == |replies| && !s.isLoading && !s.isTyping
    ensures !SendAll(s, texts, replies).isLoading && !SendAll(s, texts, replies).isTyping
    decreases |texts|
  {
    if texts != [] {
      var n := |texts| - 1;
      SendAllStaysIdle(s, texts[..n], replies[..n]);
    }
  }

  // ---------------------------------------------------------------------------
  // Clearing the chat
  // ---------------------------------------------------------------------------

  /** `clearChat`: empty the messages, forget the session, the error and the lead flag, then start again. */
  function Clear(s: HookState, session: Option<string>): (r: HookState)
    ensures session.Some? ==> r.messages == [Welcome] && r.sessionId == session && r.error == None
    ensures session.None? ==> r.messages == [] && r.sessionId == None && r.error == Some(InitErrorText)
    ensures !r.shouldCaptureLeads && r.isLoading == s.isLoading && r.isTyping == s.isTyping
  {
    Initialize(s.(messages := [], sessionId := None, error := None, shouldCaptureLeads := false), session)
  }

  /** Clearing an idle hook leaves it exactly as a freshly mounted hook is after starting. */
  lemma ClearIsRestart(s: HookState, session: Option<string>)
    requires !s.isLoading && !s.isTyping
    ensures Clear(s, session) == Initialize(Fresh, session)
  {
  }

  // ---------------------------------------------------------------------------
  // The hook
  // ---------------------------------------------------------------------------

  class ChatHook {
    var messages: seq<ChatMessage>
    var isLoading: bool
    var isTyping: bool
    var sessionId: Option<string>
    var error: Option<string>
    var shouldCaptureLeads: bool

    function State(): HookState
      reads this
    {
      HookState(messages, isLoading, isTyping, sessionId, error, shouldCaptureLeads)
    }

    constructor ()
      ensures State() == Fresh
    {
      messages := [];
      isLoading := false;
      isTyping := false;
      sessionId := None;
      error := None;
      shouldCaptureLeads := false;
    }

    /** `initializeChat`; `session` is what the server call returns, `None` when it throws. */
    method InitializeChat(session: Option<string>)
      modifies this
      ensures State() == Initialize(old(State()), session)
    {
      if session.Some? {
        sessionId := session;
        messages := [Welcome];
      } else {
        error := Some(InitErrorText);
      }
    }

    /**
     * `sendMessage`. `api` stands for the server call: it receives the untrimmed text, the
     * session id and the context built from the messages before this one.
     */
    method SendMessage(text: string, api: (string, Option<string>, seq<ContextItem>) -> Result<ApiReply>)
      modifies this
      ensures State() == Send(old(State()), text, api(text, old(sessionId), ContextWindow(old(messages))))
    {
      if Trim(text) == [] || isLoading {
        return;
      }
      var earlier := messages;
      messages := messages + [UserMessage(text)];
      isLoading := true;
      isTyping := true;
      error := None;
      var reply := api(text, sessionId, ContextWindow(earlier));
      Receive(reply);
      isLoading := false;
      isTyping := false;
    }

    /** What `sendMessage` does with the server call's outcome: show it and take over its flag and session id. */
    method Receive(reply: Result<ApiReply>)
      modifies this
      ensures messages == old(messages) + [ReplyMessage(reply)]
      ensures sessionId == AdoptedSession(old(sessionId), reply)
      ensures error == (match reply
                        case Success(_) => old(error)
                        case Failure(message) => Some(if message == [] then SendErrorText else message))
      ensures shouldCaptureLeads == if reply.Success? then reply.value.shouldCaptureLeads else old(shouldCaptureLeads)
      ensures isLoading == old(isLoading) && isTyping == old(isTyping)
    {
      match reply {
        case Success(answer) =>
          messages := messages + [ReplyMessage(reply)];
          shouldCaptureLeads := answer.shouldCaptureLeads;
          if answer.sessionId != [] && Some(answer.sessionId) != sessionId {
            sessionId := Some(answer.sessionId);
          }
        case Failure(message) =>
          error := Some(if message == [] then SendErrorText else message);
          messages := messages + [ReplyMessage(reply)];
      }
    }

    /** `clearChat`; `session` is what the restarted session call returns. */
    method ClearChat(session: Option<string>)
      modifies this
      ensures State() == Clear(old(State()), session)
    {
      messages := [];
      sessionId := None;
      error := None;
      shouldCaptureLeads := false;
      InitializeChat(session);
    }
  }
}
