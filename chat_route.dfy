/**
 * The chat endpoints: opening a session, sending a message (validate, find or create the
 * conversation, ask the retrieval service, append the exchange, flag lead intent), reading
 * a session's history and ending a session.
 */
module ChatRoute {
  import opened Wrappers
  import opened Text
  import opened Store
  import opened Schema
  import Rag

  // ---------------------------------------------------------------------------
  // Request validation
  // ---------------------------------------------------------------------------

  /** One prior turn as the client sends it; either key may be missing. */
  datatype ContextItem = ContextItem(role: Option<string>, content: Option<string>)

  /** The JSON body of a message request; a missing key is `None`. */
  datatype ChatRequest = ChatRequest(message: Option<string>, sessionId: Option<string>, context: Option<seq<ContextItem>>)

  datatype Field = MessageField | SessionIdField | ContextRole(index: nat) | ContextContent(index: nat)

  /** The first schema rule a request breaks (the text of the 400 reply is derived from it). */
  type Violation = Schema.Violation<Field>

  const MaxMessageLength: nat := 1000

  predicate MessageOk(m: Option<string>) {
    m.Some? && m.value != [] && |m.value| <= MaxMessageLength
  }

  predicate SessionIdOk(s: Option<string>) {
    s.None? || s.value != []
  }

  predicate IsContextRole(r: string) {
    r == "user" || r == "assistant"
  }

  predicate ItemOk(item: ContextItem) {
    item.role.Some? && IsContextRole(item.role.value) && item.content.Some? && item.content.value != []
  }

  /** Every rule of the message schema holds. */
  predicate WellFormed(req: ChatRequest) {
    && MessageOk(req.message)
    && SessionIdOk(req.sessionId)
    && (req.context.Some? ==> forall k :: 0 <= k < |req.context.value| ==> ItemOk(req.context.value[k]))
  }

  /** The first rule item `index` breaks: role (required, one of two values), then content. */
  function ItemViolation(item: ContextItem, index: nat): (r: Option<Violation>)
    ensures r.None? <==> ItemOk(item)
    ensures r.Some? ==> r.value.field in {ContextRole(index), ContextContent(index)}
  {
    if item.role.None? then Some(Required(ContextRole(index)))
    else if !IsContextRole(item.role.value) then Some(NotAllowed(ContextRole(index)))
    else CheckString(ContextContent(index), item.content, true, 0, None)
  }

  /** The first violation among `items[from..]`, checking items in array order. */
  function FirstItemViolation(items: seq<ContextItem>, from: nat): (r: Option<Violation>)
    requires from <= |items|
    ensures r.None? <==> forall k :: from <= k < |items| ==> ItemOk(items[k])
    ensures r.Some? ==> exists k :: (from <= k < |items| && !ItemOk(items[k])
                                    && (forall j :: from <= j < k ==> ItemOk(items[j])) && r == ItemViolation(items[k], k))
    decreases |items| - from
  {
    if from == |items| then None
    else if !ItemOk(items[from]) then ItemViolation(items[from], from)
    else FirstItemViolation(items, from + 1)
  }

  /**
   * The schema check with validation stopping at the first error: `message`, then
   * `sessionId`, then each context item in order.
   */
  function ValidateChat(req: ChatRequest): (r: Option<Violation>)
    ensures r.None? <==> WellFormed(req)
    ensures !MessageOk(req.message) ==> r.Some? && r.value.field == MessageField
    ensures MessageOk(req.message) && !SessionIdOk(req.sessionId) ==> r == Some(Empty(SessionIdField))
  {
    var message := CheckString(MessageField, req.message, true, 0, Some(MaxMessageLength));
    var sessionId := CheckString(SessionIdField, req.sessionId, false, 0, None);
    if message.Some? then message
    else if sessionId.Some? then sessionId
    else if req.context.Some? then FirstItemViolation(req.context.value, 0)
    else None
  }

  /** The validated prior turns as the retrieval service receives them (`context = []` when absent). */
  function RagContext(context: Option<seq<ContextItem>>): (r: seq<Rag.Message>)
    ensures context.None? ==> r == []
    ensures context.Some? ==> |r| == |context.value|
    ensures context.Some? ==> forall k :: 0 <= k < |r| ==>
      r[k].content == context.value[k].content.GetOr("")
      && (r[k].role == Rag.UserRole <==> context.value[k].role == Some("user"))
  {
    if context.None? then [] else
    seq(|context.value|, k requires 0 <= k < |context.value| =>
      Rag.Message(if context.value[k].role == Some("user") then Rag.UserRole else Rag.AssistantRole,
                  context.value[k].content.GetOr("")))
  }

  // ---------------------------------------------------------------------------
  // Lead intent
  // ---------------------------------------------------------------------------

  /** Words that mark a message as a lead-capture opportunity, in the order they are tried. */
  const LeadCaptureTriggers: seq<string> := ["contact", "appointment", "schedule", "meeting", "consultation",
                                             "quote", "pricing", "interested", "help", "project"]

  predicate AnyIncluded(s: string, words: seq<string>)
    decreases |words|
  {
    |words| > 0 && (Includes(s, words[0]) || AnyIncluded(s, words[1..]))
  }

  /** `message.toLowerCase()` contains some trigger word. */
  predicate ShouldCaptureLeads(message: string) {
    AnyIncluded(ToLower(message), LeadCaptureTriggers)
  }

  lemma {:induction false} AnyIncludedIffSome(s: string, words: seq<string>)
    ensures AnyIncluded(s, words) <==> exists w, i :: w in words && OccursAt(s, w, i)
    decreases |words|
  {
    if |words| > 0 {
      IncludesIffOccurs(s, words[0]);
      AnyIncludedIffSome(s, words[1..]);
      if exists w, i :: w in words && OccursAt(s, w, i) {
        var w, i :| w in words && OccursAt(s, w, i);
        if w != words[0] {
          assert w in words[1..];
        }
      }
    }
  }

  /** A message is flagged exactly when some trigger word occurs in its lower-cased text. */
  lemma ShouldCaptureLeadsIff(message: string)
    ensures ShouldCaptureLeads(message) <==>
      exists w, i :: w in LeadCaptureTriggers && OccursAt(ToLower(message), w, i)
  {
    AnyIncludedIffSome(ToLower(message), LeadCaptureTriggers);
  }

  /** One included word is enough. */
  lemma {:induction false} IncludedWordSuffices(s: string, words: seq<string>, k: nat)
    requires k < |words| && Includes(s, words[k])
    ensures AnyIncluded(s, words)
    decreases k
  {
    if k > 0 {
      IncludedWordSuffices(s, words[1..], k - 1);
    }
  }

  /** Upper-case spellings count: the test is on the lower-cased message. */
  lemma ShouldCaptureLeadsIgnoresCase()
    ensures ShouldCaptureLeads("Need PRICING")
  {
    var s := ToLower("Need PRICING");
    assert s[5..12] == "pricing";
    IncludesIffOccurs(s, "pricing");
    IncludedWordSuffices(s, LeadCaptureTriggers, 6);
  }

  /** A trigger word inside a longer word counts ("helpful" contains "help"). */
  lemma ShouldCaptureLeadsMatchesInsideWords()
    ensures ShouldCaptureLeads("so helpful")
  {
    var s := ToLower("so helpful");
    assert s[3..7] == "help";
    IncludesIffOccurs(s, "help");
    IncludedWordSuffices(s, LeadCaptureTriggers, 8);
  }

  // ---------------------------------------------------------------------------
  // Replies
  // ---------------------------------------------------------------------------

  /** What the reply keeps of each retrieved document. */
  datatype Link = Link(title: string, url: string)

  function Links(relevant: seq<Rag.Scored>): (r: seq<Link>)
    ensures |r| == |relevant|
    ensures forall k :: 0 <= k < |r| ==> r[k] == Link(relevant[k].doc.title, relevant[k].doc.url)
  {
    seq(|relevant|, k requires 0 <= k < |relevant| => Link(relevant[k].doc.title, relevant[k].doc.url))
  }

  datatype MessageReply =
    | Answered(response: string, sessionId: string, confidence: Rag.Confidence, shouldCaptureLeads: bool, relevantContent: seq<Link>)
    | BadRequest(violation: Violation)
    | MessageFailed(response: string)

  /** Which database call throws during a message request, if any. */
  datatype Fault = NoFault | LookupFault | CreateFault | UpdateFault

  datatype Turn = Turn(conversations: map<string, Conversation>, reply: MessageReply)

  /** The conversation a message goes to: the supplied session's if it is stored, else a new one. */
  function SessionRow(conversations: map<string, Conversation>, sessionId: Option<string>, freshId: string): (c: Conversation)
    requires KeyedBySession(conversations)
    ensures sessionId.Some? && sessionId.value in conversations ==> c == conversations[sessionId.value]
    ensures !(sessionId.Some? && sessionId.value in conversations) ==> c == NewConversation(freshId)
  {
    if sessionId.Some? && sessionId.value in conversations then conversations[sessionId.value] else NewConversation(freshId)
  }

  /** The stored history with the user's message and the answer appended. */
  function WithExchange(c: Conversation, message: string, response: string): (r: Conversation)
    ensures r.sessionId == c.sessionId && r.status == c.status && r.leadCaptured == c.leadCaptured
    ensures |r.messages| == |c.messages| + 2 && r.messages[..|c.messages|] == c.messages
    ensures r.messages[|c.messages|..] == [LogEntry(User, message), LogEntry(Assistant, response)]
  {
    c.(messages := c.messages + [LogEntry(User, message), LogEntry(Assistant, response)])
  }

  function AnsweredReply(sessionId: string, message: string, answer: Rag.Answer): MessageReply {
    Answered(answer.response, sessionId, answer.confidence, ShouldCaptureLeads(message), Links(answer.relevantContent))
  }

  /**
   * The outcome of one message request against the conversations table. `freshId` is the
   * id a new conversation would get, `answer` what the retrieval service returns for the
   * message and its context, `fault` which database call throws.
   */
  function MessageTurn(conversations: map<string, Conversation>, req: ChatRequest, freshId: string,
                       answer: Rag.Answer, fault: Fault): Turn
    requires KeyedBySession(conversations)
  {
    var v := ValidateChat(req);
    if v.Some? then Turn(conversations, BadRequest(v.value))
    else ValidatedTurn(conversations, req.sessionId, req.message.value, freshId, answer, fault)
  }

  /** The outcome of a valid message request: find or open the conversation, then record the exchange. */
  function ValidatedTurn(conversations: map<string, Conversation>, sessionId: Option<string>, message: string,
                         freshId: string, answer: Rag.Answer, fault: Fault): Turn
    requires KeyedBySession(conversations)
  {
    if sessionId.Some? && fault == LookupFault then Turn(conversations, MessageFailed(Rag.Apology))
    else
      var found := sessionId.Some? && sessionId.value in conversations;
      if !found && fault == CreateFault then Turn(conversations, MessageFailed(Rag.Apology))
      else
        var c := SessionRow(conversations, sessionId, freshId);
        if fault == UpdateFault then Turn(conversations[c.sessionId := c], MessageFailed(Rag.Apology))
        else Turn(conversations[c.sessionId := WithExchange(c, message, answer.response)],
                  AnsweredReply(c.sessionId, message, answer))
  }

  /** A request that breaks the schema gets the first violation and touches nothing. */
  lemma InvalidMessageChangesNothing(conversations: map<string, Conversation>, req: ChatRequest, freshId: string,
                                     answer: Rag.Answer, fault: Fault)
    requires KeyedBySession(conversations) && !WellFormed(req)
    ensures MessageTurn(conversations, req, freshId, answer, fault)
         == Turn(conversations, BadRequest(ValidateChat(req).value))
  {
  }

  /**
   * Without a fault the reply carries the generated answer, the lead-intent flag of the
   * message and the session's id: the supplied one if that conversation exists, otherwise
   * the new one.
   */
  lemma AnsweredTurnReply(conversations: map<string, Conversation>, req: ChatRequest, freshId: string,
                          answer: Rag.Answer)
    requires KeyedBySession(conversations) && WellFormed(req)
    ensures MessageTurn(conversations, req, freshId, answer, NoFault).reply.Answered?
    ensures MessageTurn(conversations, req, freshId, answer, NoFault).reply.response == answer.response
    ensures MessageTurn(conversations, req, freshId, answer, NoFault).reply.confidence == answer.confidence
    ensures MessageTurn(conversations, req, freshId, answer, NoFault).reply.sessionId
         == if req.sessionId.Some? && req.sessionId.value in conversations then req.sessionId.value else freshId
    ensures MessageTurn(conversations, req, freshId, answer, NoFault).reply.shouldCaptureLeads
         == ShouldCaptureLeads(req.message.value)
    ensures MessageTurn(conversations, req, freshId, answer, NoFault).reply.relevantContent
         == Links(answer.relevantContent)
  {
    assert ValidateChat(req).None?;
  }

  /**
   * Without a fault the session's history grows by exactly the user's message and the
   * answer, and every other conversation is unchanged.
   */
  lemma AnsweredTurnAppendsExchange(conversations: map<string, Conversation>, req: ChatRequest, freshId: string,
                                    answer: Rag.Answer)
    requires KeyedBySession(conversations) && WellFormed(req)
    requires freshId !in conversations
    ensures var sid := MessageTurn(conversations, req, freshId, answer, NoFault).reply.sessionId;
      MessageTurn(conversations, req, freshId, answer, NoFault).conversations.Keys == conversations.Keys + {sid}
    ensures var t := MessageTurn(conversations, req, freshId, answer, NoFault);
      t.reply.sessionId in t.conversations
      && t.conversations[t.reply.sessionId].messages
         == (if t.reply.sessionId in conversations then conversations[t.reply.sessionId].messages else [])
            + [LogEntry(User, req.message.value), LogEntry(Assistant, answer.response)]
    ensures var t := MessageTurn(conversations, req, freshId, answer, NoFault);
      forall s :: s in conversations && s != t.reply.sessionId ==> t.conversations[s] == conversations[s]
  {
    var c := SessionRow(conversations, req.sessionId, freshId);
    var t := MessageTurn(conversations, req, freshId, answer, NoFault);
    assert ValidateChat(req).None?;
    assert t.conversations == conversations[c.sessionId := WithExchange(c, req.message.value, answer.response)];
    assert t.reply.sessionId == c.sessionId;
  }

  /**
   * A thrown database error gives the apology and leaves every stored history as it was;
   * the only possible change is a new, empty conversation created before an update failed.
   */
  lemma FailedTurnKeepsHistories(conversations: map<string, Conversation>, req: ChatRequest, freshId: string,
                                 answer: Rag.Answer, fault: Fault)
    requires KeyedBySession(conversations) && WellFormed(req) && fault != NoFault
    requires freshId !in conversations
    ensures var t := MessageTurn(conversations, req, freshId, answer, fault);
      t.reply.MessageFailed? ==>
        && t.reply.response == Rag.Apology
        && conversations.Keys <= t.conversations.Keys <= conversations.Keys + {freshId}
        && (forall s :: s in conversations ==> t.conversations[s] == conversations[s])
        && (freshId in t.conversations ==> t.conversations[freshId] == NewConversation(freshId))
    ensures fault == UpdateFault ==> MessageTurn(conversations, req, freshId, answer, fault).reply.MessageFailed?
  {
    var c := SessionRow(conversations, req.sessionId, freshId);
    assert ValidateChat(req).None?;
    if fault == UpdateFault && !(req.sessionId.Some? && fault == LookupFault) {
      assert MessageTurn(conversations, req, freshId, answer, fault)
          == Turn(conversations[c.sessionId := c], MessageFailed(Rag.Apology));
    }
  }

  /** The reply to `POST /init`. */
  datatype InitReply = Initialized(sessionId: string) | InitFailed

  datatype HistoryReply = History(messages: seq<LogEntry>, leadCaptured: bool) | ConversationNotFound | HistoryFailed

  /**
   * `GET /history/:sessionId`: the stored messages and lead flag, not found, or the 500
   * reply when the lookup throws (`lookupFails`).
   */
  function ReadHistory(conversations: map<string, Conversation>, sessionId: string, lookupFails: bool): (r: HistoryReply)
    ensures r.HistoryFailed? <==> lookupFails
    ensures r.ConversationNotFound? <==> !lookupFails && sessionId !in conversations
    ensures r.History? ==> (r.messages == conversations[sessionId].messages
                            && r.leadCaptured == conversations[sessionId].leadCaptured)
  {
    if lookupFails then HistoryFailed
    else if sessionId in conversations then
      var c := conversations[sessionId];
      History(c.messages, c.leadCaptured)
    else ConversationNotFound
  }

  /** What `/message` records can be read back through `/history`. */
  lemma HistoryShowsExchange(conversations: map<string, Conversation>, req: ChatRequest, freshId: string,
                             answer: Rag.Answer)
    requires KeyedBySession(conversations) && WellFormed(req)
    requires freshId !in conversations
    ensures var t := MessageTurn(conversations, req, freshId, answer, NoFault);
      var h := ReadHistory(t.conversations, t.reply.sessionId, false);
      h.History? && |h.messages| >= 2
      && h.messages[|h.messages| - 2..] == [LogEntry(User, req.message.value), LogEntry(Assistant, answer.response)]
  {
    AnsweredTurnReply(conversations, req, freshId, answer);
    AnsweredTurnAppendsExchange(conversations, req, freshId, answer);
  }

  /** `POST /end/:sessionId` marks that conversation completed; an unknown id changes nothing. */
  function Ended(conversations: map<string, Conversation>, sessionId: string): (r: map<string, Conversation>)
    ensures r.Keys == conversations.Keys
    ensures forall s :: s in r ==>
      r[s] == if s == sessionId then conversations[s].(status := Completed) else conversations[s]
  {
    if sessionId in conversations then conversations[sessionId := conversations[sessionId].(status := Completed)]
    else conversations
  }

  // ---------------------------------------------------------------------------
  // Handlers
  // ---------------------------------------------------------------------------

  /** `POST /init`: stores an empty active conversation under a new id. */
  method PostInit(db: Database, freshId: string, createFails: bool) returns (reply: InitReply)
    requires db.Valid() && freshId !in db.conversations
    modifies db
    ensures db.Valid() && db.leads == old(db.leads)
    ensures createFails ==> reply == InitFailed && db.conversations == old(db.conversations)
    ensures !createFails ==> (reply == Initialized(freshId)
                              && db.conversations == old(db.conversations)[freshId := NewConversation(freshId)])
  {
    if createFails {
      return InitFailed;
    }
    db.conversations := db.conversations[freshId := NewConversation(freshId)];
    reply := Initialized(freshId);
  }

  /**
   * `POST /message`. `generate` stands for the retrieval service's answer to a message and
   * its context; `freshId` is the id a new conversation gets, which no stored session has.
   */
  method PostMessage(db: Database, req: ChatRequest, freshId: string,
                     generate: (string, seq<Rag.Message>) -> Rag.Answer, fault: Fault)
    returns (reply: MessageReply)
    requires db.Valid() && freshId !in db.conversations
    modifies db
    ensures db.Valid() && db.leads == old(db.leads)
    ensures !WellFormed(req) ==> reply == BadRequest(ValidateChat(req).value) && db.conversations == old(db.conversations)
    ensures WellFormed(req) ==>
      Turn(db.conversations, reply)
        == MessageTurn(old(db.conversations), req, freshId, generate(req.message.value, RagContext(req.context)), fault)
  {
    var violation := ValidateChat(req);
    if violation.Some? {
      return BadRequest(violation.value);
    }
    reply := AnswerMessage(db, req.sessionId, req.message.value, RagContext(req.context), freshId, generate, fault);
  }

  /** The part of `POST /message` after validation: find or open the conversation, answer, record. */
  method AnswerMessage(db: Database, sessionId: Option<string>, message: string, context: seq<Rag.Message>,
                       freshId: string, generate: (string, seq<Rag.Message>) -> Rag.Answer, fault: Fault)
    returns (reply: MessageReply)
    requires db.Valid() && freshId !in db.conversations
    modifies db
    ensures db.Valid() && db.leads == old(db.leads)
    ensures Turn(db.conversations, reply)
         == ValidatedTurn(old(db.conversations), sessionId, message, freshId, generate(message, context), fault)
  {
    if sessionId.Some? && fault == LookupFault {
      return MessageFailed(Rag.Apology);
    }
    var found := sessionId.Some? && sessionId.value in db.conversations;
    if !found && fault == CreateFault {
      return MessageFailed(Rag.Apology);
    }
    var conversation := SessionRow(db.conversations, sessionId, freshId);
    if !found {
      StoreKeepsKeyed(db.conversations, conversation);
      db.conversations := db.conversations[freshId := conversation];
    } else {
      assert db.conversations[conversation.sessionId := conversation] == db.conversations;
    }
    var answer := generate(message, context);
    if fault == UpdateFault {
      return MessageFailed(Rag.Apology);
    }
    ghost var updated := WithExchange(conversation, message, answer.response);
    StoreKeepsKeyed(db.conversations, updated);
    db.conversations := db.conversations[conversation.sessionId := WithExchange(conversation, message, answer.response)];
    assert db.conversations == old(db.conversations)[conversation.sessionId := WithExchange(conversation, message, answer.response)];
    reply := AnsweredReply(conversation.sessionId, message, answer);
  }

  /** `POST /end/:sessionId`. */
  method PostEnd(db: Database, sessionId: string, updateFails: bool) returns (ok: bool)
    requires db.Valid()
    modifies db
    ensures db.Valid() && db.leads == old(db.leads)
    ensures ok == !updateFails
    ensures db.conversations == if updateFails then old(db.conversations) else Ended(old(db.conversations), sessionId)
  {
    if updateFails {
      return false;
    }
    db.conversations := Ended(db.conversations, sessionId);
    ok := true;
  }
}
