/**
 * The two database tables the server reads and writes, held as maps: conversations keyed
 * by their session id (a unique column) and leads keyed by their id.
 */
module Store {
  import opened Wrappers

  datatype ConversationStatus = Active | Completed | Abandoned

  datatype Speaker = User | Assistant

  /** One stored chat message (its timestamp is not modelled). */
  datatype LogEntry = LogEntry(role: Speaker, content: string)

  datatype Conversation = Conversation(
    sessionId: string,
    messages: seq<LogEntry>,
    status: ConversationStatus,
    leadCaptured: bool,
    leadId: Option<string>)

  datatype LeadStatus = New | Contacted | Qualified | Converted | Closed

  /** A lead; `appointmentDate` is the scheduled instant in milliseconds. */
  datatype Lead = Lead(
    id: string,
    name: string,
    email: string,
    phone: Option<string>,
    company: Option<string>,
    message: Option<string>,
    conversationId: Option<string>,
    status: LeadStatus,
    appointmentDate: Option<int>,
    appointmentTime: Option<string>)

  /** A row created with the table's defaults: no messages, active, no lead. */
  function NewConversation(sessionId: string): (c: Conversation)
    ensures c.sessionId == sessionId && c.messages == [] && c.status == Active && !c.leadCaptured
    ensures c.leadId == None
  {
    Conversation(sessionId, [], Active, false, None)
  }

  /** Every conversation is stored under its own session id. */
  ghost predicate KeyedBySession(conversations: map<string, Conversation>) {
    forall s :: s in conversations ==> conversations[s].sessionId == s
  }

  /** Storing a conversation under its own session id keeps the table keyed by session. */
  lemma StoreKeepsKeyed(conversations: map<string, Conversation>, c: Conversation)
    requires KeyedBySession(conversations)
    ensures KeyedBySession(conversations[c.sessionId := c])
  {
  }

  /** Every lead is stored under its own id and no two leads share an email. */
  ghost predicate LeadsWellKeyed(leads: map<string, Lead>) {
    && (forall id :: id in leads ==> leads[id].id == id)
    && (forall a, b :: a in leads && b in leads && leads[a].email == leads[b].email ==> a == b)
  }

  class Database {
    var conversations: map<string, Conversation>
    var leads: map<string, Lead>

    /**
     * Rows are stored under their own key, and no two leads share an email (the lead
     * service creates a lead only for an email it does not find).
     */
    ghost predicate Valid()
      reads this
    {
      && KeyedBySession(conversations)
      && LeadsWellKeyed(leads)
    }

    constructor ()
      ensures Valid() && conversations == map[] && leads == map[]
    {
      conversations := map[];
      leads := map[];
    }
  }
}
