/**
 * The lead service: field validation, capturing a lead (an upsert keyed by email that also
 * marks the originating conversation), scheduling an appointment and changing a lead's
 * status, plus the confirmation mails it hands to the mail service.
 */
module LeadService {
  import opened Wrappers
  import opened Text
  import opened Store

  /** The lead fields a caller supplies; a missing key is `None`. */
  datatype LeadData = LeadData(
    name: Option<string>,
    email: Option<string>,
    phone: Option<string>,
    company: Option<string>,
    message: Option<string>)

  /** A JavaScript string value that is neither missing nor empty. */
  predicate Truthy(s: Option<string>) {
    s.Some? && s.value != []
  }

  // ---------------------------------------------------------------------------
  // Field rules
  // ---------------------------------------------------------------------------

  const NameError: string := "Name must be at least 2 characters long"
  const EmailError: string := "Valid email address is required"
  const PhoneError: string := "Invalid phone number format"

  /** The name is present and at least two characters long once trimmed. */
  predicate NameOk(name: Option<string>) {
    name.Some? && |Trim(name.value)| >= 2
  }

  /** `s[lo..hi]` holds neither whitespace nor '@' (the class `[^\s@]`). */
  predicate PlainBetween(s: string, lo: int, hi: int)
    requires 0 <= lo <= hi <= |s|
  {
    forall k :: lo <= k < hi ==> !IsSpace(s[k]) && s[k] != '@'
  }

  /**
   * `^[^\s@]+@[^\s@]+\.[^\s@]+$`: `at` and `dot` are where the pattern's literal '@' and
   * '.' match; each of the three runs around them is non-empty.
   */
  predicate EmailPattern(s: string) {
    exists at, dot :: 0 < at && at + 1 < dot && dot + 1 < |s| && s[at] == '@' && s[dot] == '.'
      && PlainBetween(s, 0, at) && PlainBetween(s, at + 1, dot) && PlainBetween(s, dot + 1, |s|)
  }

  /**
   * The same rule stated as facts about the address: no whitespace, exactly one '@', a
   * non-empty local part, and a '.' in the domain that is neither its first nor its last
   * character.
   */
  predicate EmailShape(s: string) {
    && (forall k :: 0 <= k < |s| ==> !IsSpace(s[k]))
    && exists at :: (0 < at < |s| && s[at] == '@'
                     && (forall k :: 0 <= k < |s| && k != at ==> s[k] != '@')
                     && exists j :: at + 1 < j < |s| - 1 && s[j] == '.')
  }

  lemma EmailPatternIffShape(s: string)
    ensures EmailPattern(s) <==> EmailShape(s)
  {
    if EmailPattern(s) {
      var at, dot :| 0 < at && at + 1 < dot && dot + 1 < |s| && s[at] == '@' && s[dot] == '.'
        && PlainBetween(s, 0, at) && PlainBetween(s, at + 1, dot) && PlainBetween(s, dot + 1, |s|);
      assert forall k :: 0 <= k < |s| && k != at && k != dot ==> !IsSpace(s[k]) && s[k] != '@';
      assert !IsSpace(s[at]) && !IsSpace(s[dot]);
      assert at + 1 < dot < |s| - 1 && s[dot] == '.';
    }
    if EmailShape(s) {
      var at :| 0 < at < |s| && s[at] == '@'
        && (forall k :: 0 <= k < |s| && k != at ==> s[k] != '@')
        && exists j :: at + 1 < j < |s| - 1 && s[j] == '.';
      var dot :| at + 1 < dot < |s| - 1 && s[dot] == '.';
      assert PlainBetween(s, 0, at) && PlainBetween(s, at + 1, dot) && PlainBetween(s, dot + 1, |s|);
    }
  }

  /** The email is present and matches the pattern. */
  predicate EmailOk(email: Option<string>) {
    email.Some? && EmailPattern(email.value)
  }

  /** Characters removed from a phone number before it is checked: `[\s\-\(\)]`. */
  predicate IsPhoneSeparator(c: char) {
    IsSpace(c) || c == '-' || c == '(' || c == ')'
  }

  /** `phone.replace(/[\s\-\(\)]/g, '')`. */
  function StripSeparators(s: string): (r: string)
    ensures |r| <= |s|
    ensures forall k :: 0 <= k < |r| ==> !IsPhoneSeparator(r[k])
    ensures (forall k :: 0 <= k < |s| ==> !IsPhoneSeparator(s[k])) ==> r == s
    ensures (forall k :: 0 <= k < |s| ==> IsPhoneSeparator(s[k])) ==> r == []
    decreases |s|
  {
    if s == [] then [] else (if IsPhoneSeparator(s[0]) then [] else [s[0]]) + StripSeparators(s[1..])
  }

  /** Stripping works piecewise, so it keeps every other character, in order. */
  lemma {:induction false} StripSeparatorsConcat(a: string, b: string)
    ensures StripSeparators(a + b) == StripSeparators(a) + StripSeparators(b)
    decreases |a|
  {
    if a != [] {
      assert (a + b)[0] == a[0] && (a + b)[1..] == a[1..] + b;
      StripSeparatorsConcat(a[1..], b);
      var h := if IsPhoneSeparator(a[0]) then [] else [a[0]];
      assert StripSeparators(a + b) == h + (StripSeparators(a[1..]) + StripSeparators(b));
    } else {
      assert a + b == b;
    }
  }

  /** Stripping twice is stripping once. */
  lemma StripSeparatorsIdempotent(s: string)
    ensures StripSeparators(StripSeparators(s)) == StripSeparators(s)
  {
  }

  /** `^[\+]?[1-9][\d]{0,15}$`: an optional '+', a digit 1-9, then at most fifteen digits. */
  predicate PhonePattern(t: string) {
    var d := if |t| > 0 && t[0] == '+' then t[1..] else t;
    1 <= |d| <= 16 && '1' <= d[0] <= '9' && forall k :: 0 <= k < |d| ==> IsDigit(d[k])
  }

  /** A number in the pattern's form has nothing to strip. */
  lemma PatternHasNoSeparators(t: string)
    requires PhonePattern(t)
    ensures StripSeparators(t) == t
  {
    var d := if |t| > 0 && t[0] == '+' then t[1..] else t;
    assert forall j :: 0 <= j < |d| ==> IsDigit(d[j]);
    forall k | 0 <= k < |t|
      ensures !IsPhoneSeparator(t[k])
    {
      if |t| > 0 && t[0] == '+' {
        if k > 0 {
          assert t[k] == d[k - 1];
        }
      } else {
        assert t[k] == d[k];
      }
    }
  }

  /** A missing or empty phone passes; otherwise its stripped form must match the pattern. */
  predicate PhoneOk(phone: Option<string>) {
    !Truthy(phone) || PhonePattern(StripSeparators(phone.value))
  }

  /** Where an error stands in the validator's fixed order. */
  function ErrorRank(e: string): nat {
    if e == NameError then 0 else if e == EmailError then 1 else if e == PhoneError then 2 else 3
  }

  /**
   * `validateLeadData`: pushes one message per failing rule, in the order name, email,
   * phone.
   */
  method ValidateLeadData(data: LeadData) returns (errors: seq<string>)
    ensures errors == [] <==> NameOk(data.name) && EmailOk(data.email) && PhoneOk(data.phone)
    ensures NameError in errors <==> !NameOk(data.name)
    ensures EmailError in errors <==> !EmailOk(data.email)
    ensures PhoneError in errors <==> !PhoneOk(data.phone)
    ensures forall e :: e in errors ==> ErrorRank(e) < 3
    ensures forall i, j :: 0 <= i < j < |errors| ==> ErrorRank(errors[i]) < ErrorRank(errors[j])
  {
    errors := [];
    if data.name.None? || data.name.value == [] || |Trim(data.name.value)| < 2 {
      errors := errors + [NameError];
    }
    if data.email.None? || data.email.value == [] || !EmailPattern(data.email.value) {
      errors := errors + [EmailError];
    }
    if Truthy(data.phone) && !PhonePattern(StripSeparators(data.phone.value)) {
      errors := errors + [PhoneError];
    }
  }

  /** The name submitted by the repository's API script passes the name rule. */
  lemma SampleNamePasses()
    ensures NameOk(Some("Test User"))
  {
    var n := "Test User";
    assert !IsSpace(n[0]) && !IsSpace(n[|n| - 1]);
    assert TrimStart(n) == n;
    assert TrimEnd(n) == n;
  }

  /** The address submitted by the repository's API script passes the email rule. */
  lemma SampleEmailPasses()
    ensures EmailOk(Some("test@example.com"))
  {
    var e := "test@example.com";
    assert e[4] == '@' && e[12] == '.';
    assert PlainBetween(e, 0, 4);
    assert PlainBetween(e, 5, 12);
    assert PlainBetween(e, 13, |e|);
  }

  /** A leading zero is refused even though it is all digits. */
  lemma LeadingZeroPhoneFails()
    ensures !PhoneOk(Some("0123"))
  {
    assert StripSeparators("0123") == "0123";
  }

  // ---------------------------------------------------------------------------
  // Confirmation mails
  // ---------------------------------------------------------------------------

  const DefaultCompany: string := "your organization"

  /** `lead.company || 'your organization'`. */
  function CompanyShown(company: Option<string>): (r: string)
    ensures Truthy(company) ==> r == company.value
    ensures !Truthy(company) ==> r == DefaultCompany
  {
    if Truthy(company) then company.value else DefaultCompany
  }

  datatype Mail =
    | LeadConfirmation(to: string, name: string, company: string)
    | AppointmentConfirmation(to: string, name: string, company: string, appointment: Option<int>)

  /** The confirmation a newly captured lead is sent. */
  function LeadConfirmationFor(lead: Lead): (m: Mail)
    ensures m.to == lead.email && m.name == lead.name && m.company == CompanyShown(lead.company)
  {
    LeadConfirmation(lead.email, lead.name, CompanyShown(lead.company))
  }

  // ---------------------------------------------------------------------------
  // Capture
  // ---------------------------------------------------------------------------

  const RequiredError: string := "Name and email are required"

  /** `{...leadData, conversation_id}` written over a stored lead: supplied fields win. */
  function Merged(lead: Lead, data: LeadData, conversationId: Option<string>): (r: Lead)
    requires data.name.Some? && data.email.Some?
    ensures r.id == lead.id && r.status == lead.status && r.appointmentDate == lead.appointmentDate
    ensures r.name == data.name.value && r.email == data.email.value && r.conversationId == conversationId
    ensures r.phone == (if data.phone.Some? then data.phone else lead.phone)
    ensures r.company == (if data.company.Some? then data.company else lead.company)
    ensures r.message == (if data.message.Some? then data.message else lead.message)
  {
    lead.(name := data.name.value, email := data.email.value,
          phone := if data.phone.Some? then data.phone else lead.phone,
          company := if data.company.Some? then data.company else lead.company,
          message := if data.message.Some? then data.message else lead.message,
          conversationId := conversationId)
  }

  /** A lead created from `data` under `id`, with no appointment and the status `new`. */
  function Created(id: string, data: LeadData, conversationId: Option<string>): (r: Lead)
    requires data.name.Some? && data.email.Some?
    ensures r.id == id && r.name == data.name.value && r.email == data.email.value
    ensures r.phone == data.phone && r.company == data.company && r.message == data.message
    ensures r.conversationId == conversationId && r.status == New
    ensures r.appointmentDate.None? && r.appointmentTime.None?
  {
    Lead(id, data.name.value, data.email.value, data.phone, data.company, data.message, conversationId, New, None, None)
  }

  /**
   * The conversation with that session id, if any, records the captured lead; a missing or
   * empty id marks nothing.
   */
  function MarkCaptured(conversations: map<string, Conversation>, conversationId: Option<string>, leadId: string)
    : (r: map<string, Conversation>)
    ensures r.Keys == conversations.Keys
    ensures forall s :: s in r ==> r[s] == if Truthy(conversationId) && Some(s) == conversationId
      then conversations[s].(leadCaptured := true, leadId := Some(leadId)) else conversations[s]
  {
    if Truthy(conversationId) && conversationId.value in conversations then
      var c := conversations[conversationId.value];
      conversations[conversationId.value := c.(leadCaptured := true, leadId := Some(leadId))]
    else conversations
  }

  /** The stored lead with this email, if any. */
  predicate HasLeadWithEmail(leads: map<string, Lead>, email: string) {
    exists id :: id in leads && leads[id].email == email
  }

  datatype Capture = Capture(leads: map<string, Lead>, conversations: map<string, Conversation>,
                             result: Result<Lead>, mail: Option<Mail>)

  /**
   * `captureLead`: refuse a missing or empty name or email; update the lead already stored
   * under the email; otherwise create one under `freshId`, mark the conversation and send
   * the confirmation.
   */
  function CaptureOutcome(leads: map<string, Lead>, conversations: map<string, Conversation>, data: LeadData,
                          conversationId: Option<string>, freshId: string): Capture
    requires LeadsWellKeyed(leads)
  {
    if !Truthy(data.name) || !Truthy(data.email) then Capture(leads, conversations, Failure(RequiredError), None)
    else if HasLeadWithEmail(leads, data.email.value) then
      var id :| id in leads && leads[id].email == data.email.value;
      var lead := Merged(leads[id], data, conversationId);
      Capture(leads[id := lead], conversations, Success(lead), None)
    else
      var lead := Created(freshId, data, conversationId);
      Capture(leads[freshId := lead], MarkCaptured(conversations, conversationId, freshId),
              Success(lead), Some(LeadConfirmationFor(lead)))
  }

  /** Capturing keeps every lead under its id and emails unique. */
  lemma CaptureKeepsEmailsUnique(leads: map<string, Lead>, conversations: map<string, Conversation>, data: LeadData,
                                 conversationId: Option<string>, freshId: string)
    requires LeadsWellKeyed(leads) && freshId !in leads
    ensures LeadsWellKeyed(CaptureOutcome(leads, conversations, data, conversationId, freshId).leads)
  {
  }

  /**
   * For an email already on file the stored lead is updated in place: no new lead, no
   * conversation change, no mail.
   */
  lemma CaptureKnownEmailUpdates(leads: map<string, Lead>, conversations: map<string, Conversation>, data: LeadData,
                                 conversationId: Option<string>, freshId: string, id: string)
    requires LeadsWellKeyed(leads) && Truthy(data.name) && Truthy(data.email)
    requires id in leads && leads[id].email == data.email.value
    ensures var c := CaptureOutcome(leads, conversations, data, conversationId, freshId);
      && c.result == Success(Merged(leads[id], data, conversationId))
      && c.leads == leads[id := Merged(leads[id], data, conversationId)]
      && c.conversations == conversations
      && c.mail.None?
  {
  }

  /**
   * For a new email exactly one lead is added, under `freshId`, the conversation named by
   * the session id is marked, and the confirmation goes to the new address.
   */
  lemma CaptureNewEmailCreates(leads: map<string, Lead>, conversations: map<string, Conversation>, data: LeadData,
                               conversationId: Option<string>, freshId: string)
    requires LeadsWellKeyed(leads) && Truthy(data.name) && Truthy(data.email)
    requires !HasLeadWithEmail(leads, data.email.value) && freshId !in leads
    ensures var c := CaptureOutcome(leads, conversations, data, conversationId, freshId);
      && c.leads.Keys == leads.Keys + {freshId}
      && (forall id :: id in leads ==> c.leads[id] == leads[id])
      && c.result == Success(c.leads[freshId])
      && c.leads[freshId].email == data.email.value && c.leads[freshId].status == New
      && c.conversations == MarkCaptured(conversations, conversationId, freshId)
      && c.mail == Some(LeadConfirmation(data.email.value, data.name.value, CompanyShown(data.company)))
  {
  }

  /** Submitting the same lead twice stores one lead: the second capture is an update. */
  lemma CaptureTwiceStoresOnce(leads: map<string, Lead>, conversations: map<string, Conversation>, data: LeadData,
                               conversationId: Option<string>, id1: string, id2: string)
    requires LeadsWellKeyed(leads) && Truthy(data.name) && Truthy(data.email)
    requires id1 !in leads
    ensures var first := CaptureOutcome(leads, conversations, data, conversationId, id1);
      var second := CaptureOutcome(first.leads, first.conversations, data, conversationId, id2);
      && LeadsWellKeyed(first.leads)
      && second.leads.Keys == first.leads.Keys
      && second.result == first.result
      && second.mail.None?
  {
    var first := CaptureOutcome(leads, conversations, data, conversationId, id1);
    CaptureKeepsEmailsUnique(leads, conversations, data, conversationId, id1);
    var r := first.result.value;
    assert r.id in first.leads && first.leads[r.id] == r && r.email == data.email.value;
    var second := CaptureOutcome(first.leads, first.conversations, data, conversationId, id2);
    CaptureKnownEmailUpdates(first.leads, first.conversations, data, conversationId, id2, r.id);
    assert Merged(r, data, conversationId) == r;
  }

  /** `captureLead` against the store; a failure changes nothing. */
  method CaptureLead(db: Database, data: LeadData, conversationId: Option<string>, freshId: string)
    returns (result: Result<Lead>, mail: Option<Mail>)
    requires db.Valid() && freshId !in db.leads
    modifies db
    ensures db.Valid()
    ensures Capture(db.leads, db.conversations, result, mail)
         == CaptureOutcome(old(db.leads), old(db.conversations), data, conversationId, freshId)
  {
    if !Truthy(data.name) || !Truthy(data.email) {
      return Failure(RequiredError), None;
    }
    var email := data.email.value;
    if HasLeadWithEmail(db.leads, email) {
      var id :| id in db.leads && db.leads[id].email == email;
      var lead := Merged(db.leads[id], data, conversationId);
      db.leads := db.leads[id := lead];
      return Success(lead), None;
    }
    var lead := Created(freshId, data, conversationId);
    db.leads := db.leads[freshId := lead];
    if Truthy(conversationId) {
      db.conversations := MarkCaptured(db.conversations, conversationId, freshId);
    }
    result, mail := Success(lead), Some(LeadConfirmationFor(lead));
  }

  // ---------------------------------------------------------------------------
  // Status transitions
  // ---------------------------------------------------------------------------

  const InvalidAppointmentError: string := "Invalid appointment date/time"
  const NotFoundError: string := "Lead not found"

  /**
   * `scheduleAppointment`. `when` is the instant the date and time parse to (`None` when
   * they do not parse) and `now` the current instant; a time before now is refused before
   * the lead is looked up.
   */
  method ScheduleAppointment(db: Database, leadId: string, time: string, when: Option<int>, now: int)
    returns (result: Result<Lead>, mail: Option<Mail>)
    requires db.Valid()
    modifies db
    ensures db.Valid() && db.conversations == old(db.conversations)
    ensures (when.None? || when.value < now) ==> result == Failure(InvalidAppointmentError)
    ensures when.Some? && when.value >= now && leadId !in old(db.leads) ==> result == Failure(NotFoundError)
    ensures when.Some? && when.value >= now && leadId in old(db.leads) ==> result.Success?
    ensures result.Failure? ==> db.leads == old(db.leads) && mail.None?
    ensures result.Success? ==>
      && when.Some? && when.value >= now && leadId in old(db.leads)
      && result.value == old(db.leads)[leadId].(appointmentDate := when, appointmentTime := Some(time), status := Qualified)
      && db.leads == old(db.leads)[leadId := result.value]
      && mail == Some(AppointmentConfirmation(result.value.email, result.value.name,
                                              CompanyShown(result.value.company), when))
  {
    if when.None? || when.value < now {
      return Failure(InvalidAppointmentError), None;
    }
    if leadId !in db.leads {
      return Failure(NotFoundError), None;
    }
    var lead := db.leads[leadId].(appointmentDate := when, appointmentTime := Some(time), status := Qualified);
    db.leads := db.leads[leadId := lead];
    result := Success(lead);
    mail := Some(AppointmentConfirmation(lead.email, lead.name, CompanyShown(lead.company), when));
  }

  /** `updateLeadStatus`: sets the status of a stored lead; an unknown id is an error. */
  method UpdateLeadStatus(db: Database, leadId: string, status: LeadStatus) returns (result: Result<Lead>)
    requires db.Valid()
    modifies db
    ensures db.Valid() && db.conversations == old(db.conversations)
    ensures leadId !in old(db.leads) ==> result == Failure(NotFoundError) && db.leads == old(db.leads)
    ensures leadId in old(db.leads) ==>
      && result == Success(old(db.leads)[leadId].(status := status))
      && db.leads == old(db.leads)[leadId := result.value]
  {
    if leadId !in db.leads {
      return Failure(NotFoundError);
    }
    var lead := db.leads[leadId].(status := status);
    db.leads := db.leads[leadId := lead];
    result := Success(lead);
  }
}
