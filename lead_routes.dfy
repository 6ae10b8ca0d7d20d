/**
 * The lead endpoints: capturing a lead, scheduling an appointment, listing leads (only its
 * pagination echo) and changing a lead's status. They validate the request and hand every
 * change to the lead service.
 */
module LeadRoutes {
  import opened Wrappers
  import opened Text
  import opened Store
  import opened Schema
  import opened LeadService

  // ---------------------------------------------------------------------------
  // Capturing a lead
  // ---------------------------------------------------------------------------

  datatype LeadField = NameKey | EmailKey | PhoneKey | CompanyKey | MessageKey | SessionIdKey

  /** The JSON body of a lead submission; a missing key is `None`. */
  datatype LeadRequest = LeadRequest(
    name: Option<string>,
    email: Option<string>,
    phone: Option<string>,
    company: Option<string>,
    message: Option<string>,
    sessionId: Option<string>)

  /** Keys are checked in the order the schema lists them. */
  function Rank(f: LeadField): nat {
    match f
    case NameKey => 0
    case EmailKey => 1
    case PhoneKey => 2
    case CompanyKey => 3
    case MessageKey => 4
    case SessionIdKey => 5
  }

  /**
   * The rule for one key: name 2 to 100 characters, email in the mail library's format
   * (`isEmail`), phone matching the phone pattern, company up to 100 and message up to
   * 1000 characters; only name and email are required.
   */
  function CheckKey(req: LeadRequest, f: LeadField, isEmail: string -> bool): (r: Option<Violation<LeadField>>)
    ensures r.Some? ==> r.value.field == f
    ensures f == NameKey ==>
      (r.None? <==> req.name.Some? && 2 <= |req.name.value| <= 100)
    ensures f == EmailKey ==>
      (r.None? <==> req.email.Some? && req.email.value != [] && isEmail(req.email.value))
    ensures f == PhoneKey ==>
      (r.None? <==> req.phone.Some? ==> req.phone.value != [] && PhonePattern(req.phone.value))
    ensures f == CompanyKey ==>
      (r.None? <==> req.company.Some? ==> req.company.value != [] && |req.company.value| <= 100)
    ensures f == MessageKey ==>
      (r.None? <==> req.message.Some? ==> req.message.value != [] && |req.message.value| <= 1000)
    ensures f == SessionIdKey ==>
      (r.None? <==> req.sessionId.Some? ==> req.sessionId.value != [])
  {
    match f
    case NameKey => CheckString(NameKey, req.name, true, 2, Some(100))
    case EmailKey => CheckFormat(EmailKey, req.email, true, isEmail)
    case PhoneKey => CheckFormat(PhoneKey, req.phone, false, PhonePattern)
    case CompanyKey => CheckString(CompanyKey, req.company, false, 0, Some(100))
    case MessageKey => CheckString(MessageKey, req.message, false, 0, Some(1000))
    case SessionIdKey => CheckString(SessionIdKey, req.sessionId, false, 0, None)
  }

  predicate KeyOk(req: LeadRequest, f: LeadField, isEmail: string -> bool) {
    CheckKey(req, f, isEmail).None?
  }

  /** Every key's rule holds. */
  predicate LeadRequestOk(req: LeadRequest, isEmail: string -> bool) {
    && KeyOk(req, NameKey, isEmail) && KeyOk(req, EmailKey, isEmail) && KeyOk(req, PhoneKey, isEmail)
    && KeyOk(req, CompanyKey, isEmail) && KeyOk(req, MessageKey, isEmail) && KeyOk(req, SessionIdKey, isEmail)
  }

  /**
   * The schema's rules written out: a name of 2 to 100 characters, an email the mail
   * library accepts, a phone matching the pattern, a company of at most 100 and a message
   * of at most 1000 characters, and a non-empty session id; every optional key may be
   * left out, and no key that is given may be empty.
   */
  lemma LeadRequestOkIff(req: LeadRequest, isEmail: string -> bool)
    ensures LeadRequestOk(req, isEmail) <==>
      && req.name.Some? && 2 <= |req.name.value| <= 100
      && req.email.Some? && req.email.value != [] && isEmail(req.email.value)
      && (req.phone.Some? ==> req.phone.value != [] && PhonePattern(req.phone.value))
      && (req.company.Some? ==> req.company.value != [] && |req.company.value| <= 100)
      && (req.message.Some? ==> req.message.value != [] && |req.message.value| <= 1000)
      && (req.sessionId.Some? ==> req.sessionId.value != [])
    ensures LeadRequestOk(req, isEmail) <==> forall f :: KeyOk(req, f, isEmail)
  {
    if LeadRequestOk(req, isEmail) {
      forall f ensures KeyOk(req, f, isEmail) {
        match f
        case NameKey =>
        case EmailKey =>
        case PhoneKey =>
        case CompanyKey =>
        case MessageKey =>
        case SessionIdKey =>
      }
    }
  }

  /** The first key, in schema order, whose rule the request breaks. */
  function ValidateLeadRequest(req: LeadRequest, isEmail: string -> bool): (r: Option<Violation<LeadField>>)
    ensures r.None? <==> LeadRequestOk(req, isEmail)
    ensures r.Some? ==> !KeyOk(req, r.value.field, isEmail)
    ensures r.Some? ==> forall f :: Rank(f) < Rank(r.value.field) ==> KeyOk(req, f, isEmail)
  {
    if !KeyOk(req, NameKey, isEmail) then CheckKey(req, NameKey, isEmail)
    else if !KeyOk(req, EmailKey, isEmail) then CheckKey(req, EmailKey, isEmail)
    else if !KeyOk(req, PhoneKey, isEmail) then CheckKey(req, PhoneKey, isEmail)
    else if !KeyOk(req, CompanyKey, isEmail) then CheckKey(req, CompanyKey, isEmail)
    else if !KeyOk(req, MessageKey, isEmail) then CheckKey(req, MessageKey, isEmail)
    else CheckKey(req, SessionIdKey, isEmail)
  }

  /** `const { sessionId, ...leadData } = value`: the lead fields without the session id. */
  function LeadDataOf(req: LeadRequest): (d: LeadData)
    ensures d.name == req.name && d.email == req.email && d.phone == req.phone
    ensures d.company == req.company && d.message == req.message
  {
    LeadData(req.name, req.email, req.phone, req.company, req.message)
  }

  /**
   * A request the schema accepts always has a name and an email, so the service's own
   * "required" check never fires behind this route.
   */
  lemma AcceptedLeadHasNameAndEmail(req: LeadRequest, isEmail: string -> bool)
    requires ValidateLeadRequest(req, isEmail).None?
    ensures Truthy(LeadDataOf(req).name) && Truthy(LeadDataOf(req).email)
  {
    assert KeyOk(req, NameKey, isEmail) && KeyOk(req, EmailKey, isEmail);
  }

  /**
   * The schema's phone pattern is applied to the raw text, so a phone it accepts has no
   * separators and also passes the service's phone rule.
   */
  lemma AcceptedPhonePassesService(req: LeadRequest, isEmail: string -> bool)
    requires ValidateLeadRequest(req, isEmail).None?
    ensures PhoneOk(req.phone)
  {
    assert KeyOk(req, PhoneKey, isEmail);
    if Truthy(req.phone) {
      PatternHasNoSeparators(req.phone.value);
    }
  }

  datatype LeadReply =
    | LeadCaptured(leadId: string, name: string, email: string, company: Option<string>, status: LeadStatus)
    | LeadInvalid(violation: Violation<LeadField>)
    | ValidationFailed(details: seq<string>)
    | CaptureFailed

  /** The reply the service's result produces. */
  function CaptureReply(result: Result<Lead>): LeadReply {
    if result.Success? then
      var lead := result.value;
      LeadCaptured(lead.id, lead.name, lead.email, lead.company, lead.status)
    else CaptureFailed
  }

  /** All three service rules hold for the submitted fields. */
  predicate ServiceRulesHold(d: LeadData) {
    NameOk(d.name) && EmailOk(d.email) && PhoneOk(d.phone)
  }

  /**
   * `POST /leads`: the schema, then the service's field rules (all messages are
   * returned), then the capture with the session id as conversation id.
   */
  method PostLead(db: Database, req: LeadRequest, isEmail: string -> bool, freshId: string)
    returns (reply: LeadReply, mail: Option<Mail>)
    requires db.Valid() && freshId !in db.leads
    modifies db
    ensures db.Valid()
    ensures ValidateLeadRequest(req, isEmail).Some? ==>
      reply == LeadInvalid(ValidateLeadRequest(req, isEmail).value) && mail.None? && unchanged(db)
    ensures ValidateLeadRequest(req, isEmail).None? && !ServiceRulesHold(LeadDataOf(req)) ==>
      && reply.ValidationFailed? && mail.None? && unchanged(db)
      && (NameError in reply.details <==> !NameOk(req.name))
      && (EmailError in reply.details <==> !EmailOk(req.email))
      && (PhoneError in reply.details <==> !PhoneOk(req.phone))
    ensures ValidateLeadRequest(req, isEmail).None? && ServiceRulesHold(LeadDataOf(req)) ==>
      var c := CaptureOutcome(old(db.leads), old(db.conversations), LeadDataOf(req), req.sessionId, freshId);
      && db.leads == c.leads && db.conversations == c.conversations && mail == c.mail
      && reply == CaptureReply(c.result)
    ensures !reply.CaptureFailed?
  {
    var violation := ValidateLeadRequest(req, isEmail);
    if violation.Some? {
      return LeadInvalid(violation.value), None;
    }
    var data := LeadDataOf(req);
    var errors := ValidateLeadData(data);
    if |errors| > 0 {
      return ValidationFailed(errors), None;
    }
    AcceptedLeadHasNameAndEmail(req, isEmail);
    var result;
    result, mail := CaptureLead(db, data, req.sessionId, freshId);
    reply := CaptureReply(result);
  }

  // ---------------------------------------------------------------------------
  // Scheduling an appointment
  // ---------------------------------------------------------------------------

  /** `^([0-1]?[0-9]|2[0-3]):[0-5][0-9]$`, as a test on characters. */
  predicate TimePattern(t: string) {
    || (|t| == 4 && IsDigit(t[0]) && t[1] == ':' && '0' <= t[2] <= '5' && IsDigit(t[3]))
    || (|t| == 5 && (('0' <= t[0] <= '1' && IsDigit(t[1])) || (t[0] == '2' && '0' <= t[1] <= '3'))
        && t[2] == ':' && '0' <= t[3] <= '5' && IsDigit(t[4]))
  }

  /** The text of the time `h:m`, with a two-digit hour when `padded`. */
  function ClockText(h: nat, m: nat, padded: bool): (t: string)
    requires h < 24 && m < 60 && (padded || h < 10)
    ensures |t| == if padded then 5 else 4
  {
    (if padded then [DigitChar(h / 10)] else []) + [DigitChar(h % 10), ':', DigitChar(m / 10), DigitChar(m % 10)]
  }

  lemma DigitCharOfValue(c: char)
    requires IsDigit(c)
    ensures DigitChar(DigitValue(c)) == c
  {
  }

  /**
   * The pattern accepts exactly `H:MM` and `HH:MM` with an hour from 0 to 23 and minutes
   * from 00 to 59.
   */
  lemma TimePatternIff(t: string)
    ensures TimePattern(t) <==>
      exists h: nat, m: nat, padded: bool :: h < 24 && m < 60 && (padded || h < 10) && t == ClockText(h, m, padded)
  {
    if TimePattern(t) {
      var padded := |t| == 5;
      var o := if padded then 1 else 0;
      var h: nat := if padded then DigitValue(t[0]) * 10 + DigitValue(t[1]) else DigitValue(t[0]);
      var m: nat := DigitValue(t[o + 2]) * 10 + DigitValue(t[o + 3]);
      DigitCharOfValue(t[o]);
      DigitCharOfValue(t[o + 2]);
      DigitCharOfValue(t[o + 3]);
      if padded {
        DigitCharOfValue(t[0]);
      }
      assert t == ClockText(h, m, padded);
    }
  }

  /** Every clock time has an accepted spelling, padded or not. */
  lemma ClockTextAccepted(h: nat, m: nat, padded: bool)
    requires h < 24 && m < 60 && (padded || h < 10)
    ensures TimePattern(ClockText(h, m, padded))
  {
  }

  /** An appointment date as the schema sees it. */
  datatype DateValue = NoDate | Unparseable | Instant(at: int)

  datatype AppointmentField = DateKey | TimeKey | AddressKey

  datatype AppointmentRequest = AppointmentRequest(date: DateValue, time: Option<string>, address: Option<string>)

  /**
   * The appointment schema: a date no earlier than `now`, a time matching the pattern,
   * an optional address of at most 500 characters, checked in that order.
   */
  function ValidateAppointment(req: AppointmentRequest, now: int): (r: Option<Violation<AppointmentField>>)
    ensures r.None? <==>
      && req.date.Instant? && req.date.at >= now
      && req.time.Some? && req.time.value != [] && TimePattern(req.time.value)
      && StringOk(req.address, false, 0, Some(500))
    ensures req.date.NoDate? ==> r == Some(Required(DateKey))
    ensures req.date.Instant? && req.date.at < now ==> r == Some(TooEarly(DateKey))
  {
    if req.date.NoDate? then Some(Required(DateKey))
    else if req.date.Unparseable? then Some(Malformed(DateKey))
    else if req.date.at < now then Some(TooEarly(DateKey))
    else
      var time := CheckFormat(TimeKey, req.time, true, TimePattern);
      if time.Some? then time else CheckString(AddressKey, req.address, false, 0, Some(500))
  }

  datatype AppointmentReply =
    | Scheduled(leadId: string, appointmentDate: Option<int>, appointmentTime: Option<string>, status: LeadStatus)
    | AppointmentInvalid(violation: Violation<AppointmentField>)
    | AppointmentFailed(error: string)

  /**
   * `POST /leads/:leadId/appointment`. `when` is the instant the service makes of the date
   * and time together (`None` when that does not parse); a service error becomes a 500
   * carrying its message.
   */
  method PostAppointment(db: Database, leadId: string, req: AppointmentRequest, now: int, when: Option<int>)
    returns (reply: AppointmentReply, mail: Option<Mail>)
    requires db.Valid()
    modifies db
    ensures db.Valid() && db.conversations == old(db.conversations)
    ensures ValidateAppointment(req, now).Some? ==>
      reply == AppointmentInvalid(ValidateAppointment(req, now).value) && db.leads == old(db.leads) && mail.None?
    ensures ValidateAppointment(req, now).None? && (when.None? || when.value < now) ==>
      reply == AppointmentFailed(InvalidAppointmentError) && db.leads == old(db.leads)
    ensures ValidateAppointment(req, now).None? && when.Some? && when.value >= now && leadId !in old(db.leads) ==>
      reply == AppointmentFailed(NotFoundError) && db.leads == old(db.leads)
    ensures ValidateAppointment(req, now).None? && when.Some? && when.value >= now && leadId in old(db.leads) ==>
      && reply == Scheduled(leadId, when, req.time, Qualified)
      && db.leads == old(db.leads)[leadId := old(db.leads)[leadId].(appointmentDate := when,
                                                                   appointmentTime := req.time, status := Qualified)]
  {
    var violation := ValidateAppointment(req, now);
    if violation.Some? {
      return AppointmentInvalid(violation.value), None;
    }
    var result;
    result, mail := ScheduleAppointment(db, leadId, req.time.value, when, now);
    if result.Failure? {
      return AppointmentFailed(result.error), mail;
    }
    var lead := result.value;
    reply := Scheduled(lead.id, lead.appointmentDate, lead.appointmentTime, lead.status);
  }

  // ---------------------------------------------------------------------------
  // Listing leads: the pagination echo
  // ---------------------------------------------------------------------------

  /** JavaScript `parseInt` digit values for radix 10 or 16. */
  function RadixDigit(c: char, radix: nat): Option<nat> {
    if '0' <= c <= '9' && (c as int - '0' as int) < radix then Some(c as int - '0' as int)
    else if radix == 16 && 'a' <= c <= 'f' then Some(c as int - 'a' as int + 10)
    else if radix == 16 && 'A' <= c <= 'F' then Some(c as int - 'A' as int + 10)
    else None
  }

  /** The longest prefix of `s` made of digits of the radix. */
  function DigitRun(s: string, radix: nat): (r: string)
    ensures |r| <= |s| && r == s[..|r|]
    ensures forall k :: 0 <= k < |r| ==> RadixDigit(r[k], radix).Some?
    ensures |r| < |s| ==> RadixDigit(s[|r|], radix).None?
    decreases |s|
  {
    if s == [] || RadixDigit(s[0], radix).None? then [] else [s[0]] + DigitRun(s[1..], radix)
  }

  /** The number the digits spell, most significant first. */
  function DigitsValue(ds: string, radix: nat): nat
    decreases |ds|
  {
    if ds == [] then 0
    else DigitsValue(ds[..|ds| - 1], radix) * radix + RadixDigit(ds[|ds| - 1], radix).GetOr(0)
  }

  /** The text `parseInt` reads digits from: leading whitespace and one optional sign removed. */
  function Unsigned(s: string): string {
    var t := TrimStart(s);
    if |t| > 0 && (t[0] == '-' || t[0] == '+') then t[1..] else t
  }

  /**
   * `parseInt(s)` with no radix: leading whitespace skipped, an optional sign, a `0x`/`0X`
   * prefix switching to hexadecimal, then the longest run of digits; no digits is NaN
   * (`None`).
   */
  function ParseInt(s: string): Option<int> {
    var t := TrimStart(s);
    var negative := |t| > 0 && t[0] == '-';
    var u := Unsigned(s);
    var hex := |u| >= 2 && u[0] == '0' && (u[1] == 'x' || u[1] == 'X');
    var radix := if hex then 16 else 10;
    var ds := DigitRun(if hex then u[2..] else u, radix);
    var value: int := DigitsValue(ds, radix);
    if ds == [] then None else if negative then Some(-value) else Some(value)
  }

  /** The decimal spelling of a natural number, without leading zeros. */
  function NatText(n: nat): (t: string)
    ensures |t| > 0 && forall k :: 0 <= k < |t| ==> IsDigit(t[k])
    ensures n > 0 ==> t[0] != '0'
    decreases n
  {
    if n < 10 then [DigitChar(n)] else NatText(n / 10) + [DigitChar(n % 10)]
  }

  /** The decimal spelling of an integer, with '-' for negatives. */
  function DecimalText(n: int): string {
    if n < 0 then "-" + NatText(-n) else NatText(n)
  }

  lemma {:induction false} NatTextValue(n: nat)
    ensures DigitRun(NatText(n), 10) == NatText(n)
    ensures DigitsValue(NatText(n), 10) == n
    decreases n
  {
    var t := NatText(n);
    assert forall k :: 0 <= k < |t| ==> RadixDigit(t[k], 10).Some?;
    DigitRunWhole(t, 10);
    if n >= 10 {
      NatTextValue(n / 10);
      assert t[..|t| - 1] == NatText(n / 10);
    }
  }

  lemma {:induction false} DigitRunWhole(s: string, radix: nat)
    requires forall k :: 0 <= k < |s| ==> RadixDigit(s[k], radix).Some?
    ensures DigitRun(s, radix) == s
    decreases |s|
  {
    if s != [] {
      DigitRunWhole(s[1..], radix);
    }
  }

  /** `parseInt` reads back every integer from its decimal spelling. */
  lemma ParseIntDecimal(n: int)
    ensures ParseInt(DecimalText(n)) == Some(n)
  {
    var s := DecimalText(n);
    var digits := NatText(if n < 0 then -n else n);
    assert s[0] == '-' || IsDigit(s[0]);
    assert TrimStart(s) == s;
    NatTextValue(if n < 0 then -n else n);
    if n < 0 {
      assert s[1..] == digits;
    }
  }

  /** `parseInt(limit) || 50`: NaN and zero both give the default. */
  function PageLimit(limit: Option<string>): (r: int)
    ensures r != 0
  {
    var p := if limit.Some? then ParseInt(limit.value) else None;
    if p.None? || p.value == 0 then 50 else p.value
  }

  /** `parseInt(offset) || 0`. */
  function PageOffset(offset: Option<string>): int {
    var p := if offset.Some? then ParseInt(offset.value) else None;
    if p.None? then 0 else p.value
  }

  /**
   * The echoed pagination is the number given, or 50 and 0 when the value is absent, not
   * a number, or zero.
   */
  lemma PaginationEcho(n: int)
    ensures PageLimit(None) == 50 && PageOffset(None) == 0
    ensures PageLimit(Some(DecimalText(n))) == if n == 0 then 50 else n
    ensures PageOffset(Some(DecimalText(n))) == n
  {
    ParseIntDecimal(n);
  }

  /**
   * `parseInt` gives NaN when, after the leading whitespace and one optional sign, the
   * text is empty or does not start with a digit.
   */
  lemma ParseIntNaN(s: string)
    requires Unsigned(s) == [] || !IsDigit(Unsigned(s)[0])
    ensures ParseInt(s).None?
  {
    var u := Unsigned(s);
    assert u == [] || RadixDigit(u[0], 10).None?;
    assert DigitRun(u, 10) == [];
  }

  /**
   * Text that is not a number gives the defaults: blank text, a lone sign, or text whose
   * first character after the whitespace and an optional sign is not a digit.
   */
  lemma PaginationNonNumeric(s: string)
    requires Unsigned(s) == [] || !IsDigit(Unsigned(s)[0])
    ensures PageLimit(Some(s)) == 50 && PageOffset(Some(s)) == 0
  {
    ParseIntNaN(s);
  }

  // ---------------------------------------------------------------------------
  // Changing a lead's status
  // ---------------------------------------------------------------------------

  function StatusName(s: LeadStatus): string {
    match s
    case New => "new"
    case Contacted => "contacted"
    case Qualified => "qualified"
    case Converted => "converted"
    case Closed => "closed"
  }

  /** The whitelist: exactly the five status names are accepted. */
  function ParseStatus(s: Option<string>): (r: Option<LeadStatus>)
    ensures r.Some? <==> s.Some? && s.value in ["new", "contacted", "qualified", "converted", "closed"]
  {
    if s == Some("new") then Some(New)
    else if s == Some("contacted") then Some(Contacted)
    else if s == Some("qualified") then Some(Qualified)
    else if s == Some("converted") then Some(Converted)
    else if s == Some("closed") then Some(Closed)
    else None
  }

  /** The whitelist and the status names are inverse to each other. */
  lemma StatusNamesRoundTrip(st: LeadStatus, s: Option<string>)
    ensures ParseStatus(Some(StatusName(st))) == Some(st)
    ensures ParseStatus(s).Some? ==> Some(StatusName(ParseStatus(s).value)) == s
  {
  }

  datatype StatusReply = StatusUpdated(leadId: string, status: LeadStatus) | InvalidStatus | StatusFailed(error: string)

  /** `PATCH /leads/:leadId/status`: a name outside the whitelist is refused before the store is touched. */
  method PatchStatus(db: Database, leadId: string, status: Option<string>) returns (reply: StatusReply)
    requires db.Valid()
    modifies db
    ensures db.Valid() && db.conversations == old(db.conversations)
    ensures ParseStatus(status).None? ==> reply == InvalidStatus && db.leads == old(db.leads)
    ensures ParseStatus(status).Some? && leadId !in old(db.leads) ==>
      reply == StatusFailed(NotFoundError) && db.leads == old(db.leads)
    ensures ParseStatus(status).Some? && leadId in old(db.leads) ==>
      && reply == StatusUpdated(leadId, ParseStatus(status).value)
      && db.leads == old(db.leads)[leadId := old(db.leads)[leadId].(status := ParseStatus(status).value)]
  {
    var parsed := ParseStatus(status);
    if parsed.None? {
      return InvalidStatus;
    }
    var result := UpdateLeadStatus(db, leadId, parsed.value);
    if result.Failure? {
      return StatusFailed(result.error);
    }
    reply := StatusUpdated(result.value.id, result.value.status);
  }
}
