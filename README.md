# Metalogics AI assistant — a verified model of its core

This project models the core of the Metalogics website assistant in Dafny:

- The server's retrieval-augmented answering service (`ragService.js`). It loads a knowledge base, scores every document against the query, caches the document embeddings it computes, keeps the best three above the 0.7 relevance threshold, and builds the completion prompt from them.
- The chat routes (`routes/chat.js`):
  - schema validation;
  - finding or opening a conversation;
  - recording each exchange;
  - the lead-intent trigger words;
  - history and ending a conversation.
- The lead service (`leadService.js`):
  - name, email and phone rules;
  - capture, where a known email updates its lead and a new email creates one, marks the conversation and mails a confirmation;
  - scheduling an appointment;
  - status changes.
- The lead routes (`routes/leads.js`):
  - the lead and appointment schemas, including the 24-hour time pattern;
  - `parseInt`-based pagination;
  - the status whitelist.
- The website scraper (`websiteScraper.js`):
  - the text clean-up pipeline;
  - scraped and fallback entries;
  - the page loop, where a failing page falls back to canned text;
  - the full fallback catalogue.
- The browser-side chat hook (`useChat.js`): its six pieces of state, starting a session, sending a message with a ten-message context window, and clearing.

## How the model is organised

The modules follow the repository's files:

| file | module | models |
|---|---|---|
| `rag.dfy` | `Rag` | the retrieval service |
| `chat_route.dfy` | `ChatRoute` | the chat routes |
| `lead_service.dfy` | `LeadService` | the lead service |
| `lead_routes.dfy` | `LeadRoutes` | the lead routes |
| `scraper.dfy` | `Scraper` | the scraper |
| `use_chat.dfy` | `UseChat` | the chat hook |

Shared pieces live in their own modules:

- `Wrappers`: `Option`, `Result`.
- `Text`: JavaScript `trim`, `toLowerCase`, `includes`, `join`, `replace`.
- `Schema`: the string rules of the validation library.
- `Store`: the Conversation and Lead records and the `Database` that holds both tables.

Where the source changes an object step by step, the model does the same:

- `Rag.RagService` holds the knowledge base, the embedding cache and the initialised flag.
- `Scraper.WebsiteScraper` holds the knowledge base it builds.
- `UseChat.ChatHook` holds the hook's state.
- The route handlers change a `Store.Database`.

Each of those methods is proved against a function on values. The lemmas are about that function, for example:

- the retrieval result is the sorted, thresholded top-k of the scores;
- the score pass embeds each uncached document exactly once;
- a second identical capture stores no second lead.

The outside world becomes parameters:

- The OpenAI embedding and completion calls are function parameters: `embed`, `complete`.
- Cosine similarity is a parameter (`similarity`).
- A page's extracted text is `Option<string>`, where `None` means the page threw.
- Which database call throws is a `Fault` value, or a boolean flag.
- Identifiers that the source gets from `uuid` or the database are a `freshId` parameter.
- The current time, and the instant `moment` makes of an appointment date and time, are the `now` and `when` parameters.
- The mail library's `isEmail` is a parameter of the lead schema.

Behaviour worth knowing, as the code is written:

- The lead schema applies the phone pattern to the raw text. So a number with spaces, dashes or parentheses is refused before the service's more lenient separator-stripping rule is reached (`LeadRoutes.AcceptedPhonePassesService`).
- The scraper's clean-up replaces whitespace runs before it removes special characters. So it can leave two spaces next to each other and is not idempotent.
- The scraper's `|| 'home'` default never applies to the five pages, since `/` becomes `-` (`Scraper.RootPageId`).

## Model

| member | source | states |
|---|---|---|
| Text.Trim | scraper/websiteScraper.js:99 | `trim()` yields the longest slice of the input that starts and ends with a non-whitespace character; everything cut from either end is whitespace |
| Text.TrimEmptyIffAllSpace | client/src/hooks/useChat.js:37 | a message trims to empty exactly when every character is whitespace |
| Text.IncludesIffOccurs | server/src/routes/chat.js:97 | `includes` holds exactly when the word occurs at some position |
| Text.ToLower | server/src/routes/chat.js:97 | lower-casing keeps the length and maps each character through the ASCII lower-case mapping |
| Text.JoinKeepsItemsInOrder | server/src/services/ragService.js:143 | in a joined text each item occurs at its computed offset, and consecutive items are separated by exactly one separator |
| Text.ReplaceChar | scraper/websiteScraper.js:80 | replacing every `/` keeps the length and changes exactly the `/` characters |
| Text.Capitalize | scraper/websiteScraper.js:143 | the first character is upper-cased and the rest is unchanged |
| Schema.CheckString | server/src/routes/leads.js:8-15 | a string rule fails exactly when the value is missing but required, empty, or outside its length bounds; the violation names the field, and a missing required value gives `Required` |
| Schema.CheckFormat | server/src/routes/leads.js:10 | a pattern rule fails exactly when the string rule fails or a present value does not match; a non-empty mismatch gives `Malformed` |
| Store.NewConversation | server/src/routes/chat.js:26-32 | a new conversation has the given session id, no messages, status active, no lead captured and no lead id |
| Rag.DefaultKnowledgeBase | server/src/services/ragService.js:49-73 | the built-in knowledge base has three non-empty documents with the ids about-metalogics, services-overview and contact-info |
| Rag.LoadedCorpus | server/src/services/ragService.js:26-47 | the corpus the loader ends with: the file's documents when it reads and parses, the default three otherwise; its two cases are stated in `Rag.LoadedCorpusFallback` |
| Rag.SetRecord | server/src/services/ragService.js:38 | one record set into the cache; a record with a null or missing embedding leaves its id uncached, which is what the `!itemEmbedding` test at line 107 makes of the stored null |
| Rag.WithPrecomputed | server/src/services/ragService.js:37-39 | the precomputed records set into the cache in file order; what survives is stated in `Rag.PrecomputedLastWins` |
| Rag.LoadedCache | server/src/services/ragService.js:33-42 | the cache after loading: the precomputed records are added only when both files read and parse, otherwise the cache is unchanged |
| Rag.LoadedCorpusFallback | server/src/services/ragService.js:26-47 | a readable knowledge-base file is used as is; a missing one falls back to the three default documents |
| Rag.PrecomputedLastWins | server/src/services/ragService.js:34-42 | the last record for an id decides it: its vector is cached, or the id is left uncached when that record has no embedding; ids without a record keep exactly what the cache held |
| Rag.Contents | server/src/services/ragService.js:108 | the texts embedded for a list of documents are their contents, in order |
| Rag.ScorePass | server/src/services/ragService.js:104-117 | the scoring loop as a function of the cache and the knowledge base: outcome, new cache, embedding requests and scores; its properties are `Rag.ScorePassCache`, `Rag.ScorePassRequestsMisses`, `Rag.ScorePassRequestsOnce`, `Rag.ScorePassRequestsAllMisses`, `Rag.ScorePassScores`, `Rag.ScorePassStopsAfterFailure` and `Rag.WarmPassRequestsNothing` |
| Rag.ScorePassStopsAfterFailure | server/src/services/ragService.js:123-126 | once an embedding call fails, the rest of the knowledge base is not looked at |
| Rag.ScorePassCache | server/src/services/ragService.js:105-110 | the loop never drops or changes a cached vector, adds only ids of the knowledge base, and after a full pass every document is cached |
| Rag.ScorePassRequestsMisses | server/src/services/ragService.js:107-108 | only documents missing from the cache are sent for embedding |
| Rag.ScorePassRequestsOnce | server/src/services/ragService.js:107-109 | no id is embedded twice in one pass, and the cache grows by exactly the requested ids |
| Rag.ScorePassRequestsAllMisses | server/src/services/ragService.js:104-110 | a completed pass requests exactly the ids that were not cached |
| Rag.ScorePassScores | server/src/services/ragService.js:112-116 | a completed pass scores every document, in order, with the similarity between the query vector and the document's cached vector |
| Rag.WarmPassRequestsNothing | server/src/services/ragService.js:105-110 | with every document cached, a pass makes no embedding request and leaves the cache as it was |
| Rag.SortDesc | server/src/services/ragService.js:120 | the descending stable sort by similarity; `Rag.SortDescFacts` proves it sorted, a permutation and stable |
| Rag.Insert | server/src/services/ragService.js:120 | one insertion step of the sort; `Rag.InsertPermutes`, `Rag.InsertSorted` and `Rag.InsertStable` state what it keeps |
| Rag.InsertPermutes | server/src/services/ragService.js:120 | inserting into the sorted list adds exactly that element |
| Rag.InsertSorted | server/src/services/ragService.js:120 | insertion keeps the list sorted by descending similarity |
| Rag.InsertStable | server/src/services/ragService.js:120 | among elements of equal similarity, insertion keeps their order |
| Rag.SortDescFacts | server/src/services/ragService.js:120 | the descending sort is sorted, a permutation of its input, and stable, as `Array.prototype.sort` is required to be |
| Rag.Take | server/src/services/ragService.js:121 | `slice(0, topK)` is the prefix of length min(topK, length) |
| Rag.AboveThreshold | server/src/services/ragService.js:122 | `filter(item => item.similarity > 0.7)`; on a sorted list it keeps exactly the prefix above 0.7 (`Rag.ThresholdKeepsSortedPrefix`) |
| Rag.NoneAboveThreshold | server/src/services/ragService.js:122 | when no score exceeds 0.7 the filter returns nothing |
| Rag.ThresholdKeepsSortedPrefix | server/src/services/ragService.js:122 | on a sorted list the filter keeps exactly the prefix whose scores exceed 0.7 |
| Rag.Select | server/src/services/ragService.js:119-122 | sort, slice to topK, then filter; `Rag.SelectIsTopPrefix` states the result |
| Rag.SelectIsTopPrefix | server/src/services/ragService.js:119-122 | the selection is a sorted prefix of the sorted scores, at most topK long, all above 0.7, and a sub-multiset of the scores; if it is shorter than both topK and the list, the next score is at most 0.7 |
| Rag.PrefixFacts | server/src/services/ragService.js:121 | a prefix of a sorted list is sorted and a sub-multiset of it |
| Rag.Retrieval | server/src/services/ragService.js:100-126 | a whole retrieval: embed the query, run the score pass and select, or return nothing on any thrown error; its results, cache and requests are stated in `Rag.RetrievalResult`, `Rag.RetrievalCache` and `Rag.RetrievalRequests` |
| Rag.RetrievalResult | server/src/services/ragService.js:95-127 | at most topK results, sorted, each above 0.7, each a knowledge-base document scored against its cached vector; a failed query embedding, or a document embedding that throws during the score pass, gives no results |
| Rag.RetrievalCache | server/src/services/ragService.js:104-110 | retrieval keeps every cached vector, adds only knowledge-base ids, and caches the whole knowledge base once a pass completes |
| Rag.RetrievalRequests | server/src/services/ragService.js:101-110 | the query is embedded first; after it only uncached documents' contents, at most one request per uncached id |
| Rag.RequestedBound | server/src/services/ragService.js:105-110 | a pass makes at most as many document requests as there are uncached ids |
| Rag.DistinctIdsBound | server/src/services/ragService.js:49-73 | documents with pairwise distinct ids have as many ids as documents |
| Rag.RepeatedRetrievalHitsCache | server/src/services/ragService.js:105-110 | after one completed retrieval, the next one embeds only its query and leaves the cache unchanged |
| Rag.EntryTexts | server/src/services/ragService.js:143 | each retrieved document becomes `title: content`, in retrieval order |
| Rag.SystemPrompt | server/src/services/ragService.js:133-149 | the fixed prompt text around the retrieved entries joined by blank lines; `Rag.PromptQuotesRetrievedInOrder` states where each entry appears |
| Rag.PromptQuotesRetrievedInOrder | server/src/services/ragService.js:133-149 | the system prompt contains every retrieved entry at its offset, in retrieval order, inside the fixed prompt text |
| Rag.OccursInsideFrame | server/src/services/ragService.js:133-149 | text occurring in the middle part still occurs, shifted, once fixed text is put around it |
| Rag.CompletionMessages | server/src/services/ragService.js:151-155 | the completion gets the system prompt, then the context unchanged, then the user's query |
| Rag.Respond | server/src/services/ragService.js:164-176 | a failed completion gives the apology with no sources and low confidence; otherwise the completion's text with the retrieved documents; confidence is high exactly when the completion succeeded and something was retrieved |
| Rag.RagService.constructor | server/src/services/ragService.js:6-13 | a new service has no documents, an empty cache and is not initialised |
| Rag.RagService.LoadKnowledgeBase | server/src/services/ragService.js:26-47 | the knowledge base becomes the loaded corpus, and the cache gains the precomputed embeddings |
| Rag.RagService.Initialize | server/src/services/ragService.js:15-24 | after initialising, the service is initialised with the loaded corpus and cache |
| Rag.RagService.ScoreCorpus | server/src/services/ragService.js:104-117 | the scoring loop's outcome, cache and embedding requests are those of the score-pass function |
| Rag.RagService.Retrieve | server/src/services/ragService.js:100-126 | retrieval on an initialised service gives the retrieval function's result, cache and requests |
| Rag.RagService.FindRelevantContent | server/src/services/ragService.js:95-127 | the service initialises itself on first use and then retrieves against the cache as it stands |
| Rag.RagService.GenerateResponse | server/src/services/ragService.js:129-177 | the answer is `Respond` applied to the default top-3 retrieval and to the completion of the built messages |
| ChatRoute.WellFormed | server/src/routes/chat.js:10-17 | the chat schema written out: a non-empty message of at most 1000 characters, a non-empty session id if given, and valid context items; `ChatRoute.ValidateChat` accepts exactly these requests |
| ChatRoute.ItemViolation | server/src/routes/chat.js:13-16 | a context item is refused exactly when its role is not user or assistant, or its content is missing or empty |
| ChatRoute.FirstItemViolation | server/src/routes/chat.js:13-16 | no violation is reported exactly when every item from the given index on is valid; a reported violation belongs to an invalid item |
| ChatRoute.ValidateChat | server/src/routes/chat.js:10-17 | a request is accepted exactly when it is well formed; a bad message is reported before anything else, and an empty session id next |
| ChatRoute.RagContext | server/src/routes/chat.js:59 | an absent context becomes an empty one; items keep their order and content, and the user role is kept exactly where it was given |
| ChatRoute.ShouldCaptureLeads | server/src/routes/chat.js:91-98 | some trigger word occurs in the lower-cased message; `ChatRoute.ShouldCaptureLeadsIff` states it as an occurrence |
| ChatRoute.AnyIncludedIffSome | server/src/routes/chat.js:96-98 | `some(... includes ...)` holds exactly when some listed word occurs in the text |
| ChatRoute.ShouldCaptureLeadsIff | server/src/routes/chat.js:91-98 | a message signals lead intent exactly when its lower-cased text contains one of the ten trigger words |
| ChatRoute.IncludedWordSuffices | server/src/routes/chat.js:96-98 | any single included trigger word is enough |
| ChatRoute.ShouldCaptureLeadsIgnoresCase | server/src/routes/chat.js:97 | upper-case trigger words count |
| ChatRoute.ShouldCaptureLeadsMatchesInsideWords | server/src/routes/chat.js:97 | a trigger inside another word ("help" in "helpful") counts |
| ChatRoute.Links | server/src/routes/chat.js:106-109 | the sources in a reply are the retrieved documents' titles and URLs, in order |
| ChatRoute.SessionRow | server/src/routes/chat.js:62-76 | a message goes to the stored conversation of its session, or to a new conversation under the fresh id |
| ChatRoute.WithExchange | server/src/routes/chat.js:82-88 | recording an exchange appends the user message then the answer, and keeps the earlier history and the other fields |
| ChatRoute.MessageTurn | server/src/routes/chat.js:49-119 | the whole `/message` request as a function of the conversations table: validation, then `ChatRoute.ValidatedTurn`; its outcomes are stated in the lemmas below |
| ChatRoute.ValidatedTurn | server/src/routes/chat.js:62-119 | a valid request: the lookup, the creation of a new conversation, the recorded exchange and the reply, or the apology when a database call throws |
| ChatRoute.AnsweredReply | server/src/routes/chat.js:100-110 | the reply's fields; stated through `ChatRoute.AnsweredTurnReply` |
| ChatRoute.InvalidMessageChangesNothing | server/src/routes/chat.js:51-57 | an invalid request is answered with its first violation and changes no conversation |
| ChatRoute.AnsweredTurnReply | server/src/routes/chat.js:100-110 | the reply carries the service's answer and confidence, the conversation's session id, the lead-intent flag and the source links |
| ChatRoute.AnsweredTurnAppendsExchange | server/src/routes/chat.js:62-88 | exactly one conversation, the reply's session, gains the exchange; a new session starts from an empty history; all others are untouched |
| ChatRoute.FailedTurnKeepsHistories | server/src/routes/chat.js:112-119 | a thrown database error gives the apology and changes no stored history; at most a new, empty conversation is added |
| ChatRoute.ReadHistory | server/src/routes/chat.js:123-150 | the history is the stored messages and lead flag; it is not found exactly when the lookup succeeds and the session is unknown; the 500 failure is returned exactly when the lookup throws |
| ChatRoute.HistoryShowsExchange | server/src/routes/chat.js:82-88 | after an answered message, that session's history ends with the user message and the answer |
| ChatRoute.Ended | server/src/routes/chat.js:153-173 | ending marks only that conversation completed; an unknown session changes nothing |
| ChatRoute.PostInit | server/src/routes/chat.js:20-46 | a new active conversation is stored under the fresh id, or nothing changes when creation fails |
| ChatRoute.PostMessage | server/src/routes/chat.js:49-120 | an invalid request gets its violation and changes nothing; a valid one has exactly the outcome of the turn function, with the answer generated for the message and context; leads are never touched |
| ChatRoute.AnswerMessage | server/src/routes/chat.js:62-119 | the conversations and reply after a valid request are those the turn function gives |
| ChatRoute.PostEnd | server/src/routes/chat.js:153-173 | on success the session is marked completed; on failure nothing changes |
| LeadService.NameOk | server/src/services/leadService.js:168-170 | a name passes when present and at least two characters long after trimming |
| LeadService.EmailPattern | server/src/services/leadService.js:172-174 | the email regular expression as positions of its `@` and `.`; `LeadService.EmailPatternIffShape` gives the plain shape |
| LeadService.EmailOk | server/src/services/leadService.js:172-174 | an email passes when present and matching the pattern |
| LeadService.PhonePattern | server/src/services/leadService.js:176-178 | the phone regular expression: an optional `+`, a digit 1–9, then at most fifteen digits; `LeadService.PatternHasNoSeparators` relates it to stripping |
| LeadService.PhoneOk | server/src/services/leadService.js:176-178 | a missing or empty phone passes; otherwise its separator-stripped form must match the phone pattern |
| LeadService.EmailPatternIffShape | server/src/services/leadService.js:172-174 | the email regular expression accepts exactly: no whitespace or `@`, a single `@`, and a dot in the domain with text on both sides |
| LeadService.StripSeparators | server/src/services/leadService.js:176-178 | stripping removes exactly the spaces, dashes and parentheses; text without them is unchanged |
| LeadService.StripSeparatorsConcat | server/src/services/leadService.js:177 | stripping works piece by piece over concatenation |
| LeadService.StripSeparatorsIdempotent | server/src/services/leadService.js:177 | stripping twice is the same as stripping once |
| LeadService.PatternHasNoSeparators | server/src/services/leadService.js:177 | a number matching the phone pattern contains no separators |
| LeadService.ValidateLeadData | server/src/services/leadService.js:165-181 | the error list is empty exactly when all three rules hold; it holds each rule's message exactly when that rule fails, in the order name, email, phone |
| LeadService.SampleNamePasses | server/src/services/leadService.js:168-170 | a two-word name passes the name rule |
| LeadService.SampleEmailPasses | server/src/services/leadService.js:172-174 | an ordinary address passes the email rule |
| LeadService.LeadingZeroPhoneFails | server/src/services/leadService.js:176-178 | a number starting with 0 fails the phone rule |
| LeadService.CompanyShown | server/src/services/leadService.js:92 | the mail names the company when one is given, otherwise "your organization" |
| LeadService.LeadConfirmationFor | server/src/services/leadService.js:84-101 | the confirmation goes to the lead's email, with its name and shown company |
| LeadService.Merged | server/src/services/leadService.js:17-26 | updating a known lead overwrites the submitted fields and keeps its id, status and appointment |
| LeadService.Created | server/src/services/leadService.js:29-33 | a new lead carries the submitted fields, the conversation id and status new |
| LeadService.MarkCaptured | server/src/services/leadService.js:36-41 | only the conversation named by a non-empty id is marked as having captured this lead; a missing or empty id marks nothing |
| LeadService.HasLeadWithEmail | server/src/services/leadService.js:17 | some stored lead has this email |
| LeadService.CaptureOutcome | server/src/services/leadService.js:8-51 | capture as a function of the two tables: refuse a missing name or email, update the lead with a known email, or create one, mark the conversation and send the confirmation; stated in the four lemmas below |
| LeadService.CaptureKeepsEmailsUnique | server/src/services/leadService.js:8-51 | capturing keeps each lead under its own id and at most one lead per email |
| LeadService.CaptureKnownEmailUpdates | server/src/services/leadService.js:17-26 | for an email on file the lead is updated, no lead is added, no conversation changes and no mail is sent |
| LeadService.CaptureNewEmailCreates | server/src/services/leadService.js:29-44 | for a new email exactly one lead is added under the fresh id, the conversation is marked and the confirmation is sent to that address |
| LeadService.CaptureTwiceStoresOnce | server/src/services/leadService.js:17-33 | submitting the same lead twice stores it once; the second capture returns the same lead and sends no mail |
| LeadService.CaptureLead | server/src/services/leadService.js:8-51 | the store, result and mail after a capture are the capture function's outcome |
| LeadService.ScheduleAppointment | server/src/services/leadService.js:53-82 | a date that does not parse or is in the past is refused, an unknown lead is not found, otherwise only that lead gets the date, time and status qualified, and the appointment confirmation is due |
| LeadService.UpdateLeadStatus | server/src/services/leadService.js:150-163 | an unknown lead is not found; otherwise only that lead's status changes |
| LeadRoutes.CheckKey | server/src/routes/leads.js:8-15 | each key's rule: name present with 2 to 100 characters, email present, non-empty and accepted by the mail library, phone absent or non-empty and matching the pattern, company at most 100 and message at most 1000 characters when given, session id non-empty when given; a violation names its key |
| LeadRoutes.LeadRequestOkIff | server/src/routes/leads.js:8-15 | a lead request is acceptable exactly when those six rules, written out as length, presence and format conditions, all hold |
| LeadRoutes.ValidateLeadRequest | server/src/routes/leads.js:26-32 | no violation exactly when every rule holds; a reported violation breaks its key's rule, and every earlier key in schema order passes |
| LeadRoutes.LeadDataOf | server/src/routes/leads.js:34 | the lead data is the request without its session id |
| LeadRoutes.AcceptedLeadHasNameAndEmail | server/src/routes/leads.js:8-15 | a request the schema accepts has a non-empty name and email, so the service's required check never fires from this route |
| LeadRoutes.AcceptedPhonePassesService | server/src/routes/leads.js:10 | a phone the schema accepts also passes the service's phone rule |
| LeadRoutes.CaptureReply | server/src/routes/leads.js:48-58 | the reply to a capture: the lead's id, name, email, company and status |
| LeadRoutes.PostLead | server/src/routes/leads.js:24-67 | a schema violation or a failing service rule changes nothing, and each failing rule's message is returned; otherwise the store, reply and mail are the capture outcome |
| LeadRoutes.TimePattern | server/src/routes/leads.js:19 | the appointment time pattern as a test on characters; `LeadRoutes.TimePatternIff` states which clock times it accepts |
| LeadRoutes.TimePatternIff | server/src/routes/leads.js:19 | the time pattern accepts exactly `H:MM` and `HH:MM` with hour 0–23 and minutes 00–59 |
| LeadRoutes.ClockTextAccepted | server/src/routes/leads.js:19 | every clock time is accepted, padded or not |
| LeadRoutes.ValidateAppointment | server/src/routes/leads.js:17-21 | an appointment is accepted exactly when the date is present and not in the past, the time matches the pattern, and the address is at most 500 characters; a missing date is required, a past date too early |
| LeadRoutes.PostAppointment | server/src/routes/leads.js:70-102 | a schema violation changes nothing; the service's refusals become error replies; otherwise the lead is scheduled and qualified |
| LeadRoutes.ParseInt | server/src/routes/leads.js:122-123 | JavaScript `parseInt` without a radix: leading whitespace, a sign, a `0x` prefix, then the longest digit run, or NaN; `LeadRoutes.ParseIntDecimal` and `LeadRoutes.ParseIntNaN` state what it reads |
| LeadRoutes.DigitRun | server/src/routes/leads.js:121-124 | `parseInt` reads the longest prefix of digits of the radix and stops at the first other character |
| LeadRoutes.NatText | server/src/routes/leads.js:121-124 | a number's decimal spelling is non-empty, all digits, with no leading zero |
| LeadRoutes.NatTextValue | server/src/routes/leads.js:121-124 | reading a number's decimal spelling gives back that number |
| LeadRoutes.DigitRunWhole | server/src/routes/leads.js:121-124 | a text made only of digits is read in full |
| LeadRoutes.ParseIntDecimal | server/src/routes/leads.js:121-124 | `parseInt` reads back every integer from its decimal spelling, sign included |
| LeadRoutes.PageLimit | server/src/routes/leads.js:122 | the page limit is never zero |
| LeadRoutes.PageOffset | server/src/routes/leads.js:123 | `parseInt(offset)`, or 0 when that is NaN; its values are stated in `LeadRoutes.PaginationEcho` |
| LeadRoutes.PaginationEcho | server/src/routes/leads.js:121-124 | the echoed limit and offset are the numbers given, and 50 and 0 when absent; a limit of zero becomes 50 |
| LeadRoutes.ParseIntNaN | server/src/routes/leads.js:122-123 | `parseInt` gives NaN when the text after its leading whitespace and one optional sign is empty or starts with a non-digit: blank text, a lone sign, `$5`, `.5` |
| LeadRoutes.PaginationNonNumeric | server/src/routes/leads.js:122-123 | a limit or offset that is empty or blank, a lone sign, or has a non-digit after its leading whitespace and optional sign gives the defaults 50 and 0 |
| LeadRoutes.ParseStatus | server/src/routes/leads.js:142-148 | exactly the five status names are accepted |
| LeadRoutes.StatusName | server/src/routes/leads.js:142-148 | the status names of the whitelist; `LeadRoutes.StatusNamesRoundTrip` inverts it |
| LeadRoutes.StatusNamesRoundTrip | server/src/routes/leads.js:142-148 | the whitelist and the status names are inverse to each other |
| LeadRoutes.PatchStatus | server/src/routes/leads.js:137-168 | a status outside the whitelist is refused before the store is touched; an unknown lead is not found; otherwise only that lead's status changes |
| Scraper.DropWhile | scraper/websiteScraper.js:96 | dropping leading matches leaves a suffix that starts with a non-match |
| Scraper.CollapseRuns | scraper/websiteScraper.js:96-97 | collapsing runs never lengthens the text; every character is a space or an unmatched character of the input; text without matches is unchanged |
| Scraper.KeepOnly | scraper/websiteScraper.js:98 | removal keeps only characters of the allowed class, and text made only of them is unchanged |
| Scraper.SliceOnlyCleanChars | scraper/websiteScraper.js:98-100 | a slice of clean text is clean |
| Scraper.CollapsedSpacesArePlain | scraper/websiteScraper.js:96-97 | after the two replacements the only whitespace left is the plain space |
| Scraper.CleanContent | scraper/websiteScraper.js:94-101 | cleaned content is at most 2000 characters |
| Scraper.Cut | scraper/websiteScraper.js:100 | `substring(0, 2000)` is the prefix of length min(2000, length) |
| Scraper.KeptTextIsClean | scraper/websiteScraper.js:96-98 | before trimming, the text holds only allowed characters, and plain spaces as its only whitespace |
| Scraper.CleanCharsAllowed | scraper/websiteScraper.js:98 | clean text contains only word characters, spaces and `.,!?;:()-` |
| Scraper.TrimKeepsCleanChars | scraper/websiteScraper.js:99 | trimming clean text leaves clean text |
| Scraper.TrimAndCutFacts | scraper/websiteScraper.js:99-100 | after trimming and cutting, clean text keeps only allowed characters, never starts with a space, and ends with one only when cut at 2000 characters |
| Scraper.Prepared | scraper/websiteScraper.js:96-98 | the three replacements before trimming; `Scraper.KeptTextIsClean` states their result |
| Scraper.CleanContentFacts | scraper/websiteScraper.js:94-101 | cleaned content holds only word characters, spaces and `.,!?;:()-`, never starts with a space, and ends with one only when cut at 2000 characters |
| Scraper.NewlinePassIsIdentity | scraper/websiteScraper.js:96-97 | the newline replacement changes nothing, since the whitespace pass already removed every newline |
| Scraper.ScrapedId | scraper/websiteScraper.js:80 | a scraped entry's id is the category, a dash, and the URL with every `/` made `-`, or `home` for an empty URL |
| Scraper.RootPageId | scraper/websiteScraper.js:25-31 | the home page's id is `general--` and the about page's `company--about` |
| Scraper.ScrapedEntries | scraper/websiteScraper.js:76-87 | a page adds one entry exactly when its cleaned text is longer than 100 characters, carrying that text, the page's title, category and full URL |
| Scraper.FallbackText | scraper/websiteScraper.js:118-132 | any fallback text there is, is non-empty |
| Scraper.FallbackTextDomain | scraper/websiteScraper.js:118-132 | there is fallback text exactly for the five categories |
| Scraper.FallbackEntries | scraper/websiteScraper.js:103-116 | a failed page adds its category's fallback entry, marked as fallback, or nothing for an unknown category |
| Scraper.Catalogue | scraper/websiteScraper.js:134-152 | the catalogue has one entry per category |
| Scraper.CatalogueFacts | scraper/websiteScraper.js:134-152 | each catalogue entry has the fallback id, the capitalised category as title, the category's fallback text and the category's URL (the root for general) |
| Scraper.CatalogueStep | scraper/websiteScraper.js:138-151 | the catalogue is built one category at a time, in order |
| Scraper.CatalogueEntry | scraper/websiteScraper.js:139-150 | one category's catalogue entry; stated in `Scraper.CatalogueFacts` |
| Scraper.PageOutcome | scraper/websiteScraper.js:34-42 | one iteration of the page loop: the scraped entries of a page that loads, the fallback entries of one that throws |
| Scraper.FlattenSplit | scraper/websiteScraper.js:33-43 | the entries of a run of pages are those of its first part followed by those of the rest |
| Scraper.FlattenSnoc | scraper/websiteScraper.js:33-43 | one more page appends its own entries |
| Scraper.FlattenAround | scraper/websiteScraper.js:33-43 | a page's entries sit between those of the pages before and after it |
| Scraper.FlattenBound | scraper/websiteScraper.js:33-43 | pages of at most one entry each give at most one entry per page |
| Scraper.Outcomes | scraper/websiteScraper.js:33-43 | each page's outcome is its scraped entries, or its fallback entry when it threw |
| Scraper.PageEntries | scraper/websiteScraper.js:33-43 | the entries the page loop adds, page by page in order; stated in `Scraper.PageEntriesStep`, `Scraper.FailedPageGetsFallback` and `Scraper.PageEntriesBound` |
| Scraper.PageEntriesBound | scraper/websiteScraper.js:33-43 | the page loop adds at most one entry per page |
| Scraper.OutcomesPrefix | scraper/websiteScraper.js:33-43 | the outcomes of the first pages do not depend on later pages |
| Scraper.OutcomesSuffix | scraper/websiteScraper.js:33-43 | the outcomes of the later pages do not depend on earlier ones |
| Scraper.PageEntriesStep | scraper/websiteScraper.js:33-43 | one more iteration appends that page's outcome |
| Scraper.PageEntriesWhole | scraper/websiteScraper.js:33-43 | the loop over all pages gives the page entries of the whole list |
| Scraper.FailedPageGetsFallback | scraper/websiteScraper.js:38-42 | a page that throws contributes its fallback entry in its place, between the other pages' entries |
| Scraper.WebsiteScraper.constructor | scraper/websiteScraper.js:7-10 | the scraper starts on the Metalogics site with an empty knowledge base |
| Scraper.WebsiteScraper.ScrapePage | scraper/websiteScraper.js:59-92 | a page that loads appends its scraped entries and reports success; one that throws changes nothing |
| Scraper.WebsiteScraper.AddFallbackContent | scraper/websiteScraper.js:103-116 | a failed page appends its fallback entries |
| Scraper.WebsiteScraper.CreateFallbackKnowledgeBase | scraper/websiteScraper.js:134-152 | the whole catalogue is appended, in category order |
| Scraper.WebsiteScraper.AddCatalogueEntry | scraper/websiteScraper.js:139-150 | one category's catalogue entry is appended |
| Scraper.WebsiteScraper.ScrapeOrFallback | scraper/websiteScraper.js:34-42 | one iteration appends the page's outcome |
| Scraper.WebsiteScraper.ScrapePages | scraper/websiteScraper.js:33-43 | the loop appends the page entries of the whole list, in page order |
| Scraper.WebsiteScraper.ScrapeWebsite | scraper/websiteScraper.js:12-57 | a failed browser launch gives the catalogue; otherwise the five pages' entries, followed by the catalogue when closing the browser throws |
| UseChat.Initialize | client/src/hooks/useChat.js:15-33 | success sets the session id and replaces the messages with the welcome message; failure only raises the initialisation error; nothing else changes |
| UseChat.ContextWindow | client/src/hooks/useChat.js:53-56 | the context is the last ten messages at most, each with its role name and content, in order |
| UseChat.Accepted | client/src/hooks/useChat.js:37 | a message is sent only when its trimmed text is non-empty and no send is in progress |
| UseChat.UserMessage | client/src/hooks/useChat.js:39-44 | the user's message shows the trimmed text |
| UseChat.ReplyMessage | client/src/hooks/useChat.js:60-87 | the answer with its confidence and sources, or the apology marked as an error |
| UseChat.AdoptedSession | client/src/hooks/useChat.js:73-75 | the answer's session id is adopted when it is non-empty and differs from the current one |
| UseChat.Send | client/src/hooks/useChat.js:36-94 | a blank message or a busy hook changes nothing; otherwise the user's message and the reply are appended and the hook ends idle |
| UseChat.SendAppendsExchange | client/src/hooks/useChat.js:39-89 | sending appends the trimmed user message, then the assistant's answer with its sources, or an error message exactly when the call failed |
| UseChat.SendIgnoresBlankOrBusy | client/src/hooks/useChat.js:37 | whitespace-only text, or a send while loading, changes nothing |
| UseChat.SendSetsError | client/src/hooks/useChat.js:49-78 | success clears the error; failure shows the thrown message, or the default text when the message is empty |
| UseChat.SendFollowsAnswer | client/src/hooks/useChat.js:70-75 | the lead flag follows a successful answer; the session id becomes the answer's non-empty id, and failures keep both |
| UseChat.SendAll | client/src/hooks/useChat.js:36-94 | a series of sends, one after the other |
| UseChat.SendKeepsHistory | client/src/hooks/useChat.js:46-89 | any series of sends only appends to the message history |
| UseChat.SendAllStaysIdle | client/src/hooks/useChat.js:90-93 | after any series of sends, the hook is neither loading nor typing |
| UseChat.Clear | client/src/hooks/useChat.js:97-103 | clearing drops the lead flag and leaves either the welcome message with the new session and no error, or an empty chat with no session and the initialisation error |
| UseChat.ClearIsRestart | client/src/hooks/useChat.js:97-103 | clearing an idle chat gives the same state as starting a fresh hook |
| UseChat.ChatHook.constructor | client/src/hooks/useChat.js:5-10 | the hook starts with no messages, no session, no error and all flags off |
| UseChat.ChatHook.InitializeChat | client/src/hooks/useChat.js:15-33 | the hook's state becomes the one `Initialize` gives |
| UseChat.ChatHook.SendMessage | client/src/hooks/useChat.js:36-94 | the hook's state becomes `Send` of the old state, where the server is called with the untrimmed text, the old session id and the context window of the old messages |
| UseChat.ChatHook.Receive | client/src/hooks/useChat.js:60-89 | the reply's message is appended, and the session, error and lead flag follow the answer |
| UseChat.ChatHook.ClearChat | client/src/hooks/useChat.js:97-103 | the hook's state becomes the one `Clear` gives |

## Left out

- Cosine similarity and all floating-point arithmetic: the similarity function is a parameter, and scores are `real`.
- The OpenAI embedding and chat-completion calls, including the model name, token limit and temperature: they are parameters that may fail.
- Database access through Sequelize: the two tables are maps in `Store.Database`.
  - The lead listing's filters and ordering (`Op`, `findAndCountAll`) are not modelled; only its echo of `limit` and `offset` is.
- Database errors inside the lead service, other than a missing lead, are not modelled.
- The Lead model's default status is assumed to be `new`. The model file is not part of this model.
- Date parsing by `moment` and Joi's date conversion: the parsed instant is a parameter (`when`), and a request date is `DateValue`.
- Puppeteer, page extraction (`innerText` of the main element), delays, the browser user agent and saving the knowledge base to disk.
  - A page's text is an input.
  - A failing `newPage`/`setUserAgent` is folded into `launchFails`.
- `getFallbackContent` is modelled for plain category names only; keys inherited from `Object.prototype` are not modelled.
- Scraper.WebsiteScraper.ScrapePage: the `scraped_at` timestamp is not modelled, and neither are any entry timestamps or message ids (`Date.now`, `new Date()`).
- The email templates and sending, and the appointment confirmation: the lead service only returns the mail it would send.
- UseChat.ChatHook.SendMessage: the call is modelled as completing before the next one starts. So overlapping sends, and the stale `messages`/`isLoading` the React callback closes over, are not modelled.
- UseChat.ChatHook.ClearChat: the un-awaited `initializeChat` is modelled as completing within the call.
- Scrolling, refs and rendering in the client; `client/src/services/api.js` is not part of this model.
- `toLowerCase` and `toUpperCase` are modelled on ASCII letters only, and `\w` on ASCII characters only. `\s` and `trim` use the full JavaScript whitespace set. String lengths count code points rather than UTF-16 units.
- Joi's error texts and its rejection of unknown keys are not modelled; only the first violation, by field and kind, is.
- Request fields are typed as optional strings (and `context` as an optional list of items). So Joi's rejection of values of another JSON type is not modelled, for example a number for `name`, `null`, or a `context` that is not an array.
- The two data files are assumed to hold what the loader expects once they parse: a list of documents, and a list of objects with an `id`. A parsed embeddings file that is not an array, or a null record that makes `forEach` throw partway, is not modelled. A present embedding is taken to be a vector; a null or missing one is modelled (`Rag.SetRecord`).
- LeadRoutes.ParseInt: integers are unbounded, so the rounding of very long numbers to a double is not modelled. Leading whitespace is the same JavaScript set `trim` uses.
- Rag.RagService.FindRelevantContent: a negative `topK` (JavaScript `slice(0, -n)`) is not modelled; `topK` is a natural number.
- Scraper.CleanContent: the contract bounds the length only; the character and spacing facts are in `Scraper.CleanContentFacts`.
- Scraper.FallbackText: the contract states only that any text is non-empty; which categories have one is `Scraper.FallbackTextDomain`.
