# PocketTherapist check-in pipeline, modelled in Dafny

PocketTherapist is a Django service that takes a user's chat message and
answers it. Each message goes through a fixed pipeline:

- The sender is resolved to a user, created on first contact.
- An empty message gets a welcome text.
- The message is recorded.
- A keyword-based crisis detector decides whether to answer with a fixed
  crisis text.
- Otherwise the message is classified as negative, positive or neutral and
  stored as a check-in, and a completion service is asked for a reply. A
  negative message asks for a cognitive reframe, which is also stored; any
  other message asks for a friendly chat reply. Either request carries a
  transcript of the user's last six messages.
- The reply is recorded and returned.

Two read-only endpoints sit beside the pipeline. One summarises a user's
check-ins of the last seven days. The other lists the twenty newest
messages.

The project models that core in five modules:

- `Wrappers` (wrappers.dfy): the `Option` type. It stands for nullable
  columns and for the outcome of a call to the completion service, where
  `None` means the call raised.
- `Text` (text.dfy): the Python string built-ins the core relies on:
  lower-casing, stripping, joining, substring search and reversal.
- `Classifiers` (classifiers.dfy), from `agent/utils.py`:
  - crisis detection, read as a regular expression with word boundaries;
  - keyword sentiment;
  - the reframe request and its fallback;
  - the choice of model name.
- `Models` (models.dfy), from `agent/models.py`:
  - the four records and their `__str__` renderings;
  - the default orderings;
  - uniqueness of `telex_id` and get-or-create;
  - the `Database` class, whose four append-only tables the request
    handlers update in place.
- `Views` (views.dfy), from `agent/views.py`:
  - `handle_message`, as the method `HandleMessage` on a `Database`. It is
    proved against the pure function `ExpectedTurn`, which gives what one
    request appends to each table, what it answers and which prompts it
    sends;
  - the conversation transcript;
  - `weekly_summary`;
  - `message_history`.

Calls to the completion service are inputs, not effects:

- `handle_message` receives the outcome of the context-aware call
  (`primary`) and the outcome of `gemini_reframe`'s own call (`fallback`).
  The second is consulted only when the first fails on the reframe path.
- The prompts each request would send are part of its result. This makes
  "nothing is sent" a statable property.

Storage failures are inputs too. `Faults` says which writes raise:

- An unguarded write failing (the inbound message, or the assistant
  message) ends in the generic error with status 500.
- The read of the recent messages for the transcript is unguarded too. When
  it fails, the inbound message and the check-in are already stored, no
  prompt is sent, and the answer is the generic error with status 500.
- A guarded write failing (the check-in, or the reframe) is skipped.
- A failing user lookup gives the user-data error.

Timestamps are integers. Every write of one request carries the request's
time `now`, and the store's `clock` never goes backwards. The tables are
therefore kept in creation order, and "newest first" is a reversal.

## Model

| member | source | states |
|---|---|---|
| Text.Strip | agent/utils.py:81 | `str.strip()`: the result is a slice of the input with only whitespace removed around it and no whitespace left at either edge |
| Text.StripEmptyIff | agent/views.py:28 | stripping gives the empty string exactly when the input is all whitespace |
| Text.StripIdempotent | agent/utils.py:81 | stripping twice is stripping once |
| Text.LowerIsLower | agent/utils.py:43 | lower-casing keeps the length, leaves no upper-case letter and is idempotent |
| Text.ContainsSpec | agent/utils.py:53 | the left-to-right scan behind `w in s` answers true exactly when `w` occurs at some index of `s` |
| Text.JoinSnoc | agent/views.py:87-89 | `sep.join` of a list with one more item appends the separator and the item |
| Text.NewestWindow | agent/views.py:81-84 | reversing, taking the first k and reversing back gives the last k items in their original order |
| Classifiers.SearchFrom | agent/utils.py:44 | the scan for `\b<p>\b` from index i succeeds exactly when the phrase matches with word boundaries at some index at or after i |
| Classifiers.AnyPhrase | agent/utils.py:44 | `any(re.search(...))` over a phrase list succeeds exactly when some listed phrase matches somewhere |
| Classifiers.DetectRisk | agent/utils.py:42-44 | detect_risk fires exactly when one of the eight crisis phrases occurs in the lower-cased text with a word boundary before and after it |
| Classifiers.DetectRiskIgnoresCase | agent/utils.py:43 | texts equal after lower-casing are classified alike, and lower-casing first changes nothing |
| Classifiers.RiskPhrasesAreWords | agent/utils.py:37-40 | every crisis phrase begins and ends with a word character, so `\b` around it means a non-word character or the end of the text |
| Classifiers.StandsAlone | agent/utils.py:44 | a phrase with word characters at its edges, placed between non-word characters or text ends, matches `\b<p>\b` where it was placed |
| Classifiers.WholePhraseFires | agent/utils.py:42-44 | a crisis phrase in any letter case that stands on its own, with non-word characters or the text ends around it, makes detect_risk fire |
| Classifiers.PhraseInsideWordIgnored | agent/utils.py:44 | if every occurrence of every crisis phrase touches a word character on one side, detect_risk does not fire |
| Classifiers.CapitalisedPhraseFires | agent/utils.py:42-44 | "I feel WORTHLESS." is flagged |
| Classifiers.AnyWord | agent/utils.py:53-56 | `any(w in txt for w in ws)` holds exactly when some listed word is a substring of the text |
| Classifiers.DetectSentiment | agent/utils.py:48-57 | the label is one of "negative", "positive", "neutral": "negative" iff a negative word occurs in the lower-cased text; "positive" iff none does and a positive word does; "neutral" iff neither list occurs |
| Classifiers.NegativeTakesPriority | agent/utils.py:53-54 | one negative word anywhere gives "negative", whatever positive words occur too |
| Classifiers.NegativeInsideWordCounts | agent/utils.py:53 | a negative word counts in any case and even inside a longer word, whatever surrounds it |
| Classifiers.PositiveInsideWordCounts | agent/utils.py:55-56 | a positive word inside a longer word gives "positive" when no negative word occurs |
| Classifiers.SadnessIsNegative | agent/utils.py:50 | "sadness" is classified negative, because "sad" is a substring |
| Classifiers.GoodbyeIsPositive | agent/utils.py:51 | "Goodbye" is classified positive, because "good" is a substring and no negative word is |
| Classifiers.ReframePrompt | agent/utils.py:63-80 | gemini_reframe's request is the system prompt, a blank line and the opening quote, then the thought verbatim, then the closing quote and the fixed instructions |
| Classifiers.ReframePromptInjective | agent/utils.py:68-69 | different thoughts give different requests |
| Classifiers.GeminiReframe | agent/utils.py:79-85 | a failed call gives the fixed apology; a successful one gives the completion with only surrounding whitespace removed |
| Classifiers.FlashModels | agent/utils.py:22-25 | the filtered names are all listed and contain both "gemini-2.5" and "flash"; the filter is empty iff no listed name matches |
| Classifiers.SelectModelName | agent/utils.py:20-28 | the chosen name is the default "gemini-flash-latest" or a listed name containing both markers |
| Classifiers.SelectsFirstFlash | agent/utils.py:26 | the first listed name containing both markers is chosen |
| Classifiers.SelectsDefault | agent/utils.py:26-28 | when listing fails or no name matches, the default is chosen |
| Models.ParseRole | agent/models.py:7-11 | a stored role value reads back as a role exactly when it is one of the three choices, and then names that role |
| Models.RoleRoundTrip | agent/models.py:7-11 | every role's stored value is a choice and reads back as the same role |
| Models.MessageStr | agent/models.py:24-25 | the rendering is the role in brackets, the first (at most) forty characters of the content, and "..." always |
| Models.ShortMessageStr | agent/models.py:24-25 | content of at most forty characters appears whole |
| Models.UserStr | agent/models.py:33-34 | a non-empty name is shown, otherwise the telex id; the rendering is empty only if the telex id is |
| Models.CheckinStr | agent/models.py:49-50 | the rendering is exactly "Checkin for ", the owner's telex id, then " on " and the day |
| Models.ReframeStr | agent/models.py:65-66 | the rendering is exactly "Reframe for ", the owner's telex id, then " (", the day and ")" |
| Models.AppendKeepsAscending | agent/models.py:44 | appending a record stamped no earlier than the clock keeps a table in ascending time and bounded by the new clock |
| Models.NewestFirst | agent/models.py:46-47 | the default ordering over a table kept in creation order lists the records in reverse |
| Models.NewestFirstIsDescending | agent/models.py:61-63 | for check-ins and reframes alike, that ordering is newest first when the table is ascending |
| Models.FindUser | agent/views.py:154-156 | a found user is in the table with that telex id; not found means no user has it |
| Models.AtMostOneUserPerTelexId | agent/models.py:30 | with unique telex ids, two users with the same telex id are the same user |
| Models.GetOrCreate | agent/views.py:33 | the user returned has the telex id and is in the table; an existing user is returned with the table unchanged, otherwise one new user with the next key and no name is appended |
| Models.GetOrCreateSpec | agent/views.py:32-33 | get-or-create keeps telex ids unique and keys in order, adds a user only when none has the id, and returns the user with that id |
| Models.GetOrCreateIdempotent | agent/views.py:33 | a second get-or-create with the same id returns the same user and creates nothing |
| Models.Database.GetOrCreateUser | agent/views.py:32-33 | the table and the user are exactly as get-or-create gives them, and the other tables and the clock are unchanged |
| Models.Database.AddMessage | agent/views.py:54 | exactly one message, stamped now and without a session id, is appended; the store stays valid |
| Models.Database.AddCheckin | agent/views.py:74 | exactly one check-in with the sentiment label and no mood is appended; the store stays valid |
| Models.Database.AddReframe | agent/views.py:111 | exactly one reframe of the text into the reply is appended; the store stays valid |
| Views.MessageTextSpec | agent/views.py:28 | the message text has no surrounding whitespace, and it is empty exactly when the message is missing or all whitespace |
| Views.ResolveUserId | agent/views.py:29 | the user id is never empty: a non-empty user_id, else a non-empty sender, else "anonymous" |
| Views.OwnedBy | agent/views.py:80 | the filter keeps exactly the owner's messages |
| Views.OwnedByAscending | agent/views.py:79-81 | the filter keeps creation order, so an ascending table stays ascending |
| Views.RecentContext | agent/views.py:79-84 | the context is the owner's last min(6, n) messages, oldest first |
| Views.RecentContextIsNewest | agent/views.py:79-84 | on an ascending table the context is ascending, and no message of the owner left out is newer than one kept |
| Views.Line | agent/views.py:88 | a transcript line is exactly the role label, ": " and the message content (pinned by length, prefix and suffix); it starts with "User: " exactly for user messages, "Assistant: " otherwise |
| Views.Transcript | agent/views.py:87-89 | no context gives the empty transcript; every message of the context appears as its line |
| Views.TranscriptSnoc | agent/views.py:84-89 | the transcript lists the context oldest first: one more message adds a newline and its line at the end |
| Views.EmptyHistoryTranscript | agent/views.py:87-89 | an owner without messages gets the empty transcript |
| Views.TranscriptEndsWithLatest | agent/views.py:87-89 | right after a user message is recorded, the transcript's last line is "User: " followed by that message |
| Views.ContextReframePrompt | agent/views.py:96-102 | the context-aware reframe request is exactly the fixed introduction, the transcript, the lead-in ending in an opening quote, the latest message, and the closing instruction starting with the closing quote (pinned by length and the position of each part) |
| Views.ChatPrompt | agent/views.py:119-124 | the chat request is exactly the fixed introduction, the transcript, the "User: " lead-in, the latest message and the closing instruction (pinned by length and the position of each part) |
| Views.TakesReframePath | agent/views.py:92 | of detect_sentiment's three labels only "negative" selects the reframe path |
| Views.Reply | agent/views.py:92-129 | a successful completion is returned stripped; a failed one gives gemini_reframe's answer on the reframe path and the chat apology otherwise |
| Views.PromptsSent | agent/views.py:92-129 | one request, plus gemini_reframe's own only when the reframe path's first call fails; the first carries the transcript and every one carries the message |
| Views.ExpectedTurn | agent/views.py:41-141 | the answer is recorded as the last assistant message whenever it is 200; the generic error comes exactly when the reply write fails, or for a non-empty message when its own write fails or, off the crisis path, the history read fails |
| Views.WelcomePath | agent/views.py:41-51 | only the welcome text is recorded and returned, unless that write fails; no check-in, reframe or request |
| Views.CrisisPath | agent/views.py:57-69 | the message, a "risk" check-in of the text unless that write fails, and the crisis text are recorded; no reframe or request; 500 exactly when the reply write fails |
| Views.ConversationPath | agent/views.py:71-134 | the message is recorded first; the check-in is missing exactly when its write fails; prompts are sent exactly when the history read succeeds; 500 exactly when the history read or the reply write fails; reframes only on the reframe path, of the text into the reply |
| Views.HistoryReadFailureTurn | agent/views.py:79-84 | when the history read raises, the message and check-in are kept, no reframe or assistant message is stored, nothing is sent, and the answer is the generic error (lines 136-141) |
| Views.EmptyInputTurn | agent/views.py:41-51 | an empty message records and returns only the welcome text: no user message, check-in, reframe or completion request |
| Views.CrisisTurn | agent/views.py:57-69 | a crisis message records the message, a "risk" check-in unless that write fails, and the crisis text; it returns the crisis text, stores no reframe, sends nothing for completion, and does not depend on the completion outcomes |
| Views.ConversationTurn | agent/views.py:71-134 | any other message, when its own write, the history read and the reply write succeed, records itself and one assistant message equal to the reply returned; the check-in carries the sentiment; a reframe into that reply is stored iff the sentiment is negative; the reply is the stripped completion, else gemini_reframe's answer or the chat fallback; failed check-in or reframe writes do not change the reply |
| Views.TakesConversationPath | agent/views.py:71-92 | a non-empty, non-crisis message whose record was written follows the conversation path with its own sentiment and the transcript that ends with it |
| Views.ConversationPrompts | agent/views.py:92-125 | a negative message sends a context-aware reframe request, then gemini_reframe's own request only if the first fails; any other message sends one chat request |
| Views.PromptEndsTranscriptWithLatest | agent/views.py:79-124 | the prompts sent quote a transcript whose last line is the message just recorded |
| Views.HandleMessage | agent/views.py:20-141 | a failed user lookup changes nothing and answers the user-data error; otherwise the users table is as get-or-create gives it, and each table and the answer and prompts are exactly as ExpectedTurn gives them; the store stays valid |
| Views.Respond | agent/views.py:41-134 | for a resolved user, the tables, answer and prompts follow ExpectedTurn |
| Views.Welcome | agent/views.py:41-51 | the empty-message path appends what WelcomePath gives |
| Views.Crisis | agent/views.py:57-69 | the crisis path appends what CrisisPath gives |
| Views.Converse | agent/views.py:71-134 | the conversation path appends what ConversationPath gives |
| Views.RecordCheckin | agent/views.py:72-76 | the check-in is appended unless its write fails, and nothing else changes |
| Views.ComposeReply | agent/views.py:92-129 | the reply and prompts are exactly Reply's and PromptsSent's for the sentiment's path |
| Views.Deliver | agent/views.py:109-134 | the reframe is stored on the reframe path unless its write fails; then the reply is recorded and returned, or the generic error is returned if that write fails |
| Views.SummaryUserId | agent/views.py:147-151 | the summary's user id is the POST body's or the query's non-empty user_id, else "anonymous"; never empty |
| Views.RecentCheckins | agent/views.py:159 | exactly the owner's check-ins stamped at or after the cut-off are kept |
| Views.RecentCheckinsAscending | agent/views.py:159 | on an ascending table the kept check-ins come out in ascending time |
| Views.SummaryLine | agent/views.py:165 | a summary line is exactly the date, ": ", the check-in text, a space and the bracketed sentiment, "None" when missing (pinned by length and the position of each part) |
| Views.SummaryPrompt | agent/views.py:166-171 | the summary request starts with the fixed intro, ends with the fixed ask and contains every line |
| Views.SummaryPromptSnoc | agent/views.py:165-171 | the summary lists the lines in order: one more line comes after a newline right before the fixed instructions, and the earlier text before the instructions is kept as a prefix |
| Views.WeeklySummary | agent/views.py:144-180 | 404 with the fixed text and no request exactly when the user is unknown, else 200; with a request, the stripped completion or the fixed apology comes back |
| Views.WeeklySummaryOutcomes | agent/views.py:144-180 | an unknown user gets 404 and no request; a user without check-ins in seven days gets the fixed text and no request; otherwise one request lists one line per such check-in, and the stripped completion or the fixed apology comes back with 200 |
| Views.SummaryListsWeekInOrder | agent/views.py:158-168 | the summary has one line per check-in of the owner in the last seven days, in ascending time |
| Views.MessageHistory | agent/views.py:185 | the history holds min(20, n) messages, the i-th being the i-th newest |
| Views.MessageHistoryIsNewest | agent/views.py:185 | on an ascending table the history is newest first, and no message left out is newer than one returned |

## Left out

- Calls to the completion service, including model construction inside the
  handlers, are inputs (`Option<string>`), not effects. A failure to build the
  model is folded into the call's outcome.
- `get_gemini_model` returns a model object. Only the choice of its name is
  modelled (`SelectModelName`). The listing call's result is an input.
- The Django and REST framework layers are not modelled: routing, request
  parsing, serializers and response objects. The `message` field and the user
  id fields are taken to be strings or absent.
- Non-string request values are not modelled. In the source a falsy one
  counts as absent. A truthy non-string message raises on `.strip()` and ends
  in the generic 500. A non-string user id is converted to text by the
  storage layer.
- Logging and `print` have no effect on results and are left out.
- A missing API key is not modelled separately. It makes every completion
  call fail, which the `None` outcome of each call already covers.
- Lower-casing, `\w`, `\b` and whitespace are ASCII only. Unicode letters and
  spaces are treated as other characters.
- Timestamps are integers stamped by the caller, one per request. Date
  rendering (`.date()`, `strftime`) is a parameter or a string argument.
  Ties in ordering keep insertion order. The source leaves the order of equal
  timestamps to the database.
- User primary keys are sequence numbers, not random UUIDs.
- Concurrent get-or-create and the database races it can meet are not
  modelled. Requests are handled one at a time.
- Messages are always created without a session id. The source never sets
  one.
- `weekly_summary` failures other than the user not existing (a storage
  error while reading) are not modelled.
- A failing `list_models` is modelled; a failing `GenerativeModel`
  constructor at import time is not.
