/** The request handlers of `agent/views.py`: the per-message check-in
    pipeline (`handle_message`), the weekly summary and the message history.
    Each call to the completion service is an `Option<string>` input (None
    stands for the call raising); storage write failures are boolean inputs. */
module Views {
  import opened Wrappers
  import opened Text
  import opened Classifiers
  import opened Models

  // ---------------------------------------------------------------------------
  // Requests, responses, failures
  // ---------------------------------------------------------------------------

  /** The fields of the request body the handler reads. */
  datatype Request = Request(message: Option<string>, userId: Option<string>, sender: Option<string>)

  datatype Response = Response(body: string, status: int)

  /** Which storage operations raise during one request: resolving the user,
      writing the inbound message, the check-in, reading the message history,
      writing the reframe, and writing the assistant message (welcome, crisis
      or reply). */
  datatype Faults = Faults(userLookup: bool, inboundWrite: bool, checkinWrite: bool,
                           historyRead: bool, reframeWrite: bool, replyWrite: bool)

  const StatusOk := 200
  const StatusNotFound := 404
  const StatusServerError := 500

  const UserDataError := "Sorry, there was an issue accessing user data."
  const GenericError := "Something went wrong on our end. Please try again later."

  const WelcomeText :=
    "Hi 👋 I'm PocketTherapist — your AI check-in buddy.\n"
    + "You can say things like:\n"
    + "- 'I feel anxious today'\n"
    + "- 'I'm happy this morning!'\n"
    + "I'll listen, respond with empathy, and offer CBT-based reframes 💛"

  const CrisisText :=
    "I'm really sorry you're feeling this way 💛. "
    + "I’m not a crisis service, but I want you to be safe. "
    + "If you’re in immediate danger, please call your local emergency number. "
    + "In Kenya, you can reach Befrienders at +254 722 178 177."

  const ChatFallback := "I'm here with you, but I’m having trouble responding right now 💛."

  const RiskLabel := "risk"
  const Anonymous := "anonymous"

  /** The response of the outer exception handler. */
  const InternalError := Response(GenericError, StatusServerError)

  /** Python truthiness of an optional string: present and non-empty. */
  predicate Present(s: Option<string>)
  {
    s.Some? && s.value != ""
  }

  /** `(data.get("message") or "").strip()`. */
  function MessageText(req: Request): string
  {
    Strip(req.message.GetOr(""))
  }

  /** The message text carries no surrounding whitespace, and it is empty
      exactly when the message is missing or all whitespace. */
  lemma MessageTextSpec(req: Request)
    ensures var t := MessageText(req);
            t == [] || (!IsSpace(t[0]) && !IsSpace(t[|t| - 1]))
    ensures MessageText(req) == "" <==> req.message.None? || AllSpace(req.message.value)
  {
    StripEmptyIff(req.message.GetOr(""));
  }

  /** `data.get("user_id") or data.get("sender") or "anonymous"`. */
  function ResolveUserId(req: Request): (r: string)
    ensures r != ""
    ensures Present(req.userId) ==> r == req.userId.value
    ensures !Present(req.userId) && Present(req.sender) ==> r == req.sender.value
    ensures !Present(req.userId) && !Present(req.sender) ==> r == Anonymous
  {
    if Present(req.userId) then req.userId.value
    else if Present(req.sender) then req.sender.value
    else Anonymous
  }

  // ---------------------------------------------------------------------------
  // Conversation transcript
  // ---------------------------------------------------------------------------

  const HistoryWindow := 6

  /** `A2AMessage.objects.filter(user=owner)`, in creation order. */
  function OwnedBy(log: seq<Message>, owner: UserId): (r: seq<Message>)
    ensures |r| <= |log|
    ensures forall m :: m in r <==> m in log && m.user == Some(owner)
  {
    if log == [] then []
    else
      var last := log[|log| - 1];
      assert log == log[..|log| - 1] + [last];
      OwnedBy(log[..|log| - 1], owner) + (if last.user == Some(owner) then [last] else [])
  }

  lemma OwnedBySnoc(log: seq<Message>, m: Message, owner: UserId)
    ensures OwnedBy(log + [m], owner) ==
              OwnedBy(log, owner) + (if m.user == Some(owner) then [m] else [])
  {
    assert (log + [m])[..|log|] == log;
  }

  /** Filtering keeps the creation order, so an ascending log stays ascending. */
  lemma {:induction false} OwnedByAscending(log: seq<Message>, owner: UserId)
    requires Ascending(MessageTimes(log))
    ensures Ascending(MessageTimes(OwnedBy(log, owner)))
  {
    if log != [] {
      var init := log[..|log| - 1];
      var last := log[|log| - 1];
      assert MessageTimes(init) == MessageTimes(log)[..|log| - 1];
      OwnedByAscending(init, owner);
      var r0 := OwnedBy(init, owner);
      var r := OwnedBy(log, owner);
      assert r == r0 + (if last.user == Some(owner) then [last] else []);
      forall i, j | 0 <= i < j < |r|
        ensures MessageTimes(r)[i] <= MessageTimes(r)[j]
      {
        if j < |r0| {
          assert MessageTimes(r0)[i] <= MessageTimes(r0)[j];
        } else {
          assert r0[i] in r0;
          var k :| 0 <= k < |init| && init[k] == r0[i];
          assert MessageTimes(log)[k] <= MessageTimes(log)[|log| - 1];
        }
      }
    }
  }

  /** `.order_by("-created_at")[:6]` then `reversed(...)`: the owner's last
      (at most) six messages, oldest first. */
  function RecentContext(log: seq<Message>, owner: UserId): (r: seq<Message>)
    ensures var mine := OwnedBy(log, owner);
            var k := Min(HistoryWindow, |mine|);
            |r| == k && r == mine[|mine| - k..]
  {
    var mine := OwnedBy(log, owner);
    NewestWindow(mine, Min(HistoryWindow, |mine|));
    Reverse(Reverse(mine)[..Min(HistoryWindow, |mine|)])
  }

  /** On an ascending log the context is ascending, and none of the owner's
      messages left out of it is newer than one kept. */
  lemma RecentContextIsNewest(log: seq<Message>, owner: UserId)
    requires Ascending(MessageTimes(log))
    ensures var mine := OwnedBy(log, owner);
            var ctx := RecentContext(log, owner);
            (forall i, j :: 0 <= i < |mine| - |ctx| && 0 <= j < |ctx| ==>
               mine[i].createdAt <= ctx[j].createdAt)
            && Ascending(MessageTimes(ctx))
  {
    var mine := OwnedBy(log, owner);
    var k := Min(HistoryWindow, |mine|);
    OwnedByAscending(log, owner);
    var ctx := RecentContext(log, owner);
    forall i, j | 0 <= i < |mine| - |ctx| && 0 <= j < |ctx|
      ensures mine[i].createdAt <= ctx[j].createdAt
    {
      assert ctx[j] == mine[|mine| - k + j];
      assert MessageTimes(mine)[i] <= MessageTimes(mine)[|mine| - k + j];
    }
    forall i, j | 0 <= i < j < |ctx|
      ensures MessageTimes(ctx)[i] <= MessageTimes(ctx)[j]
    {
      assert MessageTimes(mine)[|mine| - k + i] <= MessageTimes(mine)[|mine| - k + j];
    }
  }

  function RoleLabel(role: Role): string
  {
    if role == UserRole then "User" else "Assistant"
  }

  /** One transcript line, `f"{'User' if r == 'user' else 'Assistant'}: {c}"`:
      the content after a label that reads "User" exactly for the user role,
      so system messages are labelled as the assistant's. */
  function Line(m: Message): (r: string)
    ensures |r| == |RoleLabel(m.role)| + 2 + |m.content|
    ensures StartsWith(r, RoleLabel(m.role) + ": ")
    ensures EndsWith(r, m.content)
    ensures StartsWith(r, "User: ") <==> m.role == UserRole
    ensures m.role != UserRole ==> StartsWith(r, "Assistant: ")
  {
    var r := RoleLabel(m.role) + ": " + m.content;
    assert r[0] == RoleLabel(m.role)[0];
    r
  }

  function Lines(ms: seq<Message>): seq<string>
  {
    seq(|ms|, i requires 0 <= i < |ms| => Line(ms[i]))
  }

  /** `history_text`: the context lines joined by newlines. It is empty
      without context, and holds the line of every message of the context. */
  function Transcript(log: seq<Message>, owner: UserId): (r: string)
    ensures RecentContext(log, owner) == [] ==> r == ""
    ensures var ctx := RecentContext(log, owner);
            forall k :: 0 <= k < |ctx| ==> IsSubstring(Line(ctx[k]), r)
  {
    LinesJoined(RecentContext(log, owner));
    Join(Lines(RecentContext(log, owner)), "\n")
  }

  lemma LinesJoined(ctx: seq<Message>)
    ensures ctx == [] ==> Join(Lines(ctx), "\n") == ""
    ensures forall k :: 0 <= k < |ctx| ==> IsSubstring(Line(ctx[k]), Join(Lines(ctx), "\n"))
  {
    JoinHoldsItems(Lines(ctx), "\n");
    forall k | 0 <= k < |ctx|
      ensures IsSubstring(Line(ctx[k]), Join(Lines(ctx), "\n"))
    {
      assert Lines(ctx)[k] == Line(ctx[k]);
    }
  }

  /** An owner without messages gets the empty transcript. */
  lemma EmptyHistoryTranscript(log: seq<Message>, owner: UserId)
    requires forall m :: m in log ==> m.user != Some(owner)
    ensures Transcript(log, owner) == ""
  {
    OwnedByNone(log, owner);
  }

  lemma {:induction false} OwnedByNone(log: seq<Message>, owner: UserId)
    requires forall m :: m in log ==> m.user != Some(owner)
    ensures OwnedBy(log, owner) == []
  {
    if log != [] {
      assert log[|log| - 1] in log;
      OwnedByNone(log[..|log| - 1], owner);
    }
  }

  lemma LinesSnoc(ms: seq<Message>, m: Message)
    ensures Lines(ms + [m]) == Lines(ms) + [Line(m)]
  {
  }

  /** The transcript lists the context oldest first: one more message adds
      a newline and its line at the end. */
  lemma {:induction false} TranscriptSnoc(ctx: seq<Message>, m: Message)
    requires ctx != []
    ensures Join(Lines(ctx + [m]), "\n") == Join(Lines(ctx), "\n") + "\n" + Line(m)
  {
    LinesSnoc(ctx, m);
    JoinSnoc(Lines(ctx), Line(m), "\n");
  }

  lemma JoinEndsWithLast(xs: seq<string>, x: string, sep: string)
    ensures EndsWith(Join(xs + [x], sep), x)
  {
    JoinSnoc(xs, x, sep);
  }

  /** The window over a log that ends with one of the owner's messages ends
      with that message. */
  lemma ContextEndsWith(log: seq<Message>, m: Message, owner: UserId)
    requires m.user == Some(owner)
    ensures var ctx := RecentContext(log + [m], owner);
            |ctx| >= 1 && ctx == ctx[..|ctx| - 1] + [m]
  {
    OwnedBySnoc(log, m, owner);
    var ctx := RecentContext(log + [m], owner);
    assert ctx[|ctx| - 1] == m;
  }

  /** The message just recorded for the owner is the last line of the
      transcript built right afterwards. */
  lemma TranscriptEndsWithLatest(log: seq<Message>, owner: UserId, text: string, now: int)
    ensures var latest := Message(Some(owner), UserRole, text, now, None);
            EndsWith(Transcript(log + [latest], owner), "User: " + text)
  {
    var latest := Message(Some(owner), UserRole, text, now, None);
    ContextEndsWith(log, latest, owner);
    var ctx := RecentContext(log + [latest], owner);
    var init := ctx[..|ctx| - 1];
    LinesSnoc(init, latest);
    assert Line(latest) == "User: " + text;
    JoinEndsWithLast(Lines(init), Line(latest), "\n");
  }

  // ---------------------------------------------------------------------------
  // Prompts and replies
  // ---------------------------------------------------------------------------

  const ReframeIntro := "You are PocketTherapist, a compassionate CBT-based AI.\n"
                        + "Here's the recent conversation:\n"
  const LatestLead := "\n\nUser's latest message: \""
  const ReframeAsk := "\"\n" + "Reframe their negative thought empathetically. Keep it short and warm."

  const ChatIntro := "You are PocketTherapist, a kind and conversational AI.\n"
                     + "Recent conversation:\n"
  const ChatLead := "\n\nUser: "
  const ChatAsk := "\n" + "Respond in 3–4 sentences. Stay warm, reflective, and encouraging."

  /** Where each of five parts sits in their concatenation. */
  lemma Placed(a: string, x: string, b: string, y: string, c: string)
    ensures StartsWith(a + x + b + y + c, a)
    ensures OccursAt(x, a + x + b + y + c, |a|)
    ensures OccursAt(b, a + x + b + y + c, |a| + |x|)
    ensures OccursAt(y, a + x + b + y + c, |a| + |x| + |b|)
    ensures EndsWith(a + x + b + y + c, c)
  {
    assert a + x + b + y + c == a + (x + (b + (y + c)));
  }

  /** The prompt of the reframe path: the fixed introduction, the transcript,
      the lead-in, the latest message in double quotes and the closing
      instruction, in that order and nothing else. */
  function ContextReframePrompt(history: string, text: string): (r: string)
    ensures |r| == |ReframeIntro| + |history| + |LatestLead| + |text| + |ReframeAsk|
    ensures StartsWith(r, ReframeIntro)
    ensures OccursAt(history, r, |ReframeIntro|)
    ensures OccursAt(LatestLead, r, |ReframeIntro| + |history|)
    ensures OccursAt(text, r, |ReframeIntro| + |history| + |LatestLead|)
    ensures EndsWith(r, ReframeAsk)
    ensures r[|ReframeIntro| + |history| + |LatestLead| - 1] == '"'
    ensures r[|ReframeIntro| + |history| + |LatestLead| + |text|] == '"'
  {
    Placed(ReframeIntro, history, LatestLead, text, ReframeAsk);
    ReframeIntro + history + LatestLead + text + ReframeAsk
  }

  /** The prompt of the conversational path: the fixed introduction, the
      transcript, the "User: " lead-in, the latest message and the closing
      instruction, in that order and nothing else. */
  function ChatPrompt(history: string, text: string): (r: string)
    ensures |r| == |ChatIntro| + |history| + |ChatLead| + |text| + |ChatAsk|
    ensures StartsWith(r, ChatIntro)
    ensures OccursAt(history, r, |ChatIntro|)
    ensures OccursAt(ChatLead, r, |ChatIntro| + |history|)
    ensures OccursAt(text, r, |ChatIntro| + |history| + |ChatLead|)
    ensures EndsWith(r, ChatAsk)
  {
    Placed(ChatIntro, history, ChatLead, text, ChatAsk);
    ChatIntro + history + ChatLead + text + ChatAsk
  }

  const ReframeAffects: seq<string> := ["negative", "sad", "depressed", "angry", "anxious"]

  /** `sentiment.lower() in [...]`: the test that selects the reframe path.
      Of detect_sentiment's three labels, only "negative" passes it. */
  function TakesReframePath(sentiment: string): (r: bool)
    ensures sentiment == NegativeLabel ==> r
    ensures sentiment == PositiveLabel || sentiment == NeutralLabel ==> !r
  {
    assert Lower(NegativeLabel) == NegativeLabel;
    assert Lower(PositiveLabel) == PositiveLabel;
    assert Lower(NeutralLabel) == NeutralLabel;
    Lower(sentiment) in ReframeAffects
  }

  /** The reply of the non-crisis paths: the completion with only surrounding
      whitespace removed; when the call fails, gemini_reframe on the reframe
      path and the fixed sorry-text otherwise. */
  function Reply(sentiment: string, primary: Option<string>, fallback: Option<string>): (r: string)
    ensures primary.Some? ==> TrimmedFrom(r, primary.value)
    ensures primary.None? && TakesReframePath(sentiment) ==> r == GeminiReframe(fallback)
    ensures primary.None? && !TakesReframePath(sentiment) ==> r == ChatFallback
  {
    match primary
    case Some(c) => Strip(c)
    case None => if TakesReframePath(sentiment) then GeminiReframe(fallback) else ChatFallback
  }

  /** The prompts handed to the completion service on the non-crisis paths:
      one request carrying the transcript, followed by gemini_reframe's own
      request only after a failed first call on the reframe path. Every
      request quotes the user's message. */
  function PromptsSent(sentiment: string, history: string, text: string, primary: Option<string>): (r: seq<string>)
    ensures |r| == if TakesReframePath(sentiment) && primary.None? then 2 else 1
    ensures IsSubstring(history, r[0])
    ensures forall k :: 0 <= k < |r| ==> IsSubstring(text, r[k])
  {
    if TakesReframePath(sentiment) then
      var q := ReframePrompt(text);
      assert OccursAt(text, q, |ReframeHead|);
      [ContextReframePrompt(history, text)] + (if primary.None? then [q] else [])
    else
      [ChatPrompt(history, text)]
  }

  /** The completion step of the conversation path, step by step as the
      handler runs it: the reframe path asks for a context-aware reframe and
      falls back to gemini_reframe; the chat path asks for a chat reply and
      falls back to a fixed text. Its result is exactly Reply and PromptsSent. */
  method ComposeReply(sentiment: string, history: string, text: string,
                      primary: Option<string>, fallback: Option<string>)
    returns (reply: string, prompts: seq<string>)
    ensures reply == Reply(sentiment, primary, fallback)
    ensures prompts == PromptsSent(sentiment, history, text, primary)
  {
    if TakesReframePath(sentiment) {
      prompts := [ContextReframePrompt(history, text)];
      match primary {
        case Some(c) =>
          reply := Strip(c);
        case None =>
          prompts := prompts + [ReframePrompt(text)];
          reply := GeminiReframe(fallback);
      }
    } else {
      prompts := [ChatPrompt(history, text)];
      match primary {
        case Some(c) =>
          reply := Strip(c);
        case None =>
          reply := ChatFallback;
      }
    }
  }

  // ---------------------------------------------------------------------------
  // One turn of handle_message, as a function
  // ---------------------------------------------------------------------------

  /** What one request appends to each log, what it answers, and which
      prompts it sends. */
  datatype Turn = Turn(messages: seq<Message>, checkins: seq<Checkin>, reframes: seq<Reframe>,
                       response: Response, prompts: seq<string>)

  function Said(owner: UserId, role: Role, content: string, now: int): Message
  {
    Message(Some(owner), role, content, now, None)
  }

  /** A turn that answers 200 has recorded its answer as the last assistant
      message; any other turn answers the generic error. */
  predicate RecordsAnswer(t: Turn, owner: UserId, now: int)
  {
    if t.response.status == StatusOk then
      t.messages != [] && t.messages[|t.messages| - 1] == Said(owner, AssistantRole, t.response.body, now)
    else t.response == InternalError
  }

  /** handle_message after the user has been resolved to `owner`, given the
      message log `log` as it stood before the request. The answer is
      recorded before it is returned, and the generic error comes back
      exactly when an unguarded storage operation fails: the assistant
      message, the inbound message, or the history read of the conversation
      path. */
  function ExpectedTurn(log: seq<Message>, owner: UserId, text: string, now: int, faults: Faults,
                        primary: Option<string>, fallback: Option<string>): (t: Turn)
    ensures RecordsAnswer(t, owner, now)
    ensures t.response == InternalError <==>
              faults.replyWrite || (text != "" && (faults.inboundWrite || (!DetectRisk(text) && faults.historyRead)))
  {
    if text == "" then WelcomePath(owner, now, faults)
    else if faults.inboundWrite then Turn([], [], [], InternalError, [])
    else if DetectRisk(text) then CrisisPath(owner, text, now, faults)
    else ConversationPath(owner, text, now, faults, DetectSentiment(text),
                          Transcript(log + [Said(owner, UserRole, text, now)], owner), primary, fallback)
  }

  /** The empty-message path: the welcome text, recorded and returned; no
      check-in, no reframe, no completion request. */
  function WelcomePath(owner: UserId, now: int, faults: Faults): (t: Turn)
    ensures RecordsAnswer(t, owner, now)
    ensures t.checkins == [] && t.reframes == [] && t.prompts == []
    ensures t.response == InternalError <==> faults.replyWrite
    ensures !faults.replyWrite ==> |t.messages| == 1 && t.response.body == WelcomeText
  {
    if faults.replyWrite then Turn([], [], [], InternalError, [])
    else Turn([Said(owner, AssistantRole, WelcomeText, now)], [], [], Response(WelcomeText, StatusOk), [])
  }

  /** The crisis path: the user's message first, a "risk" check-in unless its
      write fails, and the crisis text, recorded and returned; no reframe and
      no completion request. */
  function CrisisPath(owner: UserId, text: string, now: int, faults: Faults): (t: Turn)
    ensures RecordsAnswer(t, owner, now)
    ensures t.messages != [] && t.messages[0] == Said(owner, UserRole, text, now)
    ensures t.reframes == [] && t.prompts == []
    ensures t.checkins == [] <==> faults.checkinWrite
    ensures forall c :: c in t.checkins ==> c.sentiment == Some(RiskLabel) && c.text == text
    ensures t.response == InternalError <==> faults.replyWrite
    ensures !faults.replyWrite ==> |t.messages| == 2 && t.response.body == CrisisText
  {
    var inbound := Said(owner, UserRole, text, now);
    var checkins := if faults.checkinWrite then [] else [Checkin(owner, text, None, Some(RiskLabel), now)];
    if faults.replyWrite then Turn([inbound], checkins, [], InternalError, [])
    else Turn([inbound, Said(owner, AssistantRole, CrisisText, now)], checkins, [], Response(CrisisText, StatusOk), [])
  }

  /** The conversation path of a turn, given the sentiment label and the
      transcript built once the user's message is recorded. The user's
      message comes first; the check-in is written before the history is
      read; a failed history read sends nothing and ends in the generic
      error; a stored reframe turns the text into the reply returned. */
  function ConversationPath(owner: UserId, text: string, now: int, faults: Faults, sentiment: string,
                            history: string, primary: Option<string>, fallback: Option<string>): (t: Turn)
    ensures RecordsAnswer(t, owner, now)
    ensures t.messages != [] && t.messages[0] == Said(owner, UserRole, text, now)
    ensures t.checkins == [] <==> faults.checkinWrite
    ensures t.prompts == [] <==> faults.historyRead
    ensures t.response == InternalError <==> faults.historyRead || faults.replyWrite
    ensures forall f :: f in t.reframes ==>
              TakesReframePath(sentiment) && f.originalText == text
              && (t.response.status == StatusOk ==> f.reframedText == t.response.body)
  {
    var inbound := Said(owner, UserRole, text, now);
    var checkins := if faults.checkinWrite then [] else [Checkin(owner, text, None, Some(sentiment), now)];
    if faults.historyRead then Turn([inbound], checkins, [], InternalError, [])
    else
      var reply := Reply(sentiment, primary, fallback);
      var reframes := if TakesReframePath(sentiment) && !faults.reframeWrite
                      then [Reframe(owner, text, reply, now)] else [];
      var prompts := PromptsSent(sentiment, history, text, primary);
      if faults.replyWrite then Turn([inbound], checkins, reframes, InternalError, prompts)
      else Turn([inbound, Said(owner, AssistantRole, reply, now)], checkins, reframes,
                Response(reply, StatusOk), prompts)
  }

  /** Empty input: only the welcome text is recorded and returned; no user
      message, no check-in, no reframe, no completion request. */
  lemma EmptyInputTurn(log: seq<Message>, owner: UserId, now: int, faults: Faults,
                       primary: Option<string>, fallback: Option<string>)
    requires !faults.replyWrite
    ensures ExpectedTurn(log, owner, "", now, faults, primary, fallback)
              == Turn([Said(owner, AssistantRole, WelcomeText, now)], [], [], Response(WelcomeText, StatusOk), [])
  {
  }

  /** Crisis input: the user message, a "risk" check-in (unless its write
      fails) and the crisis text are recorded, the crisis text is returned, no
      reframe is stored, nothing is sent for completion, and none of this
      depends on what the completion service would have answered. */
  lemma CrisisTurn(log: seq<Message>, owner: UserId, text: string, now: int, faults: Faults,
                   primary: Option<string>, fallback: Option<string>,
                   primary': Option<string>, fallback': Option<string>)
    requires text != "" && DetectRisk(text)
    requires !faults.inboundWrite && !faults.replyWrite
    ensures var t := ExpectedTurn(log, owner, text, now, faults, primary, fallback);
            t.messages == [Said(owner, UserRole, text, now), Said(owner, AssistantRole, CrisisText, now)]
            && t.checkins == (if faults.checkinWrite then [] else [Checkin(owner, text, None, Some(RiskLabel), now)])
            && t.reframes == [] && t.prompts == []
            && t.response == Response(CrisisText, StatusOk)
            && t == ExpectedTurn(log, owner, text, now, faults, primary', fallback')
  {
  }

  /** A non-empty, non-crisis turn records the user message and exactly one
      assistant message whose content is the reply returned; its check-in
      carries detect_sentiment's label; a reframe of the text into that
      reply is stored exactly when the sentiment is "negative" (and its write
      succeeds); failed check-in or reframe writes do not change the reply. */
  lemma ConversationTurn(log: seq<Message>, owner: UserId, text: string, now: int, faults: Faults,
                         primary: Option<string>, fallback: Option<string>)
    requires text != "" && !DetectRisk(text)
    requires !faults.inboundWrite && !faults.historyRead && !faults.replyWrite
    ensures var t := ExpectedTurn(log, owner, text, now, faults, primary, fallback);
            var negative := DetectSentiment(text) == NegativeLabel;
            t.response.status == StatusOk
            && t.messages == [Said(owner, UserRole, text, now), Said(owner, AssistantRole, t.response.body, now)]
            && t.checkins == (if faults.checkinWrite then []
                              else [Checkin(owner, text, None, Some(DetectSentiment(text)), now)])
            && t.reframes == (if negative && !faults.reframeWrite
                              then [Reframe(owner, text, t.response.body, now)] else [])
            && (primary.None? && !negative ==> t.response.body == ChatFallback)
            && (primary.None? && negative ==> t.response.body == GeminiReframe(fallback))
            && (primary.Some? ==> t.response.body == Strip(primary.value))
    ensures forall c, r :: ExpectedTurn(log, owner, text, now, faults.(checkinWrite := c, reframeWrite := r),
                                        primary, fallback).response
                           == ExpectedTurn(log, owner, text, now, faults, primary, fallback).response
  {
    TakesConversationPath(log, owner, text, now, faults, primary, fallback);
  }

  /** A failed history read on the conversation path: the user message and
      the check-in (unless its write fails) are already stored, nothing is
      sent for completion, no reframe or reply is stored, and the generic
      error comes back. */
  lemma HistoryReadFailureTurn(log: seq<Message>, owner: UserId, text: string, now: int, faults: Faults,
                               primary: Option<string>, fallback: Option<string>)
    requires text != "" && !DetectRisk(text)
    requires !faults.inboundWrite && faults.historyRead
    ensures var t := ExpectedTurn(log, owner, text, now, faults, primary, fallback);
            t.messages == [Said(owner, UserRole, text, now)]
            && t.checkins == (if faults.checkinWrite then []
                              else [Checkin(owner, text, None, Some(DetectSentiment(text)), now)])
            && t.reframes == [] && t.prompts == []
            && t.response == InternalError
  {
    TakesConversationPath(log, owner, text, now, faults, primary, fallback);
  }

  /** A non-empty text without a crisis phrase whose record was written takes
      the conversation path. */
  lemma TakesConversationPath(log: seq<Message>, owner: UserId, text: string, now: int,
                              faults: Faults, primary: Option<string>, fallback: Option<string>)
    requires text != "" && !DetectRisk(text) && !faults.inboundWrite
    ensures ExpectedTurn(log, owner, text, now, faults, primary, fallback)
            == ConversationPath(owner, text, now, faults, DetectSentiment(text),
                                Transcript(log + [Said(owner, UserRole, text, now)], owner), primary, fallback)
  {
  }

  /** A "negative" text is sent as a context-aware reframe request, followed
      by gemini_reframe's own request if that call fails; any other text as
      one chat request. */
  lemma ConversationPrompts(owner: UserId, text: string, now: int, faults: Faults, history: string,
                            primary: Option<string>, fallback: Option<string>)
    requires !faults.historyRead
    ensures var ps := ConversationPath(owner, text, now, faults, DetectSentiment(text), history,
                                       primary, fallback).prompts;
            var negative := DetectSentiment(text) == NegativeLabel;
            (!negative ==> ps == [ChatPrompt(history, text)])
            && (negative && primary.Some? ==> ps == [ContextReframePrompt(history, text)])
            && (negative && primary.None? ==> ps == [ContextReframePrompt(history, text), ReframePrompt(text)])
  {
  }

  /** On the non-crisis paths the prompts quote a transcript whose last line
      is the message just recorded. */
  lemma PromptEndsTranscriptWithLatest(log: seq<Message>, owner: UserId, text: string, now: int,
                                       faults: Faults, primary: Option<string>, fallback: Option<string>)
    requires text != "" && !DetectRisk(text) && !faults.inboundWrite && !faults.historyRead
    ensures var t := ExpectedTurn(log, owner, text, now, faults, primary, fallback);
            var history := Transcript(log + [Said(owner, UserRole, text, now)], owner);
            var negative := DetectSentiment(text) == NegativeLabel;
            EndsWith(history, "User: " + text)
            && (!negative ==> t.prompts == [ChatPrompt(history, text)])
            && (negative && primary.Some? ==> t.prompts == [ContextReframePrompt(history, text)])
            && (negative && primary.None? ==> t.prompts == [ContextReframePrompt(history, text), ReframePrompt(text)])
  {
    var history := Transcript(log + [Said(owner, UserRole, text, now)], owner);
    TakesConversationPath(log, owner, text, now, faults, primary, fallback);
    ConversationPrompts(owner, text, now, faults, history, primary, fallback);
    TranscriptEndsWithLatest(log, owner, text, now);
  }

  // ---------------------------------------------------------------------------
  // handle_message, step by step
  // ---------------------------------------------------------------------------

  /** handle_message: resolve the user, then answer the message. */
  method HandleMessage(db: Database, req: Request, now: int, faults: Faults,
                       primary: Option<string>, fallback: Option<string>)
    returns (resp: Response, prompts: seq<string>)
    requires db.Valid() && db.clock <= now
    modifies db
    ensures db.Valid()
    ensures faults.userLookup ==>
              resp == Response(UserDataError, StatusServerError) && prompts == [] && unchanged(db)
    ensures !faults.userLookup ==>
              var (users, u) := GetOrCreate(old(db.users), ResolveUserId(req));
              var t := ExpectedTurn(old(db.messages), u.id, MessageText(req), now, faults, primary, fallback);
              && db.users == users
              && db.messages == old(db.messages) + t.messages
              && db.checkins == old(db.checkins) + t.checkins
              && db.reframes == old(db.reframes) + t.reframes
              && resp == t.response && prompts == t.prompts
  {
    var text := MessageText(req);
    var telexId := ResolveUserId(req);
    if faults.userLookup {
      return Response(UserDataError, StatusServerError), [];
    }
    var user := db.GetOrCreateUser(telexId);
    resp, prompts := Respond(db, user.id, text, now, faults, primary, fallback);
  }

  /** The three paths of handle_message for a resolved user. */
  method Respond(db: Database, owner: UserId, text: string, now: int, faults: Faults,
                 primary: Option<string>, fallback: Option<string>)
    returns (resp: Response, prompts: seq<string>)
    requires db.Valid() && db.clock <= now && owner < |db.users|
    modifies db
    ensures db.Valid() && db.users == old(db.users)
    ensures var t := ExpectedTurn(old(db.messages), owner, text, now, faults, primary, fallback);
            && db.messages == old(db.messages) + t.messages
            && db.checkins == old(db.checkins) + t.checkins
            && db.reframes == old(db.reframes) + t.reframes
            && resp == t.response && prompts == t.prompts
  {
    if text == "" {
      resp, prompts := Welcome(db, owner, now, faults);
      return;
    }
    if faults.inboundWrite {
      return InternalError, [];
    }
    ghost var log := db.messages;
    db.AddMessage(Some(owner), UserRole, text, now);
    if DetectRisk(text) {
      resp, prompts := Crisis(db, owner, text, now, faults, log);
      return;
    }
    var sentiment := DetectSentiment(text);
    resp, prompts := Converse(db, owner, text, now, faults, sentiment, primary, fallback, log);
  }

  /** The empty-message path. */
  method Welcome(db: Database, owner: UserId, now: int, faults: Faults)
    returns (resp: Response, prompts: seq<string>)
    requires db.Valid() && db.clock <= now && owner < |db.users|
    modifies db
    ensures db.Valid() && db.users == old(db.users)
    ensures var t := WelcomePath(owner, now, faults);
            && db.messages == old(db.messages) + t.messages
            && db.checkins == old(db.checkins) + t.checkins
            && db.reframes == old(db.reframes) + t.reframes
            && resp == t.response && prompts == t.prompts
  {
    if faults.replyWrite {
      return InternalError, [];
    }
    db.AddMessage(Some(owner), AssistantRole, WelcomeText, now);
    return Response(WelcomeText, StatusOk), [];
  }

  /** The crisis path, entered with the user's message already recorded. */
  method Crisis(db: Database, owner: UserId, text: string, now: int, faults: Faults, ghost log: seq<Message>)
    returns (resp: Response, prompts: seq<string>)
    requires db.Valid() && db.clock <= now && owner < |db.users|
    requires db.messages == log + [Said(owner, UserRole, text, now)]
    modifies db
    ensures db.Valid() && db.users == old(db.users)
    ensures var t := CrisisPath(owner, text, now, faults);
            && log + t.messages == db.messages
            && db.checkins == old(db.checkins) + t.checkins
            && db.reframes == old(db.reframes) + t.reframes
            && resp == t.response && prompts == t.prompts
  {
    if !faults.checkinWrite {
      db.AddCheckin(owner, text, RiskLabel, now);
    }
    if faults.replyWrite {
      return InternalError, [];
    }
    db.AddMessage(Some(owner), AssistantRole, CrisisText, now);
    return Response(CrisisText, StatusOk), [];
  }

  /** The conversation path, entered with the user's message already recorded
      and its sentiment label computed: check-in, transcript, completion
      request, optional reframe, reply. */
  method Converse(db: Database, owner: UserId, text: string, now: int, faults: Faults, sentiment: string,
                  primary: Option<string>, fallback: Option<string>, ghost log: seq<Message>)
    returns (resp: Response, prompts: seq<string>)
    requires db.Valid() && db.clock <= now && owner < |db.users|
    requires db.messages == log + [Said(owner, UserRole, text, now)]
    modifies db
    ensures db.Valid() && db.users == old(db.users)
    ensures var t := ConversationPath(owner, text, now, faults, sentiment,
                                      Transcript(old(db.messages), owner), primary, fallback);
            && log + t.messages == db.messages
            && db.checkins == old(db.checkins) + t.checkins
            && db.reframes == old(db.reframes) + t.reframes
            && resp == t.response && prompts == t.prompts
  {
    RecordCheckin(db, owner, text, sentiment, now, faults);
    if faults.historyRead {
      HistoryUnread(owner, text, now, faults, sentiment, Transcript(db.messages, owner), primary, fallback);
      return InternalError, [];
    }
    var history := Transcript(db.messages, owner);
    var reply;
    reply, prompts := ComposeReply(sentiment, history, text, primary, fallback);
    resp := Deliver(db, owner, text, now, faults, TakesReframePath(sentiment), reply);
    HistoryRead(owner, text, now, faults, sentiment, history, primary, fallback);
    AppendTwice(log, Said(owner, UserRole, text, now), Said(owner, AssistantRole, reply, now));
  }

  /** A conversation path whose history read fails stops after the check-in. */
  lemma HistoryUnread(owner: UserId, text: string, now: int, faults: Faults, sentiment: string,
                      history: string, primary: Option<string>, fallback: Option<string>)
    requires faults.historyRead
    ensures ConversationPath(owner, text, now, faults, sentiment, history, primary, fallback)
            == Turn([Said(owner, UserRole, text, now)],
                    if faults.checkinWrite then [] else [Checkin(owner, text, None, Some(sentiment), now)],
                    [], InternalError, [])
  {
  }

  /** A conversation path whose history read succeeds goes on to the
      completion request, the reframe and the reply. */
  lemma HistoryRead(owner: UserId, text: string, now: int, faults: Faults, sentiment: string,
                    history: string, primary: Option<string>, fallback: Option<string>)
    requires !faults.historyRead
    ensures var t := ConversationPath(owner, text, now, faults, sentiment, history, primary, fallback);
            var reply := Reply(sentiment, primary, fallback);
            && t.messages == [Said(owner, UserRole, text, now)]
                             + (if faults.replyWrite then [] else [Said(owner, AssistantRole, reply, now)])
            && t.checkins == (if faults.checkinWrite then [] else [Checkin(owner, text, None, Some(sentiment), now)])
            && t.reframes == (if TakesReframePath(sentiment) && !faults.reframeWrite
                              then [Reframe(owner, text, reply, now)] else [])
            && t.prompts == PromptsSent(sentiment, history, text, primary)
            && t.response == (if faults.replyWrite then InternalError else Response(reply, StatusOk))
  {
  }

  /** Checkin.objects.create for the sentiment label; a failed write is
      skipped. */
  method RecordCheckin(db: Database, owner: UserId, text: string, sentiment: string, now: int, faults: Faults)
    requires db.Valid() && db.clock <= now && owner < |db.users|
    modifies db
    ensures db.Valid() && db.clock <= now
    ensures db.users == old(db.users) && db.messages == old(db.messages) && db.reframes == old(db.reframes)
    ensures db.checkins == old(db.checkins)
                           + (if faults.checkinWrite then [] else [Checkin(owner, text, None, Some(sentiment), now)])
  {
    if !faults.checkinWrite {
      db.AddCheckin(owner, text, sentiment, now);
    }
  }

  /** The end of the conversation path: the reframe is stored on the reframe
      path (a failed write is skipped), then the reply is recorded and
      returned (a failed write ends in the generic error). */
  method Deliver(db: Database, owner: UserId, text: string, now: int, faults: Faults,
                 reframing: bool, reply: string)
    returns (resp: Response)
    requires db.Valid() && db.clock <= now && owner < |db.users|
    modifies db
    ensures db.Valid()
    ensures db.users == old(db.users) && db.checkins == old(db.checkins)
    ensures db.reframes == old(db.reframes)
                           + (if reframing && !faults.reframeWrite then [Reframe(owner, text, reply, now)] else [])
    ensures faults.replyWrite ==> resp == InternalError && db.messages == old(db.messages)
    ensures !faults.replyWrite ==> resp == Response(reply, StatusOk)
                                   && db.messages == old(db.messages) + [Said(owner, AssistantRole, reply, now)]
  {
    if reframing && !faults.reframeWrite {
      db.AddReframe(owner, text, reply, now);
    }
    if faults.replyWrite {
      return InternalError;
    }
    db.AddMessage(Some(owner), AssistantRole, reply, now);
    resp := Response(reply, StatusOk);
  }

  // ---------------------------------------------------------------------------
  // weekly_summary
  // ---------------------------------------------------------------------------

  /** Seven days, in the seconds of the integer timestamps. */
  const Week := 7 * 24 * 60 * 60

  const NoDataText := "No data for that user."
  const NoCheckinsText := "No check-ins in the last 7 days."
  const SummaryFallback := "Sorry, unable to generate your summary right now."
  const SummaryIntro := "Here are the user's checkins for the past 7 days:\n"
  const SummaryAsk := "\n\nProvide a 120-word summary highlighting emotional trends, 3 recurring themes, "
                      + "and 3 practical mental health tips."

  /** The response, and the prompt sent for completion if any. */
  datatype Summary = Summary(response: Response, prompt: Option<string>)

  /** The user id of a summary request: from the body of a POST, from the
      query of a GET, "anonymous" when absent or empty. */
  function SummaryUserId(isPost: bool, body: Option<string>, query: Option<string>): (r: string)
    ensures r != ""
    ensures var given := if isPost then body else query;
            r == if Present(given) then given.value else Anonymous
  {
    var given := if isPost then body else query;
    if Present(given) then given.value else Anonymous
  }

  /** `user.checkins.filter(created_at__gte=since).order_by("created_at")`
      over a log kept in creation order. */
  function RecentCheckins(checkins: seq<Checkin>, owner: UserId, since: int): (r: seq<Checkin>)
    ensures |r| <= |checkins|
    ensures forall c :: c in r <==> c in checkins && c.user == owner && c.createdAt >= since
  {
    if checkins == [] then []
    else
      var last := checkins[|checkins| - 1];
      assert checkins == checkins[..|checkins| - 1] + [last];
      RecentCheckins(checkins[..|checkins| - 1], owner, since)
        + (if last.user == owner && last.createdAt >= since then [last] else [])
  }

  /** On an ascending log the selected check-ins come out in ascending time. */
  lemma {:induction false} RecentCheckinsAscending(checkins: seq<Checkin>, owner: UserId, since: int)
    requires Ascending(CheckinTimes(checkins))
    ensures Ascending(CheckinTimes(RecentCheckins(checkins, owner, since)))
  {
    if checkins != [] {
      var init := checkins[..|checkins| - 1];
      var last := checkins[|checkins| - 1];
      assert CheckinTimes(init) == CheckinTimes(checkins)[..|checkins| - 1];
      RecentCheckinsAscending(init, owner, since);
      var r0 := RecentCheckins(init, owner, since);
      var r := RecentCheckins(checkins, owner, since);
      assert r == r0 + (if last.user == owner && last.createdAt >= since then [last] else []);
      forall i, j | 0 <= i < j < |r|
        ensures CheckinTimes(r)[i] <= CheckinTimes(r)[j]
      {
        if j < |r0| {
          assert CheckinTimes(r0)[i] <= CheckinTimes(r0)[j];
        } else {
          assert r0[i] in r0;
          var k :| 0 <= k < |init| && init[k] == r0[i];
          assert CheckinTimes(checkins)[k] <= CheckinTimes(checkins)[|checkins| - 1];
        }
      }
    }
  }

  /** An f-string of a nullable column: None renders as "None". */
  function ColumnText(s: Option<string>): string
  {
    match s
    case Some(v) => v
    case None => "None"
  }

  /** The bracketed sentiment at the end of a summary line. */
  function SentimentTag(s: Option<string>): string
  {
    "[sentiment: " + ColumnText(s) + "]"
  }

  /** One summary line; `dateText` renders the calendar date of a timestamp.
      The line starts with the date, carries the check-in's text right after
      ": ", and ends with the tag in brackets ("None" for a missing one). */
  function SummaryLine(c: Checkin, dateText: int -> string): (r: string)
    ensures |r| == |dateText(c.createdAt)| + 2 + |c.text| + 1 + |SentimentTag(c.sentiment)|
    ensures StartsWith(r, dateText(c.createdAt))
    ensures OccursAt(": ", r, |dateText(c.createdAt)|)
    ensures OccursAt(c.text, r, |dateText(c.createdAt)| + 2)
    ensures OccursAt(" ", r, |dateText(c.createdAt)| + 2 + |c.text|)
    ensures EndsWith(r, SentimentTag(c.sentiment))
    ensures c.sentiment.None? ==> EndsWith(r, "[sentiment: None]")
  {
    var day := dateText(c.createdAt);
    var tag := SentimentTag(c.sentiment);
    Placed(day, ": ", c.text, " ", tag);
    day + ": " + c.text + " " + tag
  }

  function SummaryLines(cs: seq<Checkin>, dateText: int -> string): seq<string>
  {
    seq(|cs|, i requires 0 <= i < |cs| => SummaryLine(cs[i], dateText))
  }

  /** The summary request: the fixed introduction, the lines joined by
      newlines, and the fixed instructions; every line appears in it. */
  function SummaryPrompt(lines: seq<string>): (r: string)
    ensures StartsWith(r, SummaryIntro) && EndsWith(r, SummaryAsk)
    ensures forall k :: 0 <= k < |lines| ==> IsSubstring(lines[k], r)
  {
    var body := Join(lines, "\n");
    var r := SummaryIntro + body + SummaryAsk;
    JoinHoldsItems(lines, "\n");
    forall k | 0 <= k < |lines|
      ensures IsSubstring(lines[k], r)
    {
      var i :| OccursAt(lines[k], body, i);
      OccursWithin(lines[k], SummaryIntro, body, SummaryAsk, i);
    }
    assert r == SummaryIntro + (body + SummaryAsk);
    r
  }

  /** The summary lists the lines in their given order: one more line comes
      after a newline, right before the fixed instructions, and what preceded
      the instructions before is kept as a prefix. */
  lemma {:induction false} SummaryPromptSnoc(lines: seq<string>, l: string)
    requires lines != []
    ensures var before := SummaryPrompt(lines);
            var after := SummaryPrompt(lines + [l]);
            EndsWith(after, "\n" + l + SummaryAsk)
            && StartsWith(after, before[..|before| - |SummaryAsk|])
  {
    var body := Join(lines, "\n");
    assert SummaryPrompt(lines) == SummaryIntro + body + SummaryAsk;
    assert SummaryPrompt(lines + [l]) == SummaryIntro + (body + ("\n" + l)) + SummaryAsk by {
      JoinSnoc(lines, l, "\n");
      assert Join(lines + [l], "\n") == body + ("\n" + l);
    }
    GrowsBeforeTail(SummaryIntro, body, "\n" + l, SummaryAsk);
  }

  lemma GrowsBeforeTail(a: string, body: string, x: string, c: string)
    ensures EndsWith(a + (body + x) + c, x + c)
    ensures StartsWith(a + (body + x) + c, (a + body + c)[..|a + body + c| - |c|])
  {
    assert a + (body + x) + c == (a + body) + (x + c);
    assert (a + body + c)[..|a + body + c| - |c|] == a + body;
  }

  /** weekly_summary for the resolved user id, at time `now`: 404 exactly
      for an unknown user; a request is sent only with 200, and its answer
      is the completion with surrounding whitespace removed or the fixed
      apology. */
  function WeeklySummary(users: seq<User>, checkins: seq<Checkin>, telexId: string, now: int,
                         dateText: int -> string, completion: Option<string>): (r: Summary)
    ensures r.response.status == StatusOk || r.response.status == StatusNotFound
    ensures r.response.status == StatusNotFound <==> FindUser(users, telexId).None?
    ensures r.response.status == StatusNotFound ==> r.response.body == NoDataText && r.prompt.None?
    ensures r.prompt.Some? && completion.Some? ==> TrimmedFrom(r.response.body, completion.value)
    ensures r.prompt.Some? && completion.None? ==> r.response.body == SummaryFallback
  {
    match FindUser(users, telexId)
    case None => Summary(Response(NoDataText, StatusNotFound), None)
    case Some(u) =>
      var recent := RecentCheckins(checkins, u.id, now - Week);
      if recent == [] then Summary(Response(NoCheckinsText, StatusOk), None)
      else
        var prompt := SummaryPrompt(SummaryLines(recent, dateText));
        match completion
        case Some(c) => Summary(Response(Strip(c), StatusOk), Some(prompt))
        case None => Summary(Response(SummaryFallback, StatusOk), Some(prompt))
  }

  /** The four outcomes of weekly_summary: an unknown user gets 404 and no
      completion request; a user without check-ins in the last seven days gets
      the fixed text and no request; otherwise exactly one request is sent,
      listing one line per such check-in, and the stripped completion or the
      fixed apology comes back with 200. */
  lemma WeeklySummaryOutcomes(users: seq<User>, checkins: seq<Checkin>, telexId: string, now: int,
                              dateText: int -> string, completion: Option<string>)
    ensures var s := WeeklySummary(users, checkins, telexId, now, dateText, completion);
            (!exists u :: u in users && u.telexId == telexId) ==>
              s == Summary(Response(NoDataText, StatusNotFound), None)
    ensures forall u :: u in users && u.telexId == telexId && UniqueTelexIds(users) ==>
              var s := WeeklySummary(users, checkins, telexId, now, dateText, completion);
              var recent := RecentCheckins(checkins, u.id, now - Week);
              (recent == [] ==> s == Summary(Response(NoCheckinsText, StatusOk), None))
              && (recent != [] ==>
                    s.prompt == Some(SummaryPrompt(SummaryLines(recent, dateText)))
                    && s.response.status == StatusOk
                    && s.response.body == (if completion.Some? then Strip(completion.value) else SummaryFallback))
  {
    forall u | u in users && u.telexId == telexId && UniqueTelexIds(users)
      ensures FindUser(users, telexId) == Some(u)
    {
      AtMostOneUserPerTelexId(users, u, FindUser(users, telexId).value);
    }
  }

  /** The summary lists exactly the owner's check-ins of the last seven days,
      one line each, in ascending time when the log is kept in creation order. */
  lemma SummaryListsWeekInOrder(checkins: seq<Checkin>, owner: UserId, now: int, dateText: int -> string)
    requires Ascending(CheckinTimes(checkins))
    ensures var recent := RecentCheckins(checkins, owner, now - Week);
            |SummaryLines(recent, dateText)| == |recent|
            && (forall c :: c in recent <==> c in checkins && c.user == owner && c.createdAt >= now - Week)
            && Ascending(CheckinTimes(recent))
  {
    RecentCheckinsAscending(checkins, owner, now - Week);
  }

  // ---------------------------------------------------------------------------
  // message_history
  // ---------------------------------------------------------------------------

  const HistoryLimit := 20

  /** `A2AMessage.objects.order_by("-created_at")[:20]` over the whole log.
      The ensures lists the i-th newest by position; that the result is the
      newest messages in descending time is MessageHistoryIsNewest. */
  function MessageHistory(log: seq<Message>): (r: seq<Message>)
    ensures |r| == Min(HistoryLimit, |log|)
    ensures forall i :: 0 <= i < |r| ==> r[i] == log[|log| - 1 - i]
  {
    Reverse(log)[..Min(HistoryLimit, |log|)]
  }

  /** On a log in creation order the history is newest first, and no message
      left out is newer than one returned. */
  lemma MessageHistoryIsNewest(log: seq<Message>)
    requires Ascending(MessageTimes(log))
    ensures var r := MessageHistory(log);
            Descending(MessageTimes(r))
            && forall i, j :: 0 <= i < |log| - |r| && 0 <= j < |r| ==> log[i].createdAt <= r[j].createdAt
  {
    var r := MessageHistory(log);
    forall i, j | 0 <= i < j < |r|
      ensures MessageTimes(r)[i] >= MessageTimes(r)[j]
    {
      assert MessageTimes(log)[|log| - 1 - j] <= MessageTimes(log)[|log| - 1 - i];
    }
    forall i, j | 0 <= i < |log| - |r| && 0 <= j < |r|
      ensures log[i].createdAt <= r[j].createdAt
    {
      assert MessageTimes(log)[i] <= MessageTimes(log)[|log| - 1 - j];
    }
  }
}
