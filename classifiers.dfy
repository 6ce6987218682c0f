/** The text classifiers and the two decision rules of `agent/utils.py`:
    crisis-phrase detection, keyword sentiment, the reframe fallback and the
    choice of completion model. All of them are pure. */
module Classifiers {
  import opened Wrappers
  import opened Text

  // ---------------------------------------------------------------------------
  // Risk detection
  // ---------------------------------------------------------------------------

  /** The crisis phrases (NEGATIVE_KEYWORDS). */
  const RiskPhrases: seq<string> := [
    "kill myself", "suicide", "i want to die", "end my life", "worthless",
    "i can't go on", "hurt myself", "i'm done"
  ]

  predicate IsWordAt(s: string, k: int)
  {
    0 <= k < |s| && IsWordChar(s[k])
  }

  /** The regular-expression assertion `\b` at position `j` of `s`: a word
      character on exactly one side of `j`. */
  predicate WordBoundary(s: string, j: int)
  {
    IsWordAt(s, j - 1) != IsWordAt(s, j)
  }

  /** The pattern `\b<p>\b` matches `s` at index `i`. */
  predicate PhraseAt(p: string, s: string, i: int)
  {
    OccursAt(p, s, i) && WordBoundary(s, i) && WordBoundary(s, i + |p|)
  }

  /** The declarative reading: some phrase of `ps` matches somewhere in `s`. */
  ghost predicate HasPhrase(ps: seq<string>, s: string)
  {
    exists p, i :: p in ps && PhraseAt(p, s, i)
  }

  /** `re.search` for `\b<p>\b`, trying start positions from `i` onwards: it
      succeeds exactly when the phrase matches at some index at or after `i`. */
  function SearchFrom(p: string, s: string, i: nat): (r: bool)
    ensures r <==> exists j :: i <= j && PhraseAt(p, s, j)
    decreases |s| - i
  {
    if i + |p| > |s| then false
    else
      assert forall j :: i <= j && PhraseAt(p, s, j) ==> j == i || i + 1 <= j;
      PhraseAt(p, s, i) || SearchFrom(p, s, i + 1)
  }

  /** `any(re.search(...) for kw in ps)`: some listed phrase matches. */
  function AnyPhrase(ps: seq<string>, s: string): (r: bool)
    ensures r <==> HasPhrase(ps, s)
  {
    if ps == [] then false
    else
      assert forall p :: p in ps <==> p == ps[0] || p in ps[1..];
      SearchFrom(ps[0], s, 0) || AnyPhrase(ps[1..], s)
  }

  /** detect_risk: lower-case the text, then look for a crisis phrase delimited
      by word boundaries. It fires exactly when some crisis phrase occurs in
      the lower-cased text with a word boundary right before and after it. */
  function DetectRisk(text: string): (r: bool)
    ensures r <==> HasPhrase(RiskPhrases, Lower(text))
  {
    AnyPhrase(RiskPhrases, Lower(text))
  }

  /** The result does not depend on letter case: texts that agree after
      lower-casing are classified alike, and lower-casing first changes nothing. */
  lemma DetectRiskIgnoresCase(a: string, b: string)
    requires Lower(a) == Lower(b)
    ensures DetectRisk(a) == DetectRisk(b)
    ensures DetectRisk(Lower(a)) == DetectRisk(a)
  {
    LowerIsLower(a);
  }

  /** `p` starts and ends with a word character, so `\b` around it asks for a
      non-word character (or the end of the text) on each side. */
  predicate WordEdges(p: string)
  {
    |p| > 0 && IsWordChar(p[0]) && IsWordChar(p[|p| - 1])
  }

  lemma RiskPhrasesAreWords()
    ensures forall p :: p in RiskPhrases ==> WordEdges(p)
  {
    assert WordEdges("kill myself");
    assert WordEdges("suicide");
    assert WordEdges("i want to die");
    assert WordEdges("end my life");
    assert WordEdges("worthless");
    assert WordEdges("i can't go on");
    assert WordEdges("hurt myself");
    assert WordEdges("i'm done");
  }

  /** A phrase with word characters at both edges, placed between a
      non-word character (or the start) and a non-word character (or the
      end), matches `\b<p>\b` where it was placed. */
  lemma StandsAlone(before: string, p: string, after: string)
    requires WordEdges(p)
    requires before == [] || !IsWordChar(before[|before| - 1])
    requires after == [] || !IsWordChar(after[0])
    ensures PhraseAt(p, before + p + after, |before|)
  {
    var s := before + p + after;
    assert s == before + (p + after);
    assert s[|before|..|before| + |p|] == p;
    assert s[|before|] == p[0];
    assert s[|before| + |p| - 1] == p[|p| - 1];
    if before != [] {
      assert s[|before| - 1] == before[|before| - 1];
    }
    if after != [] {
      assert s[|before| + |p|] == after[0];
    }
  }

  /** A crisis phrase, in any letter case, standing on its own (at the ends of
      the text or next to non-word characters) makes detect_risk fire. */
  lemma WholePhraseFires(before: string, phrase: string, after: string)
    requires Lower(phrase) in RiskPhrases
    requires before == [] || !IsWordChar(before[|before| - 1])
    requires after == [] || !IsWordChar(after[0])
    ensures DetectRisk(before + phrase + after)
  {
    var p := Lower(phrase);
    var lb, la := Lower(before), Lower(after);
    LowerAppend(before + phrase, after);
    LowerAppend(before, phrase);
    RiskPhrasesAreWords();
    if before != [] {
      LowerKeepsWordChar(before[|before| - 1]);
      assert lb[|lb| - 1] == LowerChar(before[|before| - 1]);
    }
    if after != [] {
      LowerKeepsWordChar(after[0]);
      assert la[0] == LowerChar(after[0]);
    }
    StandsAlone(lb, p, la);
    assert |lb| == |before|;
    assert Lower(before + phrase + after) == lb + p + la;
  }

  /** A phrase that occurs only inside longer words (a word character right
      before or right after every occurrence) does not make detect_risk fire. */
  lemma PhraseInsideWordIgnored(text: string)
    requires forall p, i :: p in RiskPhrases && OccursAt(p, Lower(text), i) ==>
               IsWordAt(Lower(text), i - 1) || IsWordAt(Lower(text), i + |p|)
    ensures !DetectRisk(text)
  {
    RiskPhrasesAreWords();
  }

  /** A capitalised crisis word before a full stop fires. */
  lemma CapitalisedPhraseFires(text: string)
    requires text == "I feel WORTHLESS."
    ensures DetectRisk(text)
  {
    var before, phrase, after := text[..7], text[7..16], text[16..];
    assert text == before + phrase + after;
    assert phrase == "WORTHLESS";
    assert Lower(phrase) == "worthless";
    WholePhraseFires(before, phrase, after);
  }

  // ---------------------------------------------------------------------------
  // Sentiment detection
  // ---------------------------------------------------------------------------

  const NegativeWords: seq<string> := ["sad", "tired", "stressed", "anxious", "angry", "depressed"]
  const PositiveWords: seq<string> := ["happy", "good", "great", "relieved", "better", "okay"]

  const NegativeLabel := "negative"
  const PositiveLabel := "positive"
  const NeutralLabel := "neutral"

  ghost predicate MentionsAny(ws: seq<string>, s: string)
  {
    exists w :: w in ws && IsSubstring(w, s)
  }

  /** `any(w in s for w in ws)`: plain substring search, no word boundaries;
      it holds exactly when some listed word is a substring of `s`. */
  function AnyWord(ws: seq<string>, s: string): (r: bool)
    ensures r <==> MentionsAny(ws, s)
  {
    if ws == [] then false
    else
      ContainsSpec(s, ws[0]);
      assert forall w :: w in ws <==> w == ws[0] || w in ws[1..];
      Contains(s, ws[0]) || AnyWord(ws[1..], s)
  }

  /** detect_sentiment: negative words are checked first, then positive
      ones. Each of the three labels is stated as an if-and-only-if over which
      word lists occur in the lower-cased text. */
  function DetectSentiment(text: string): (r: string)
    ensures r == NegativeLabel || r == PositiveLabel || r == NeutralLabel
    ensures r == NegativeLabel <==> MentionsAny(NegativeWords, Lower(text))
    ensures r == PositiveLabel <==>
              !MentionsAny(NegativeWords, Lower(text)) && MentionsAny(PositiveWords, Lower(text))
    ensures r == NeutralLabel <==>
              !MentionsAny(NegativeWords, Lower(text)) && !MentionsAny(PositiveWords, Lower(text))
  {
    var txt := Lower(text);
    if AnyWord(NegativeWords, txt) then NegativeLabel
    else if AnyWord(PositiveWords, txt) then PositiveLabel
    else NeutralLabel
  }

  /** Negative words take priority: one of them anywhere in the text gives
      "negative", whatever positive words occur as well. */
  lemma NegativeTakesPriority(text: string, w: string, i: int)
    requires w in NegativeWords && OccursAt(w, Lower(text), i)
    ensures DetectSentiment(text) == NegativeLabel
  {
  }

  /** Matching is by plain substring with letter case folded: a negative word
      counts even inside a longer word ("sadness"), whatever surrounds it. */
  lemma NegativeInsideWordCounts(before: string, word: string, after: string)
    requires Lower(word) in NegativeWords
    ensures DetectSentiment(before + word + after) == NegativeLabel
  {
    LowerAppend(before + word, after);
    LowerAppend(before, word);
    Framed(Lower(before), Lower(word), Lower(after));
    NegativeTakesPriority(before + word + after, Lower(word), |before|);
  }

  /** Likewise a positive word inside a longer word ("goodbye") gives
      "positive" when no negative word occurs. */
  lemma PositiveInsideWordCounts(before: string, word: string, after: string)
    requires Lower(word) in PositiveWords
    requires !MentionsAny(NegativeWords, Lower(before + word + after))
    ensures DetectSentiment(before + word + after) == PositiveLabel
  {
    LowerAppend(before + word, after);
    LowerAppend(before, word);
    Framed(Lower(before), Lower(word), Lower(after));
    assert OccursAt(Lower(word), Lower(before + word + after), |before|);
  }

  lemma SadnessIsNegative()
    ensures DetectSentiment("sadness") == NegativeLabel
  {
    assert "" + "sad" + "ness" == "sadness";
    assert Lower("sad") == "sad";
    NegativeInsideWordCounts("", "sad", "ness");
  }

  lemma GoodbyeIsPositive()
    ensures DetectSentiment("Goodbye") == PositiveLabel
  {
    assert "" + "Good" + "bye" == "Goodbye";
    assert Lower("Good") == "good";
    assert Lower("Goodbye") == "goodbye";
    forall w | w in NegativeWords
      ensures !IsSubstring(w, "goodbye")
    {
      if 's' in w {
        MissingCharNotSubstring(w, "goodbye", 's');
      } else if 't' in w {
        MissingCharNotSubstring(w, "goodbye", 't');
      } else {
        MissingCharNotSubstring(w, "goodbye", 'a');
      }
    }
    PositiveInsideWordCounts("", "Good", "bye");
  }

  // ---------------------------------------------------------------------------
  // Reframe request and its fallback
  // ---------------------------------------------------------------------------

  const ReframeSystemPrompt :=
    "You are PocketTherapist, a compassionate, concise, non-judgmental "
    + "assistant helping users reframe negative thoughts. Keep replies short."

  const ReframeInstructions :=
    "Respond with:\n"
    + "1) A brief empathic reflection (1 sentence).\n"
    + "2) Identify possible cognitive distortion(s) (comma separated).\n"
    + "3) Offer 2 concise reframes (each a short sentence).\n"
    + "4) One small actionable step the user can take now.\n\n"
    + "If you detect suicidal intent, instead respond with a crisis-safety message "
    + "encouraging immediate help and providing resources."

  const ReframeApology :=
    "Sorry — I'm having trouble generating a reframe right now. Please try again later."

  const ThoughtLead := "User negative thought: \""

  /** Everything before the thought, and everything after it. */
  const ReframeHead := ReframeSystemPrompt + "\n\n" + ThoughtLead
  const ReframeTail := "\"\n\n" + ReframeInstructions

  lemma Framed(head: string, x: string, tail: string)
    ensures |head + x + tail| == |head| + |x| + |tail|
    ensures (head + x + tail)[..|head|] == head
    ensures (head + x + tail)[|head|..|head| + |x|] == x
    ensures (head + x + tail)[|head| + |x|..] == tail
  {
    assert head + x + tail == head + (x + tail);
  }

  /** The request gemini_reframe sends: the system prompt and a blank line,
      then the thought verbatim between double quotes, then the instructions
      (the tail starts with the closing quote). */
  function ReframePrompt(thought: string): (r: string)
    ensures |r| == |ReframeHead| + |thought| + |ReframeTail|
    ensures r[..|ReframeHead|] == ReframeHead
    ensures r[|ReframeHead|..|ReframeHead| + |thought|] == thought
    ensures r[|ReframeHead| + |thought|..] == ReframeTail
  {
    Framed(ReframeHead, thought, ReframeTail);
    ReframeHead + thought + ReframeTail
  }

  /** Different thoughts give different requests. */
  lemma ReframePromptInjective(thought: string, other: string)
    requires ReframePrompt(thought) == ReframePrompt(other)
    ensures thought == other
  {
    var p := ReframePrompt(thought);
    assert |thought| == |other|;
    assert thought == p[|ReframeHead|..|ReframeHead| + |thought|];
  }

  /** gemini_reframe given the outcome of its completion call: the stripped
      completion, or the fixed apology when the call failed. */
  function GeminiReframe(completion: Option<string>): (r: string)
    ensures completion.None? ==> r == ReframeApology
    ensures completion.Some? ==> TrimmedFrom(r, completion.value)
  {
    match completion
    case Some(c) => Strip(c)
    case None => ReframeApology
  }

  // ---------------------------------------------------------------------------
  // Model selection
  // ---------------------------------------------------------------------------

  const DefaultModelName := "gemini-flash-latest"

  predicate IsFlash25(name: string)
  {
    Contains(name, "gemini-2.5") && Contains(name, "flash")
  }

  /** The list comprehension of listed names containing both markers. */
  function FlashModels(names: seq<string>): (r: seq<string>)
    ensures forall n :: n in r ==> n in names && IsFlash25(n)
    ensures r == [] <==> forall n :: n in names ==> !IsFlash25(n)
  {
    if names == [] then []
    else (if IsFlash25(names[0]) then [names[0]] else []) + FlashModels(names[1..])
  }

  /** get_gemini_model's choice of name; `None` stands for the listing call
      raising. */
  function SelectModelName(listing: Option<seq<string>>): (r: string)
    ensures r == DefaultModelName || (listing.Some? && r in listing.value && IsFlash25(r))
  {
    match listing
    case None => DefaultModelName
    case Some(names) =>
      var available := FlashModels(names);
      if available != [] then available[0] else DefaultModelName
  }

  /** The first listed name containing both "gemini-2.5" and "flash" is chosen. */
  lemma {:induction false} SelectsFirstFlash(names: seq<string>, i: int)
    requires 0 <= i < |names| && IsFlash25(names[i])
    requires forall j :: 0 <= j < i ==> !IsFlash25(names[j])
    ensures SelectModelName(Some(names)) == names[i]
  {
    if i > 0 {
      SelectsFirstFlash(names[1..], i - 1);
    }
  }

  /** Without a matching name, or when listing fails, the default is used. */
  lemma SelectsDefault(listing: Option<seq<string>>)
    requires listing.Some? ==> forall n :: n in listing.value ==> !IsFlash25(n)
    ensures SelectModelName(listing) == DefaultModelName
  {
  }
}
