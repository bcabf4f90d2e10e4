/** The `AIService` component of app.py: seven text-generation operations that
    either parse the remote completion's reply or fall back to fixed text with a
    token count of 0. The remote call itself is foreign; each operation takes
    what it did for that request as a `Remote` value. */
module AiService {
  import opened Text
  import opened Options

  /** The outcome of one completion request: the reply text with the
      provider-reported total token count, or any raised error. */
  datatype Remote = Completed(content: string, totalTokens: nat) | Failed

  /** No item is empty or whitespace only. */
  predicate NoBlank(items: seq<string>) {
    forall i :: 0 <= i < |items| ==> !IsBlank(items[i])
  }

  lemma TrimmedNonEmptyNotBlank(s: string)
    requires IsTrimmed(s) && s != ""
    ensures !IsBlank(s)
  {
    assert !IsSpace(s[0]);
  }

  // ---------------------------------------------------------------------------
  // Reply parsing for list-shaped operations

  /** `[q.strip() for q in pieces if q.strip()]`. */
  function KeepNonBlank(pieces: seq<string>): (r: seq<string>)
    ensures |r| <= |pieces|
    ensures forall i :: 0 <= i < |r| ==> r[i] != "" && IsTrimmed(r[i])
    decreases |pieces|
  {
    if pieces == [] then []
    else
      var h := Strip(pieces[0]);
      StripSpec(pieces[0]);
      (if h != "" then [h] else []) + KeepNonBlank(pieces[1..])
  }

  /** `content.strip().split('\n')` followed by the strip-and-drop-blank
      comprehension. */
  function ParseLines(content: string): seq<string> {
    KeepNonBlank(Split(Strip(content), '\n'))
  }

  /** No element of a parsed list is empty or whitespace only. */
  lemma ParseLinesNoBlank(content: string)
    ensures NoBlank(ParseLines(content))
  {
    var r := ParseLines(content);
    forall i | 0 <= i < |r| ensures !IsBlank(r[i]) {
      TrimmedNonEmptyNotBlank(r[i]);
    }
  }

  /** A reply that is all whitespace parses to the empty list. */
  lemma ParseLinesOfBlank(content: string)
    requires IsBlank(content)
    ensures ParseLines(content) == []
  {
    StripEmptyIffBlank(content);
    assert Split(Strip(content), '\n') == [""];
    assert Strip("") == "";
    assert KeepNonBlank([""]) == [];
  }

  /** Each kept piece is the stripped piece, in order: already-clean pieces
      survive unchanged. */
  lemma {:induction false} KeepNonBlankOfClean(pieces: seq<string>)
    requires forall i :: 0 <= i < |pieces| ==> pieces[i] != "" && IsTrimmed(pieces[i])
    ensures KeepNonBlank(pieces) == pieces
    decreases |pieces|
  {
    if pieces != [] {
      StripTrimmed(pieces[0]);
      KeepNonBlankOfClean(pieces[1..]);
    }
  }

  lemma {:induction false} JoinEnds(sep: string, parts: seq<string>)
    requires |parts| > 0 && forall i :: 0 <= i < |parts| ==> parts[i] != ""
    ensures Join(sep, parts) != ""
    ensures Join(sep, parts)[0] == parts[0][0]
    ensures Join(sep, parts)[|Join(sep, parts)| - 1] == parts[|parts| - 1][|parts[|parts| - 1]| - 1]
    decreases |parts|
  {
    if |parts| > 1 {
      JoinEnds(sep, parts[1..]);
    }
  }

  /** Non-empty trimmed parts join into a trimmed text. */
  lemma JoinTrimmed(sep: string, parts: seq<string>)
    requires |parts| > 0 && forall i :: 0 <= i < |parts| ==> parts[i] != "" && IsTrimmed(parts[i])
    ensures IsTrimmed(Join(sep, parts))
  {
    JoinEnds(sep, parts);
    var first, last := parts[0], parts[|parts| - 1];
    assert first != "" && IsTrimmed(first);
    assert last != "" && IsTrimmed(last);
  }

  /** Round trip: a reply made of clean lines, one per line, parses back to
      exactly those lines in the same order. */
  lemma ParseLinesOfJoin(lines: seq<string>)
    requires |lines| > 0
    requires forall i :: 0 <= i < |lines| ==> lines[i] != "" && IsTrimmed(lines[i]) && !Contains(lines[i], '\n')
    ensures ParseLines(Join("\n", lines)) == lines
  {
    var text := Join("\n", lines);
    JoinTrimmed("\n", lines);
    StripTrimmed(text);
    SplitJoin(lines, '\n');
    KeepNonBlankOfClean(lines);
  }

  // ---------------------------------------------------------------------------
  // Fallback tables

  const QuickQuestions: seq<string> := [
    "What was the highlight of your day?",
    "What challenged you today?",
    "What are you grateful for?",
    "How did you feel overall?" ]

  const DetailedQuestions: seq<string> := [
    "What emotions did you experience today?",
    "What did you learn about yourself?",
    "How did you handle challenges?",
    "What would you do differently?",
    "What are you looking forward to tomorrow?" ]

  const QuickInsights: seq<string> := [
    "Thank you for taking time to reflect on your day.",
    "Every reflection brings new insights and growth." ]

  const DetailedInsights: seq<string> := [
    "Your detailed reflection shows deep self-awareness.",
    "This kind of introspection leads to meaningful growth.",
    "You're building valuable self-knowledge through journaling." ]

  const QuickConversationalQuestions: seq<string> := [
    "How did you feel about what happened today?",
    "What was the most challenging part of your day?",
    "What would you do differently if you could?" ]

  const DetailedConversationalQuestions: seq<string> := [
    "How did you feel about what happened today?",
    "What was the most challenging part of your day?",
    "What emotions came up during these events?",
    "How did you handle any difficult situations?",
    "What did you learn about yourself today?",
    "What would you do differently if you could?" ]

  /** `_get_fallback_questions`: four questions in `quick` mode, five in any other. */
  function FallbackQuestions(mode: string): (r: seq<string>)
    ensures |r| == if mode == "quick" then 4 else 5
  {
    if mode == "quick" then QuickQuestions else DetailedQuestions
  }

  /** `_get_fallback_insights`: two insights in `quick` mode, three in any other. */
  function FallbackInsights(mode: string): (r: seq<string>)
    ensures |r| == if mode == "quick" then 2 else 3
  {
    if mode == "quick" then QuickInsights else DetailedInsights
  }

  /** `_get_fallback_conversational_questions`: three in `quick` mode, six in any other. */
  function FallbackConversationalQuestions(mode: string): (r: seq<string>)
    ensures |r| == if mode == "quick" then 3 else 6
  {
    if mode == "quick" then QuickConversationalQuestions else DetailedConversationalQuestions
  }

  /** Every list-shaped fallback is free of blank entries, like a parsed reply. */
  lemma FallbackListsNoBlank(mode: string)
    ensures NoBlank(FallbackQuestions(mode))
    ensures NoBlank(FallbackInsights(mode))
    ensures NoBlank(FallbackConversationalQuestions(mode))
  {
    PunctuatedNoBlank(QuickQuestions);
    PunctuatedNoBlank(DetailedQuestions);
    PunctuatedNoBlank(QuickInsights);
    PunctuatedNoBlank(DetailedInsights);
    PunctuatedNoBlank(QuickConversationalQuestions);
    PunctuatedNoBlank(DetailedConversationalQuestions);
  }

  /** Every item ends in a question mark or a full stop. */
  predicate Punctuated(items: seq<string>) {
    forall i :: 0 <= i < |items| ==> |items[i]| > 0 && items[i][|items[i]| - 1] in {'?', '.'}
  }

  lemma PunctuatedNoBlank(items: seq<string>)
    requires Punctuated(items)
    ensures NoBlank(items)
  {
    forall i | 0 <= i < |items| ensures !IsBlank(items[i]) {
      assert !IsSpace(items[i][|items[i]| - 1]);
    }
  }

  /** The conversational lists share their first two questions and their last
      one; the detailed list inserts three more in between. */
  lemma ConversationalFallbackExtendsQuick(mode: string)
    requires mode != "quick"
    ensures FallbackConversationalQuestions(mode)[..2] == FallbackConversationalQuestions("quick")[..2]
    ensures FallbackConversationalQuestions(mode)[5] == FallbackConversationalQuestions("quick")[2]
  {
  }

  function FallbackSummary(dailySummary: string, mode: string): string {
    if mode == "quick" then
      "Based on your summary about " + Take(dailySummary, 30)
      + "..., you've had an eventful day. Your reflection shows thoughtful consideration of your experiences."
    else
      "Your detailed summary about " + Take(dailySummary, 30)
      + "... reveals a day filled with meaningful experiences. Your thoughtful reflection demonstrates deep self-awareness and emotional intelligence."
  }

  /** The summary fallback quotes at most the first 30 characters of the daily
      summary and depends on nothing else of it. */
  lemma FallbackSummaryUsesFirst30(a: string, b: string, mode: string)
    requires Take(a, 30) == Take(b, 30)
    ensures FallbackSummary(a, mode) == FallbackSummary(b, mode)
    ensures |Take(a, 30)| <= 30
  {
  }

  function FallbackAssistantResponse(mode: string): string {
    if mode == "quick" then
      "I'm reading your journal entry and finding it very insightful. Your reflection shows good self-awareness. Consider what patterns you notice in your experiences."
    else
      "Your detailed reflection is impressive! I can see you're really processing your experiences deeply. What connections do you see between today's events and your broader life journey?"
  }

  const GenericMoodResponse: string :=
    "Your mood is an important part of your journaling experience. How does this emotional state relate to what happened today?"

  const MoodResponses: map<string, string> := map[
    "happy" := "It's wonderful that you're feeling happy! This positive mood can really enhance your reflection. What contributed to this happiness today?",
    "calm" := "Feeling calm is such a valuable state for reflection. Your peaceful mood suggests you're in a good space to process your experiences.",
    "neutral" := "A neutral mood can actually be perfect for objective reflection. You're able to look at your day with balanced perspective.",
    "anxious" := "I notice you're feeling anxious. This emotion can provide important insights into what matters to you. What's underlying this anxiety?",
    "sad" := "I hear that you're feeling sad. This emotion is valid and can teach us important things about ourselves. What's bringing up these feelings?"
  ]

  /** `mood_responses.get(mood, generic)`; the mode is accepted and ignored. */
  function FallbackMoodResponse(mood: string, mode: string): string {
    if mood in MoodResponses then MoodResponses[mood] else GenericMoodResponse
  }

  /** Exactly the five listed moods get their own text, each different from
      the generic message and from one another; any other label, in any mode,
      gets the generic message. */
  lemma MoodFallbackTable(mood: string, mode: string, otherMode: string)
    ensures FallbackMoodResponse(mood, mode) != GenericMoodResponse
            <==> mood in {"happy", "calm", "neutral", "anxious", "sad"}
    ensures FallbackMoodResponse(mood, mode) == FallbackMoodResponse(mood, otherMode)
    ensures forall m, n :: m in MoodResponses && n in MoodResponses && m != n ==> MoodResponses[m] != MoodResponses[n]
  {
    assert MoodResponses.Keys == {"happy", "calm", "neutral", "anxious", "sad"};
  }

  const ConversationalOpening: string := "Today you experienced: "
  const ReflectedClause: string := "You reflected on your feelings and responses to these events. "
  const DetailedClosing: string := "Your detailed answers show deep consideration of your emotional experience and personal growth."
  const QuickClosing: string := "Your answers show thoughtful consideration of your experiences."

  function SummaryOpening(dailySummary: string): string {
    ConversationalOpening + Take(dailySummary, 100) + "... "
  }

  /** The closing sentence each mode gets once there are answers. */
  function ConversationalClosing(mode: string): string {
    if mode == "detailed" then DetailedClosing else QuickClosing
  }

  /** The conversational summary fallback as a value. */
  function ConversationalSummaryFallback(dailySummary: string, userAnswers: seq<string>, mode: string): string {
    SummaryOpening(dailySummary)
    + if userAnswers == [] then "" else ReflectedClause + ConversationalClosing(mode)
  }

  /** `_get_fallback_conversational_summary`, which builds its text with `+=`. */
  method BuildConversationalSummary(dailySummary: string, userAnswers: seq<string>, mode: string)
    returns (summary: string)
    ensures summary == ConversationalSummaryFallback(dailySummary, userAnswers, mode)
  {
    var opening := ConversationalOpening + Take(dailySummary, 100) + "... ";
    summary := opening;
    if userAnswers != [] {
      summary := summary + ReflectedClause;
      if mode == "detailed" {
        summary := summary + DetailedClosing;
      } else {
        summary := summary + QuickClosing;
      }
      AppendAssociative(opening, ReflectedClause, ConversationalClosing(mode));
    } else {
      AppendParts(opening, "");
    }
  }

  /** The fallback always opens with the first 100 characters of the daily
      summary; it is just that opening exactly when there are no answers; with
      answers it ends in the detailed sentence when the mode is `detailed`
      and in the quick sentence under any other mode. */
  lemma ConversationalSummaryShape(dailySummary: string, userAnswers: seq<string>, mode: string)
    ensures StartsWith(ConversationalSummaryFallback(dailySummary, userAnswers, mode), SummaryOpening(dailySummary))
    ensures ConversationalSummaryFallback(dailySummary, userAnswers, mode) == SummaryOpening(dailySummary)
            <==> userAnswers == []
    ensures userAnswers != [] && mode == "detailed"
            ==> EndsWith(ConversationalSummaryFallback(dailySummary, userAnswers, mode), DetailedClosing)
    ensures userAnswers != [] && mode != "detailed"
            ==> EndsWith(ConversationalSummaryFallback(dailySummary, userAnswers, mode), QuickClosing)
  {
    var open := SummaryOpening(dailySummary);
    if userAnswers == [] {
      AppendParts(open, "");
    } else {
      var closing := ConversationalClosing(mode);
      assert |ReflectedClause| > 0;
      AppendParts(open, ReflectedClause + closing);
      AppendAssociative(open, ReflectedClause, closing);
      AppendParts(open + ReflectedClause, closing);
    }
  }

  lemma AppendAssociative(a: string, b: string, c: string)
    ensures a + (b + c) == (a + b) + c
  {
  }

  /** `a + b` starts with `a`, ends with `b`, and is `a` only when `b` is empty. */
  lemma AppendParts(a: string, b: string)
    ensures StartsWith(a + b, a) && EndsWith(a + b, b)
    ensures a + b == a <==> b == ""
  {
    assert (a + b)[..|a|] == a;
    assert (a + b)[|a + b| - |b|..] == b;
    if a + b == a {
      assert |b| == 0;
    }
  }

  /** Only the first 100 characters of the daily summary reach the fallback. */
  lemma ConversationalSummaryUsesFirst100(a: string, b: string, userAnswers: seq<string>, mode: string)
    requires Take(a, 100) == Take(b, 100)
    ensures ConversationalSummaryFallback(a, userAnswers, mode) == ConversationalSummaryFallback(b, userAnswers, mode)
  {
  }

  // ---------------------------------------------------------------------------
  // The service

  class AIService {
    /** Fixed at construction; nothing later re-checks it. */
    const available: bool

    /** `__init__`: the service is available iff the client library imports and
        `OPENAI_API_KEY` is set to a non-empty value. */
    constructor (clientImports: bool, apiKey: Option<string>)
      ensures available <==> clientImports && Truthy(apiKey)
    {
      available := clientImports && Truthy(apiKey);
    }

    /** `is_available`: the flag the constructor fixed, that is, whether a
        completed reply is answered from the reply rather than the fallback. */
    function IsAvailable(): (r: bool)
      ensures r <==> !UsesFallback(Completed("", 0))
    {
      available
    }

    /** True when the operation answers from its fallback table. */
    predicate UsesFallback(remote: Remote) {
      !available || remote.Failed?
    }

    function GenerateReflectionQuestions(dailySummary: string, mode: string, remote: Remote)
      : (r: (seq<string>, nat))
      ensures UsesFallback(remote) ==> r == (FallbackQuestions(mode), 0)
      ensures !UsesFallback(remote) ==> r == (ParseLines(remote.content), remote.totalTokens)
      ensures NoBlank(r.0)
    {
      FallbackListsNoBlank(mode);
      if UsesFallback(remote) then (FallbackQuestions(mode), 0)
      else ParseLinesNoBlank(remote.content); (ParseLines(remote.content), remote.totalTokens)
    }

    function EnhanceJournalEntry(dailySummary: string, journalContent: string, mode: string, remote: Remote)
      : (r: (seq<string>, nat))
      ensures UsesFallback(remote) ==> r == (FallbackInsights(mode), 0)
      ensures !UsesFallback(remote) ==> r == (ParseLines(remote.content), remote.totalTokens)
      ensures NoBlank(r.0)
    {
      FallbackListsNoBlank(mode);
      if UsesFallback(remote) then (FallbackInsights(mode), 0)
      else ParseLinesNoBlank(remote.content); (ParseLines(remote.content), remote.totalTokens)
    }

    function GenerateJournalSummary(dailySummary: string, mode: string, remote: Remote)
      : (r: (string, nat))
      ensures UsesFallback(remote) ==> r == (FallbackSummary(dailySummary, mode), 0)
      ensures !UsesFallback(remote) ==> r == (Strip(remote.content), remote.totalTokens)
    {
      if UsesFallback(remote) then (FallbackSummary(dailySummary, mode), 0)
      else (Strip(remote.content), remote.totalTokens)
    }

    function GenerateAssistantResponse(dailySummary: string, journalContent: string, mode: string, remote: Remote)
      : (r: (string, nat))
      ensures UsesFallback(remote) ==> r == (FallbackAssistantResponse(mode), 0)
      ensures !UsesFallback(remote) ==> r == (Strip(remote.content), remote.totalTokens)
    {
      if UsesFallback(remote) then (FallbackAssistantResponse(mode), 0)
      else (Strip(remote.content), remote.totalTokens)
    }

    function GenerateMoodResponse(dailySummary: string, journalContent: string, mood: string, mode: string, remote: Remote)
      : (r: (string, nat))
      ensures UsesFallback(remote) ==> r == (FallbackMoodResponse(mood, mode), 0)
      ensures !UsesFallback(remote) ==> r == (Strip(remote.content), remote.totalTokens)
    {
      if UsesFallback(remote) then (FallbackMoodResponse(mood, mode), 0)
      else (Strip(remote.content), remote.totalTokens)
    }

    function GenerateConversationalQuestions(dailySummary: string, mode: string, remote: Remote)
      : (r: (seq<string>, nat))
      ensures UsesFallback(remote) ==> r == (FallbackConversationalQuestions(mode), 0)
      ensures !UsesFallback(remote) ==> r == (ParseLines(remote.content), remote.totalTokens)
      ensures NoBlank(r.0)
    {
      FallbackListsNoBlank(mode);
      if UsesFallback(remote) then (FallbackConversationalQuestions(mode), 0)
      else ParseLinesNoBlank(remote.content); (ParseLines(remote.content), remote.totalTokens)
    }

    function GenerateConversationalSummary(dailySummary: string, userAnswers: seq<string>, mode: string, remote: Remote)
      : (r: (string, nat))
      ensures UsesFallback(remote) ==> r == (ConversationalSummaryFallback(dailySummary, userAnswers, mode), 0)
      ensures !UsesFallback(remote) ==> r == (Strip(remote.content), remote.totalTokens)
    {
      if UsesFallback(remote) then (ConversationalSummaryFallback(dailySummary, userAnswers, mode), 0)
      else (Strip(remote.content), remote.totalTokens)
    }

    /** A block-shaped reply is returned trimmed and with the provider's count. */
    lemma BlockReplyTrimmed(dailySummary: string, mode: string, remote: Remote)
      requires !UsesFallback(remote)
      ensures IsTrimmed(GenerateJournalSummary(dailySummary, mode, remote).0)
      ensures GenerateJournalSummary(dailySummary, mode, remote).1 == remote.totalTokens
    {
      StripSpec(remote.content);
    }

    /** Whatever the availability flag and the remote outcome, a non-zero token
        count is reported only by a completed call on an available service, and
        then it is the provider's count. */
    lemma TokensOnlyFromCompletedCalls(dailySummary: string, mode: string, remote: Remote)
      ensures GenerateReflectionQuestions(dailySummary, mode, remote).1 != 0
              ==> available && remote.Completed? && GenerateReflectionQuestions(dailySummary, mode, remote).1 == remote.totalTokens
    {
    }
  }
}
