/** The Flask application of app.py: its configuration helpers, the JSON
    routes that put the `AIService` behind request guards, journal creation
    and the one-mood-per-day upsert. Request fields arrive as `Option`s
    (`None` when the key is absent) and the current user and date are
    parameters. */
module App {
  import opened Text
  import opened Options
  import opened Dates
  import opened AiService

  // ---------------------------------------------------------------------------
  // Configuration

  const PostgresScheme: string := "postgres://"
  const PostgresqlScheme: string := "postgresql://"
  const SqliteDefault: string := "sqlite:///smart_journal.db"

  /** `SQLALCHEMY_DATABASE_URI` from `DATABASE_URL`. */
  function DatabaseUri(databaseUrl: Option<string>): string {
    if Truthy(databaseUrl) then
      if StartsWith(databaseUrl.value, PostgresScheme)
      then ReplaceFirst(databaseUrl.value, PostgresScheme, PostgresqlScheme)
      else databaseUrl.value
    else SqliteDefault
  }

  /** An unset or empty variable selects the local SQLite file; a
      `postgres://` URL has that prefix, and only that prefix, rewritten to
      `postgresql://`; any other URL passes through unchanged. */
  lemma DatabaseUriCases(databaseUrl: Option<string>)
    ensures !Truthy(databaseUrl) ==> DatabaseUri(databaseUrl) == SqliteDefault
    ensures Truthy(databaseUrl) && StartsWith(databaseUrl.value, PostgresScheme)
            ==> DatabaseUri(databaseUrl) == PostgresqlScheme + databaseUrl.value[|PostgresScheme|..]
    ensures Truthy(databaseUrl) && !StartsWith(databaseUrl.value, PostgresScheme)
            ==> DatabaseUri(databaseUrl) == databaseUrl.value
    ensures !StartsWith(DatabaseUri(databaseUrl), PostgresScheme)
  {
    var r := DatabaseUri(databaseUrl);
    if Truthy(databaseUrl) && StartsWith(databaseUrl.value, PostgresScheme) {
      assert r[..|PostgresScheme|][8] == 'q';
    } else if !Truthy(databaseUrl) {
      assert r[8] == '/';
    }
  }

  /** Feeding the resulting URI back in as `DATABASE_URL` changes nothing. */
  lemma DatabaseUriIdempotent(databaseUrl: Option<string>)
    ensures DatabaseUri(Some(DatabaseUri(databaseUrl))) == DatabaseUri(databaseUrl)
  {
    DatabaseUriCases(databaseUrl);
    DatabaseUriCases(Some(DatabaseUri(databaseUrl)));
  }

  // ---------------------------------------------------------------------------
  // The `from_json` template filter

  /** What the template hands the filter: a string, or any other value. */
  datatype FilterInput = StrValue(s: string) | OtherValue

  /** `from_json_filter`, with `json.loads` as `decode` (`None` when it raises
      `ValueError`) and `emptyList` for Python's `[]`. */
  function FromJsonFilter<J>(value: FilterInput, decode: string -> Option<J>, emptyList: J): J {
    if value.StrValue? && Strip(value.s) != "" && decode(Strip(value.s)).Some?
    then decode(Strip(value.s)).value
    else emptyList
  }

  /** The guard: a non-string, a blank string and text that does not decode
      all give `[]`; otherwise the result is the decoding of the stripped
      text, so surrounding whitespace never matters. */
  lemma FromJsonFilterGuard<J>(value: FilterInput, decode: string -> Option<J>, emptyList: J)
    ensures value.OtherValue? ==> FromJsonFilter(value, decode, emptyList) == emptyList
    ensures value.StrValue? && IsBlank(value.s) ==> FromJsonFilter(value, decode, emptyList) == emptyList
    ensures value.StrValue? && !IsBlank(value.s) && decode(Strip(value.s)).None?
            ==> FromJsonFilter(value, decode, emptyList) == emptyList
    ensures value.StrValue? && !IsBlank(value.s) && decode(Strip(value.s)).Some?
            ==> FromJsonFilter(value, decode, emptyList) == decode(Strip(value.s)).value
    ensures value.StrValue? ==> FromJsonFilter(StrValue(Strip(value.s)), decode, emptyList)
                                == FromJsonFilter(value, decode, emptyList)
  {
    if value.StrValue? {
      StripEmptyIffBlank(value.s);
      StripIdempotent(value.s);
    }
  }

  // ---------------------------------------------------------------------------
  // JSON routes

  /** The body of `jsonify(...)`: a failure with its message, or a success
      carrying one list or one text under the key `field`, with
      `tokens_used`. */
  datatype Reply =
    | Rejected(message: string)
    | ListReply(field: string, items: seq<string>, tokensUsed: nat)
    | TextReply(field: string, text: string, tokensUsed: nat)
  {
    predicate Success() { !Rejected? }
    function Tokens(): nat {
      match this
      case Rejected(_) => 0
      case ListReply(_, _, t) => t
      case TextReply(_, _, t) => t
    }
  }

  const SummaryRequired: string := "Daily summary is required"
  const BothRequired: string := "Both daily summary and journal content are required"
  const InvalidType: string := "Invalid response type"

  /** `/api/generate-questions`. */
  function GenerateQuestions(ai: AIService, dailySummary: Option<string>, mode: Option<string>, remote: Remote)
    : (r: Reply)
    ensures r.Tokens() != 0 ==> ai.available && remote.Completed?
    ensures !Truthy(dailySummary) <==> r == Rejected(SummaryRequired)
    ensures Truthy(dailySummary) ==>
      var (qs, t) := ai.GenerateReflectionQuestions(dailySummary.value, mode.GetOr("quick"), remote);
      r == ListReply("questions", qs, t)
  {
    if !Truthy(dailySummary) then Rejected(SummaryRequired)
    else
      var (qs, t) := ai.GenerateReflectionQuestions(dailySummary.value, mode.GetOr("quick"), remote);
      ListReply("questions", qs, t)
  }

  /** `/api/generate-live-insights`: both texts must be non-empty. */
  function GenerateLiveInsights(ai: AIService, dailySummary: Option<string>, journalContent: Option<string>,
                                mode: Option<string>, remote: Remote)
    : (r: Reply)
    ensures r.Tokens() != 0 ==> ai.available && remote.Completed?
    ensures !Truthy(dailySummary) || !Truthy(journalContent) <==> r == Rejected(BothRequired)
    ensures Truthy(dailySummary) && Truthy(journalContent) ==>
      var (ins, t) := ai.EnhanceJournalEntry(dailySummary.value, journalContent.value, mode.GetOr("quick"), remote);
      r == ListReply("insights", ins, t)
  {
    if !Truthy(dailySummary) || !Truthy(journalContent) then Rejected(BothRequired)
    else
      var (ins, t) := ai.EnhanceJournalEntry(dailySummary.value, journalContent.value, mode.GetOr("quick"), remote);
      ListReply("insights", ins, t)
  }

  /** `/api/generate-ai-response`: dispatch on `type` (default `summary`)
      after the summary guard. */
  function GenerateAiResponse(ai: AIService, dailySummary: Option<string>, journalContent: Option<string>,
                              mood: Option<string>, responseType: Option<string>, mode: Option<string>,
                              remote: Remote)
    : (r: Reply)
    ensures r.Tokens() != 0 ==> ai.available && remote.Completed?
    ensures !Truthy(dailySummary) ==> r == Rejected(SummaryRequired)
    ensures Truthy(dailySummary) ==>
      var kind := responseType.GetOr("summary");
      (r.Rejected? <==> kind !in {"summary", "content", "mood"})
      && (r.Rejected? ==> r.message == InvalidType)
      && (kind == "summary" ==> r.TextReply? && r.field == "summary")
      && (kind in {"content", "mood"} ==> r.TextReply? && r.field == "assistant_response")
    ensures Truthy(dailySummary) && responseType.GetOr("summary") == "summary" ==>
      var (text, t) := ai.GenerateJournalSummary(dailySummary.value, mode.GetOr("quick"), remote);
      r == TextReply("summary", text, t)
    ensures Truthy(dailySummary) && responseType.GetOr("summary") == "content" ==>
      var (text, t) := ai.GenerateAssistantResponse(dailySummary.value, journalContent.GetOr(""), mode.GetOr("quick"), remote);
      r == TextReply("assistant_response", text, t)
    ensures Truthy(dailySummary) && responseType.GetOr("summary") == "mood" ==>
      var (text, t) := ai.GenerateMoodResponse(dailySummary.value, journalContent.GetOr(""), mood.GetOr(""), mode.GetOr("quick"), remote);
      r == TextReply("assistant_response", text, t)
  {
    if !Truthy(dailySummary) then Rejected(SummaryRequired)
    else
      var summary := dailySummary.value;
      var content := journalContent.GetOr("");
      var m := mode.GetOr("quick");
      var kind := responseType.GetOr("summary");
      if kind == "summary" then
        var (text, t) := ai.GenerateJournalSummary(summary, m, remote);
        TextReply("summary", text, t)
      else if kind == "content" then
        var (text, t) := ai.GenerateAssistantResponse(summary, content, m, remote);
        TextReply("assistant_response", text, t)
      else if kind == "mood" then
        var (text, t) := ai.GenerateMoodResponse(summary, content, mood.GetOr(""), m, remote);
        TextReply("assistant_response", text, t)
      else Rejected(InvalidType)
  }

  /** `/api/generate-ai-questions`. */
  function GenerateAiQuestions(ai: AIService, dailySummary: Option<string>, mode: Option<string>, remote: Remote)
    : (r: Reply)
    ensures r.Tokens() != 0 ==> ai.available && remote.Completed?
    ensures !Truthy(dailySummary) <==> r == Rejected(SummaryRequired)
    ensures Truthy(dailySummary) ==>
      var (qs, t) := ai.GenerateConversationalQuestions(dailySummary.value, mode.GetOr("quick"), remote);
      r == ListReply("questions", qs, t)
  {
    if !Truthy(dailySummary) then Rejected(SummaryRequired)
    else
      var (qs, t) := ai.GenerateConversationalQuestions(dailySummary.value, mode.GetOr("quick"), remote);
      ListReply("questions", qs, t)
  }

  /** `/api/generate-journal-summary`. */
  function GenerateJournalSummary(ai: AIService, dailySummary: Option<string>, userAnswers: Option<seq<string>>,
                                  mode: Option<string>, remote: Remote)
    : (r: Reply)
    ensures r.Tokens() != 0 ==> ai.available && remote.Completed?
    ensures !Truthy(dailySummary) <==> r == Rejected(SummaryRequired)
    ensures Truthy(dailySummary) ==>
      var (text, t) := ai.GenerateConversationalSummary(dailySummary.value, userAnswers.GetOr([]), mode.GetOr("quick"), remote);
      r == TextReply("summary", text, t)
  {
    if !Truthy(dailySummary) then Rejected(SummaryRequired)
    else
      var (text, t) := ai.GenerateConversationalSummary(dailySummary.value, userAnswers.GetOr([]), mode.GetOr("quick"), remote);
      TextReply("summary", text, t)
  }

  // ---------------------------------------------------------------------------
  // Journal creation

  /** A `JournalEntry` row as `create_journal` fills it; `questions` and
      `answers` are the lists that the row stores as JSON text. */
  datatype JournalEntry = JournalEntry(
    userId: nat, entryDate: Date, dailySummary: string, journalContent: string,
    mode: string, questions: seq<string>, answers: seq<string>, tokensUsed: nat)

  /** `/journal/create`: a supplied `ai_summary` becomes the content as is and
      costs nothing; otherwise the service writes the summary. */
  function CreateJournal(ai: AIService, userId: nat, today: Date,
                         dailySummary: Option<string>, aiQuestions: Option<seq<string>>,
                         userAnswers: Option<seq<string>>, aiSummary: Option<string>,
                         mode: Option<string>, remote: Remote)
    : (e: JournalEntry)
    ensures e.userId == userId && e.entryDate == today
    ensures e.dailySummary == dailySummary.GetOr("") && e.mode == mode.GetOr("quick")
    ensures e.questions == aiQuestions.GetOr([]) && e.answers == userAnswers.GetOr([])
    ensures Truthy(aiSummary) ==> e.journalContent == aiSummary.value && e.tokensUsed == 0
    ensures !Truthy(aiSummary) ==>
      (e.journalContent, e.tokensUsed) == ai.GenerateJournalSummary(dailySummary.GetOr(""), mode.GetOr("quick"), remote)
  {
    var summary := dailySummary.GetOr("");
    var m := mode.GetOr("quick");
    var (content, tokens) :=
      if Truthy(aiSummary) then (aiSummary.value, 0) else ai.GenerateJournalSummary(summary, m, remote);
    JournalEntry(userId, today, summary, content, m, aiQuestions.GetOr([]), userAnswers.GetOr([]), tokens)
  }

  /** A stored entry's token count is zero whenever the summary was supplied,
      the service is unavailable or the remote call failed. */
  lemma CreateJournalTokens(ai: AIService, userId: nat, today: Date,
                            dailySummary: Option<string>, aiQuestions: Option<seq<string>>,
                            userAnswers: Option<seq<string>>, aiSummary: Option<string>,
                            mode: Option<string>, remote: Remote)
    ensures CreateJournal(ai, userId, today, dailySummary, aiQuestions, userAnswers, aiSummary, mode, remote).tokensUsed != 0
            ==> !Truthy(aiSummary) && ai.available && remote.Completed?
  {
  }

  // ---------------------------------------------------------------------------
  // The mood log

  datatype MoodEntry = MoodEntry(userId: nat, entryDate: Date, mood: string, notes: string)

  /** At most one entry per user and day. */
  ghost predicate OnePerDay(entries: seq<MoodEntry>) {
    forall i, j :: 0 <= i < j < |entries| ==>
      !(entries[i].userId == entries[j].userId && entries[i].entryDate == entries[j].entryDate)
  }

  predicate IsKey(e: MoodEntry, userId: nat, day: Date) {
    e.userId == userId && e.entryDate == day
  }

  /** Position of the first entry for the user and day, or `|entries|` when
      there is none (`filter_by(...).first()`). */
  function FindMood(entries: seq<MoodEntry>, userId: nat, day: Date): (k: nat)
    ensures k <= |entries|
    ensures k < |entries| ==> IsKey(entries[k], userId, day)
    ensures forall j :: 0 <= j < k ==> !IsKey(entries[j], userId, day)
    decreases |entries|
  {
    if entries == [] then 0
    else if IsKey(entries[0], userId, day) then 0
    else 1 + FindMood(entries[1..], userId, day)
  }

  /** The mood log after a successful `save_mood`. */
  function MoodSaved(entries: seq<MoodEntry>, userId: nat, day: Date, mood: string, notes: string)
    : seq<MoodEntry>
  {
    var k := FindMood(entries, userId, day);
    if k < |entries| then entries[k := entries[k].(mood := mood, notes := notes)]
    else entries + [MoodEntry(userId, day, mood, notes)]
  }

  /** Saving keeps one entry per user and day, leaves every other entry where
      it was, and either overwrites the day's entry in place or appends one. */
  lemma MoodSavedShape(entries: seq<MoodEntry>, userId: nat, day: Date, mood: string, notes: string)
    requires OnePerDay(entries)
    ensures var r := MoodSaved(entries, userId, day, mood, notes);
      OnePerDay(r)
      && |r| == |entries| + (if FindMood(entries, userId, day) < |entries| then 0 else 1)
      && (forall j :: 0 <= j < |entries| && !IsKey(entries[j], userId, day) ==> r[j] == entries[j])
      && (forall j :: 0 <= j < |r| && IsKey(r[j], userId, day) ==> r[j] == MoodEntry(userId, day, mood, notes))
      && FindMood(r, userId, day) < |r|
  {
    var r := MoodSaved(entries, userId, day, mood, notes);
    var k := FindMood(entries, userId, day);
    if k < |entries| {
      forall j | 0 <= j < |r| ensures IsKey(r[j], userId, day) ==> r[j] == MoodEntry(userId, day, mood, notes) {
        if j != k {
          assert r[j] == entries[j];
        }
      }
    }
    assert IsKey(r[k], userId, day);
    FindMoodIs(r, k, userId, day);
  }

  /** Saving the same mood twice on one day is the same as saving it once. */
  lemma MoodSavedIdempotent(entries: seq<MoodEntry>, userId: nat, day: Date, mood: string, notes: string)
    ensures MoodSaved(MoodSaved(entries, userId, day, mood, notes), userId, day, mood, notes)
            == MoodSaved(entries, userId, day, mood, notes)
  {
    var r := MoodSaved(entries, userId, day, mood, notes);
    var k := FindMood(entries, userId, day);
    assert IsKey(r[k], userId, day);
    assert FindMood(r, userId, day) == k by {
      MoodFindStable(entries, r, k, userId, day);
    }
    assert r[k].(mood := mood, notes := notes) == r[k];
  }

  lemma MoodFindStable(entries: seq<MoodEntry>, r: seq<MoodEntry>, k: nat, userId: nat, day: Date)
    requires k == FindMood(entries, userId, day) && k < |r| && IsKey(r[k], userId, day)
    requires forall j :: 0 <= j < k ==> j < |entries| && r[j] == entries[j]
    ensures FindMood(r, userId, day) == k
  {
    forall j | 0 <= j < k ensures !IsKey(r[j], userId, day) {
      assert r[j] == entries[j];
    }
    FindMoodIs(r, k, userId, day);
  }

  /** `FindMood` is characterised by its contract: the first matching
      position, or the length when nothing matches. */
  lemma {:induction false} FindMoodIs(entries: seq<MoodEntry>, k: nat, userId: nat, day: Date)
    requires k <= |entries|
    requires k < |entries| ==> IsKey(entries[k], userId, day)
    requires forall j :: 0 <= j < k ==> !IsKey(entries[j], userId, day)
    ensures FindMood(entries, userId, day) == k
    decreases |entries|
  {
    if entries != [] && k > 0 {
      assert !IsKey(entries[0], userId, day);
      FindMoodIs(entries[1..], k - 1, userId, day);
    }
  }

  const MoodRequired: string := "Mood is required"
  const MoodSavedMessage: string := "Mood saved successfully!"

  datatype Outcome = Outcome(success: bool, message: string)

  class MoodLog {
    var entries: seq<MoodEntry>

    ghost predicate Valid()
      reads this
    {
      OnePerDay(entries)
    }

    constructor ()
      ensures entries == [] && Valid()
    {
      entries := [];
    }

    /** `/api/mood`: a missing or empty mood changes nothing; otherwise the
        day's entry for the user is overwritten or created. */
    method SaveMood(userId: nat, today: Date, mood: Option<string>, notes: Option<string>)
      returns (out: Outcome)
      requires Valid()
      modifies this
      ensures Valid()
      ensures !Truthy(mood) ==> out == Outcome(false, MoodRequired) && entries == old(entries)
      ensures Truthy(mood) ==>
        out == Outcome(true, MoodSavedMessage)
        && entries == MoodSaved(old(entries), userId, today, mood.value, notes.GetOr(""))
    {
      if !Truthy(mood) {
        return Outcome(false, MoodRequired);
      }
      var i := 0;
      while i < |entries| && !IsKey(entries[i], userId, today)
        invariant 0 <= i <= |entries|
        invariant forall j :: 0 <= j < i ==> !IsKey(entries[j], userId, today)
      {
        i := i + 1;
      }
      FindMoodIs(entries, i, userId, today);
      MoodSavedShape(entries, userId, today, mood.value, notes.GetOr(""));
      if i < |entries| {
        entries := entries[i := entries[i].(mood := mood.value, notes := notes.GetOr(""))];
      } else {
        entries := entries + [MoodEntry(userId, today, mood.value, notes.GetOr(""))];
      }
      out := Outcome(true, MoodSavedMessage);
    }
  }
}
