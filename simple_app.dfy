/** The AI-free Flask application of simple_app.py: journal creation with
    fixed defaults, the fixed reflection questions, a mood record holding a
    mood before and a mood after journaling, its partial same-day upsert and
    the lists the mood chart is drawn from. */
module SimpleApp {
  import opened Options
  import opened Dates
  import opened AiService
  import App

  // ---------------------------------------------------------------------------
  // Journal creation

  const JournalCreated: string := "Journal entry created successfully!"

  /** The JSON reply of `/journal/create`. */
  datatype CreateReply = CreateReply(success: bool, message: string, aiInsights: seq<string>, tokensUsed: nat)

  /** `/journal/create` without AI: the entry records the request's texts,
      no questions, no answers and no tokens. */
  function CreateJournal(userId: nat, today: Date, dailySummary: Option<string>,
                         journalContent: Option<string>, mode: Option<string>)
    : (r: (App.JournalEntry, CreateReply))
    ensures r.0.userId == userId && r.0.entryDate == today
    ensures r.0.dailySummary == dailySummary.GetOr("") && r.0.journalContent == journalContent.GetOr("")
    ensures r.0.mode == mode.GetOr("quick")
    ensures r.0.questions == [] && r.0.answers == [] && r.0.tokensUsed == 0
    ensures r.1 == CreateReply(true, JournalCreated, [], 0)
  {
    (App.JournalEntry(userId, today, dailySummary.GetOr(""), journalContent.GetOr(""),
                      mode.GetOr("quick"), [], [], 0),
     CreateReply(true, JournalCreated, [], 0))
  }

  /** The entry stored here is the one the AI application stores when the
      client already supplies the summary and sends no questions or answers,
      whatever the state of the service. */
  lemma CreateJournalAgreesWithApp(ai: AIService, userId: nat, today: Date, dailySummary: Option<string>,
                                   journalContent: Option<string>, mode: Option<string>, remote: Remote)
    requires Truthy(journalContent)
    ensures CreateJournal(userId, today, dailySummary, journalContent, mode).0
            == App.CreateJournal(ai, userId, today, dailySummary, None, None, journalContent, mode, remote)
  {
  }

  // ---------------------------------------------------------------------------
  // Reflection questions

  const QuickQuestionList: seq<string> := [
    "What emotions did you experience today?",
    "What did you learn about yourself?",
    "How did you handle challenges?"
  ]

  const ExtraQuestionList: seq<string> := [
    "What relationships were important today?",
    "What would you do differently?"
  ]

  /** `/api/generate-questions` without AI. */
  function GenerateQuestions(dailySummary: Option<string>, mode: Option<string>): (r: App.Reply)
    ensures !Truthy(dailySummary) <==> r == App.Rejected(App.SummaryRequired)
    ensures Truthy(dailySummary) ==> r.ListReply? && r.field == "questions" && r.tokensUsed == 0
    ensures r.ListReply? && mode.GetOr("quick") == "quick" ==> r.items == QuickQuestionList
    ensures r.ListReply? && mode.GetOr("quick") != "quick" ==>
      |r.items| == 5 && r.items[..3] == QuickQuestionList && r.items[3..] == ExtraQuestionList
  {
    if !Truthy(dailySummary) then App.Rejected(App.SummaryRequired)
    else if mode.GetOr("quick") == "quick" then App.ListReply("questions", QuickQuestionList, 0)
    else App.ListReply("questions", QuickQuestionList + ExtraQuestionList, 0)
  }

  /** No answer of this route costs tokens, and every question it offers is a
      non-blank line. */
  lemma GenerateQuestionsFree(dailySummary: Option<string>, mode: Option<string>)
    ensures GenerateQuestions(dailySummary, mode).Tokens() == 0
    ensures GenerateQuestions(dailySummary, mode).ListReply? ==>
      NoBlank(GenerateQuestions(dailySummary, mode).items)
  {
    var all := QuickQuestionList + ExtraQuestionList;
    assert Punctuated(all);
    PunctuatedNoBlank(all);
    assert GenerateQuestions(dailySummary, mode).ListReply? ==>
      GenerateQuestions(dailySummary, mode).items == QuickQuestionList
      || GenerateQuestions(dailySummary, mode).items == all;
    assert QuickQuestionList == all[..3];
  }

  // ---------------------------------------------------------------------------
  // Mood records

  /** A row of `mood_entry`; either mood may be `NULL`. */
  datatype MoodRecord = MoodRecord(userId: nat, entryDate: Date, moodBefore: Option<string>, moodAfter: Option<string>)

  predicate IsKey(e: MoodRecord, userId: nat, day: Date) {
    e.userId == userId && e.entryDate == day
  }

  /** At most one record per user and day. */
  ghost predicate OnePerDay(records: seq<MoodRecord>) {
    forall i, j :: 0 <= i < j < |records| ==>
      !(records[i].userId == records[j].userId && records[i].entryDate == records[j].entryDate)
  }

  /** Position of the first record for the user and day, or `|records|`. */
  function FindRecord(records: seq<MoodRecord>, userId: nat, day: Date): (k: nat)
    ensures k <= |records|
    ensures k < |records| ==> IsKey(records[k], userId, day)
    ensures forall j :: 0 <= j < k ==> !IsKey(records[j], userId, day)
    decreases |records|
  {
    if records == [] then 0
    else if IsKey(records[0], userId, day) then 0
    else 1 + FindRecord(records[1..], userId, day)
  }

  lemma {:induction false} FindRecordIs(records: seq<MoodRecord>, k: nat, userId: nat, day: Date)
    requires k <= |records|
    requires k < |records| ==> IsKey(records[k], userId, day)
    requires forall j :: 0 <= j < k ==> !IsKey(records[j], userId, day)
    ensures FindRecord(records, userId, day) == k
    decreases |records|
  {
    if records != [] && k > 0 {
      assert !IsKey(records[0], userId, day);
      FindRecordIs(records[1..], k - 1, userId, day);
    }
  }

  /** A field of an existing record takes the new value only when that value
      is truthy. */
  function Overwrite(current: Option<string>, given: Option<string>): Option<string> {
    if Truthy(given) then given else current
  }

  /** The mood table after `/api/mood`. */
  function MoodUpdated(records: seq<MoodRecord>, userId: nat, day: Date,
                       moodBefore: Option<string>, moodAfter: Option<string>)
    : seq<MoodRecord>
  {
    var k := FindRecord(records, userId, day);
    if k < |records| then
      records[k := records[k].(moodBefore := Overwrite(records[k].moodBefore, moodBefore),
                               moodAfter := Overwrite(records[k].moodAfter, moodAfter))]
    else records + [MoodRecord(userId, day, moodBefore, moodAfter)]
  }

  /** Saving keeps one record per user and day and touches no other record;
      the day's record gets each truthy value and keeps its old value for
      the other field, and a new record holds the values exactly as given. */
  lemma MoodUpdatedShape(records: seq<MoodRecord>, userId: nat, day: Date,
                         moodBefore: Option<string>, moodAfter: Option<string>)
    requires OnePerDay(records)
    ensures var r := MoodUpdated(records, userId, day, moodBefore, moodAfter);
      var k := FindRecord(records, userId, day);
      OnePerDay(r)
      && |r| == |records| + (if k < |records| then 0 else 1)
      && (forall j :: 0 <= j < |records| && j != k ==> r[j] == records[j])
      && FindRecord(r, userId, day) == k
      && (k < |records| ==>
            r[k].moodBefore == (if Truthy(moodBefore) then moodBefore else records[k].moodBefore)
            && r[k].moodAfter == (if Truthy(moodAfter) then moodAfter else records[k].moodAfter))
      && (k == |records| ==> r[k] == MoodRecord(userId, day, moodBefore, moodAfter))
  {
    var r := MoodUpdated(records, userId, day, moodBefore, moodAfter);
    var k := FindRecord(records, userId, day);
    assert IsKey(r[k], userId, day);
    forall j | 0 <= j < k ensures !IsKey(r[j], userId, day) {
      assert r[j] == records[j];
    }
    FindRecordIs(r, k, userId, day);
  }

  /** Saves on one day never add a second record: the second save finds the
      record the first one left. */
  lemma MoodUpdatedTwice(records: seq<MoodRecord>, userId: nat, day: Date,
                         before1: Option<string>, after1: Option<string>,
                         before2: Option<string>, after2: Option<string>)
    requires OnePerDay(records)
    ensures var r1 := MoodUpdated(records, userId, day, before1, after1);
      var r2 := MoodUpdated(r1, userId, day, before2, after2);
      |r2| == |r1| && OnePerDay(r2)
  {
    var r1 := MoodUpdated(records, userId, day, before1, after1);
    MoodUpdatedShape(records, userId, day, before1, after1);
    MoodUpdatedShape(r1, userId, day, before2, after2);
  }

  /** The usual pattern: the mood before journaling, then the mood after it,
      end up in one record, and an empty second value does not erase the
      first. */
  lemma MoodBeforeThenAfter(records: seq<MoodRecord>, userId: nat, day: Date, before: string, after: string)
    requires OnePerDay(records)
    ensures var r := MoodUpdated(MoodUpdated(records, userId, day, Some(before), None),
                                 userId, day, Some(""), Some(after));
      var k := FindRecord(r, userId, day);
      k < |r| && (after != "" ==> r[k].moodAfter == Some(after))
      && (before != "" ==> r[k].moodBefore == Some(before))
  {
    var r1 := MoodUpdated(records, userId, day, Some(before), None);
    MoodUpdatedShape(records, userId, day, Some(before), None);
    MoodUpdatedShape(r1, userId, day, Some(""), Some(after));
  }

  class MoodTable {
    var records: seq<MoodRecord>

    ghost predicate Valid()
      reads this
    {
      OnePerDay(records)
    }

    constructor ()
      ensures records == [] && Valid()
    {
      records := [];
    }

    /** `/api/mood`: look up today's record for the user, then overwrite the
        fields given truthy values or create the record. Always succeeds. */
    method SaveMood(userId: nat, today: Date, moodBefore: Option<string>, moodAfter: Option<string>)
      returns (success: bool)
      requires Valid()
      modifies this
      ensures Valid() && success
      ensures records == MoodUpdated(old(records), userId, today, moodBefore, moodAfter)
    {
      var i := 0;
      while i < |records| && !IsKey(records[i], userId, today)
        invariant 0 <= i <= |records|
        invariant forall j :: 0 <= j < i ==> !IsKey(records[j], userId, today)
      {
        i := i + 1;
      }
      FindRecordIs(records, i, userId, today);
      MoodUpdatedShape(records, userId, today, moodBefore, moodAfter);
      if i < |records| {
        var e := records[i];
        if Truthy(moodBefore) {
          e := e.(moodBefore := moodBefore);
        }
        if Truthy(moodAfter) {
          e := e.(moodAfter := moodAfter);
        }
        records := records[i := e];
      } else {
        records := records + [MoodRecord(userId, today, moodBefore, moodAfter)];
      }
      success := true;
    }
  }

  // ---------------------------------------------------------------------------
  // Mood analytics

  /** `dates`: one `YYYY-MM-DD` label per record, in order. */
  function ChartDates(records: seq<MoodRecord>): (r: seq<string>)
    ensures |r| == |records|
    ensures forall i :: 0 <= i < |records| ==> r[i] == IsoDate(records[i].entryDate)
  {
    if records == [] then [] else ChartDates(records[..|records| - 1]) + [IsoDate(records[|records| - 1].entryDate)]
  }

  /** `[e.mood_before for e in records if e.mood_before]`. */
  function MoodsBefore(records: seq<MoodRecord>): (r: seq<string>)
    ensures |r| <= |records|
    ensures forall i :: 0 <= i < |r| ==> r[i] != ""
  {
    if records == [] then []
    else
      var last := records[|records| - 1];
      MoodsBefore(records[..|records| - 1]) + (if Truthy(last.moodBefore) then [last.moodBefore.value] else [])
  }

  /** `[e.mood_after for e in records if e.mood_after]`. */
  function MoodsAfter(records: seq<MoodRecord>): (r: seq<string>)
    ensures |r| <= |records|
    ensures forall i :: 0 <= i < |r| ==> r[i] != ""
  {
    if records == [] then []
    else
      var last := records[|records| - 1];
      MoodsAfter(records[..|records| - 1]) + (if Truthy(last.moodAfter) then [last.moodAfter.value] else [])
  }

  /** The three series follow the records: they split over any split of the
      records, and a single record contributes its date and exactly its
      truthy moods. Together these fix the order and the contents. */
  lemma ChartSeriesAppend(a: seq<MoodRecord>, b: seq<MoodRecord>)
    ensures ChartDates(a + b) == ChartDates(a) + ChartDates(b)
    ensures MoodsBefore(a + b) == MoodsBefore(a) + MoodsBefore(b)
    ensures MoodsAfter(a + b) == MoodsAfter(a) + MoodsAfter(b)
  {
    ChartDatesAppend(a, b);
    MoodsBeforeAppend(a, b);
    MoodsAfterAppend(a, b);
  }

  lemma ChartDatesAppend(a: seq<MoodRecord>, b: seq<MoodRecord>)
    ensures ChartDates(a + b) == ChartDates(a) + ChartDates(b)
  {
    var l := ChartDates(a + b);
    var r := ChartDates(a) + ChartDates(b);
    forall i | 0 <= i < |l| ensures l[i] == r[i] {
      if i < |a| {
        assert (a + b)[i] == a[i];
      } else {
        assert (a + b)[i] == b[i - |a|];
      }
    }
  }

  lemma {:induction false} MoodsBeforeAppend(a: seq<MoodRecord>, b: seq<MoodRecord>)
    ensures MoodsBefore(a + b) == MoodsBefore(a) + MoodsBefore(b)
    decreases |b|
  {
    if b == [] {
      assert a + b == a;
    } else {
      var b' := b[..|b| - 1];
      assert (a + b)[..|a + b| - 1] == a + b';
      MoodsBeforeAppend(a, b');
    }
  }

  lemma {:induction false} MoodsAfterAppend(a: seq<MoodRecord>, b: seq<MoodRecord>)
    ensures MoodsAfter(a + b) == MoodsAfter(a) + MoodsAfter(b)
    decreases |b|
  {
    if b == [] {
      assert a + b == a;
    } else {
      var b' := b[..|b| - 1];
      assert (a + b)[..|a + b| - 1] == a + b';
      MoodsAfterAppend(a, b');
    }
  }

  lemma ChartSeriesSingle(e: MoodRecord)
    ensures ChartDates([e]) == [IsoDate(e.entryDate)]
    ensures MoodsBefore([e]) == (if Truthy(e.moodBefore) then [e.moodBefore.value] else [])
    ensures MoodsAfter([e]) == (if Truthy(e.moodAfter) then [e.moodAfter.value] else [])
  {
    assert [e][..0] == [];
  }

  /** A record whose moods were both given is counted in both series. */
  lemma MoodsCounted(records: seq<MoodRecord>)
    requires forall i :: 0 <= i < |records| ==> Truthy(records[i].moodBefore) && Truthy(records[i].moodAfter)
    ensures |MoodsBefore(records)| == |records| == |MoodsAfter(records)|
  {
    if records != [] {
      MoodsCounted(records[..|records| - 1]);
    }
  }
}
