/** The logic of the Streamlit application smart_journal.py: month-scoped token
    accounting, the mood colour and emoji tables, the mood calendar, the quote
    of the day, month navigation, the question-and-answer text, per-day entry
    counts and the journal query builder. The clock, the files
    `token_usage.json` and `mood_data.json`, the environment and the widgets'
    values are parameters. */
module SmartJournal {
  import opened Text
  import opened Options
  import opened Dates
  import opened AiService

  // ---------------------------------------------------------------------------
  // Token accounting

  /** The content of `token_usage.json`; `month` is `"%Y-%m"` text. */
  datatype Usage = Usage(totalTokens: nat, month: string)

  const DefaultTokenLimit: int := 40000

  /** `load_token_usage`: the stored record, or a zero record for the current
      month when the file does not exist (`None`). */
  function LoadUsage(stored: Option<Usage>, currentMonth: string): (u: Usage)
    ensures stored.None? ==> u == Usage(0, currentMonth)
    ensures stored.Some? ==> u == stored.value
  {
    stored.GetOr(Usage(0, currentMonth))
  }

  /** The record `update_token_usage` saves and returns. */
  function UsageAfterUpdate(stored: Option<Usage>, tokensUsed: nat, currentMonth: string): (u: Usage)
    ensures u.month == currentMonth
    ensures LoadUsage(stored, currentMonth).month != currentMonth ==> u.totalTokens == tokensUsed
    ensures LoadUsage(stored, currentMonth).month == currentMonth
            ==> u.totalTokens == LoadUsage(stored, currentMonth).totalTokens + tokensUsed
  {
    var usage := LoadUsage(stored, currentMonth);
    var base := if usage.month != currentMonth then Usage(0, currentMonth) else usage;
    base.(totalTokens := base.totalTokens + tokensUsed)
  }

  /** `int(os.getenv("TOKEN_LIMIT", st.secrets.get("TOKEN_LIMIT", 40000)))`
      with both settings already read as integers. */
  function TokenLimit(envLimit: Option<int>, secretLimit: Option<int>): (limit: int)
    ensures envLimit.Some? ==> limit == envLimit.value
    ensures envLimit.None? && secretLimit.Some? ==> limit == secretLimit.value
    ensures envLimit.None? && secretLimit.None? ==> limit == DefaultTokenLimit
  {
    envLimit.GetOr(secretLimit.GetOr(DefaultTokenLimit))
  }

  /** What `check_token_limit` returns. */
  function LimitCheck(stored: Option<Usage>, currentMonth: string, limit: int): (r: (bool, nat))
    ensures LoadUsage(stored, currentMonth).month != currentMonth ==> r == (true, 0)
    ensures LoadUsage(stored, currentMonth).month == currentMonth
            ==> r.1 == LoadUsage(stored, currentMonth).totalTokens && (r.0 <==> r.1 < limit)
  {
    var usage := LoadUsage(stored, currentMonth);
    if usage.month != currentMonth then (true, 0) else (usage.totalTokens < limit, usage.totalTokens)
  }

  /** Two updates in the same month add up: the record is the same as after
      one update with the sum. */
  lemma UpdatesAccumulate(stored: Option<Usage>, a: nat, b: nat, currentMonth: string)
    ensures UsageAfterUpdate(Some(UsageAfterUpdate(stored, a, currentMonth)), b, currentMonth)
            == UsageAfterUpdate(stored, a + b, currentMonth)
  {
  }

  /** A record left from an earlier month never counts against the current
      one: the check passes and the next update starts again from zero. */
  lemma NewMonthStartsFresh(stored: Option<Usage>, tokensUsed: nat, currentMonth: string, limit: int)
    requires stored.Some? && stored.value.month != currentMonth
    ensures LimitCheck(stored, currentMonth, limit) == (true, 0)
    ensures UsageAfterUpdate(stored, tokensUsed, currentMonth) == Usage(tokensUsed, currentMonth)
  {
  }

  /** One AI request in the generator functions (`generate_quick_journal_entry`
      and its siblings): check the limit, stop when it is reached; otherwise
      call the model and, when the call returns, record its tokens. The
      result is the new stored record, the stripped reply (`None` when nothing
      was generated) and the tokens reported. */
  function GatedRequest(stored: Option<Usage>, currentMonth: string, limit: int, remote: Remote)
    : (Option<Usage>, Option<string>, nat)
  {
    var (within, _) := LimitCheck(stored, currentMonth, limit);
    if !within || remote.Failed? then (stored, None, 0)
    else (Some(UsageAfterUpdate(stored, remote.totalTokens, currentMonth)), Some(Strip(remote.content)), remote.totalTokens)
  }

  /** The requests of one month, applied in order. */
  function RunRequests(stored: Option<Usage>, currentMonth: string, limit: int, remotes: seq<Remote>)
    : Option<Usage>
    decreases |remotes|
  {
    if remotes == [] then stored
    else
      var (next, _, _) := GatedRequest(stored, currentMonth, limit, remotes[0]);
      RunRequests(next, currentMonth, limit, remotes[1..])
  }

  /** The month's total is below the limit plus one request's worth. */
  predicate WithinOvershoot(stored: Option<Usage>, currentMonth: string, limit: int, maxTokens: nat) {
    LoadUsage(stored, currentMonth).month != currentMonth
    || LoadUsage(stored, currentMonth).totalTokens < limit + maxTokens
  }

  /** The limit is soft but bounded: when no single reply costs more than
      `maxTokens`, a month's total never reaches `limit + maxTokens`, because
      a request runs only while the total is still below the limit. */
  lemma {:induction false} OvershootBounded(stored: Option<Usage>, currentMonth: string, limit: int,
                                            maxTokens: nat, remotes: seq<Remote>)
    requires limit >= 1
    requires forall i :: 0 <= i < |remotes| && remotes[i].Completed? ==> remotes[i].totalTokens <= maxTokens
    requires WithinOvershoot(stored, currentMonth, limit, maxTokens)
    ensures WithinOvershoot(RunRequests(stored, currentMonth, limit, remotes), currentMonth, limit, maxTokens)
    decreases |remotes|
  {
    if remotes != [] {
      var (next, _, _) := GatedRequest(stored, currentMonth, limit, remotes[0]);
      assert WithinOvershoot(next, currentMonth, limit, maxTokens);
      OvershootBounded(next, currentMonth, limit, maxTokens, remotes[1..]);
    }
  }

  /** Once the month's total has reached the limit, every further request in
      that month is refused and changes nothing. */
  lemma {:induction false} LimitReachedIsFinal(stored: Option<Usage>, currentMonth: string, limit: int,
                                               remotes: seq<Remote>)
    requires LoadUsage(stored, currentMonth).month == currentMonth
    requires LoadUsage(stored, currentMonth).totalTokens >= limit
    ensures RunRequests(stored, currentMonth, limit, remotes) == stored
    ensures forall r :: GatedRequest(stored, currentMonth, limit, r) == (stored, None, 0)
    decreases |remotes|
  {
    if remotes != [] {
      LimitReachedIsFinal(stored, currentMonth, limit, remotes[1..]);
    }
  }

  /** `token_usage.json` as a field: `None` until the file is first written. */
  class TokenLedger {
    var stored: Option<Usage>

    constructor (initial: Option<Usage>)
      ensures stored == initial
    {
      stored := initial;
    }

    /** `update_token_usage`. */
    method UpdateTokenUsage(tokensUsed: nat, currentMonth: string) returns (usage: Usage)
      modifies this
      ensures usage == UsageAfterUpdate(old(stored), tokensUsed, currentMonth)
      ensures stored == Some(usage)
    {
      usage := LoadUsage(stored, currentMonth);
      if usage.month != currentMonth {
        usage := Usage(0, currentMonth);
      }
      usage := usage.(totalTokens := usage.totalTokens + tokensUsed);
      stored := Some(usage);
    }

    /** `check_token_limit`. */
    method CheckTokenLimit(currentMonth: string, envLimit: Option<int>, secretLimit: Option<int>)
      returns (withinLimit: bool, currentUsage: nat)
      ensures (withinLimit, currentUsage) == LimitCheck(stored, currentMonth, TokenLimit(envLimit, secretLimit))
    {
      var usage := LoadUsage(stored, currentMonth);
      if usage.month != currentMonth {
        return true, 0;
      }
      var limit := TokenLimit(envLimit, secretLimit);
      return usage.totalTokens < limit, usage.totalTokens;
    }

    /** One generator call guarded by the limit. */
    method Generate(currentMonth: string, envLimit: Option<int>, secretLimit: Option<int>, remote: Remote)
      returns (reply: Option<string>, tokens: nat)
      modifies this
      ensures (stored, reply, tokens) == GatedRequest(old(stored), currentMonth, TokenLimit(envLimit, secretLimit), remote)
    {
      var withinLimit, _ := CheckTokenLimit(currentMonth, envLimit, secretLimit);
      if !withinLimit || remote.Failed? {
        return None, 0;
      }
      var _ := UpdateTokenUsage(remote.totalTokens, currentMonth);
      return Some(Strip(remote.content)), remote.totalTokens;
    }
  }

  // ---------------------------------------------------------------------------
  // Mood colours and emojis

  const KnownMoods: set<string> := {"happy", "calm", "sad", "stressed", "angry", "tired", "neutral"}
  const DefaultColor: string := "#E0E0E0"
  const DefaultEmoji: string := "❓"

  const MoodColors: map<string, string> := map[
    "happy" := "#4CAF50", "calm" := "#2196F3", "sad" := "#9E9E9E", "stressed" := "#FF9800",
    "angry" := "#F44336", "tired" := "#9C27B0", "neutral" := "#FFEB3B"
  ]

  const MoodEmojis: map<string, string> := map[
    "happy" := "😊", "calm" := "😌", "sad" := "😔", "stressed" := "😤",
    "angry" := "😡", "tired" := "😴", "neutral" := "😐"
  ]

  /** `get_mood_color`. */
  function MoodColor(mood: string): string {
    if mood in MoodColors then MoodColors[mood] else DefaultColor
  }

  /** `get_mood_emoji`. */
  function MoodEmoji(mood: string): string {
    if mood in MoodEmojis then MoodEmojis[mood] else DefaultEmoji
  }

  predicate IsHexDigit(c: char) {
    '0' <= c <= '9' || 'A' <= c <= 'F'
  }

  /** `#` followed by six hexadecimal digits. */
  predicate IsHexColor(s: string) {
    |s| == 7 && s[0] == '#' && forall i :: 1 <= i < 7 ==> IsHexDigit(s[i])
  }

  /** The colour table covers exactly the seven known moods: a mood gets the
      default colour exactly when it is not one of them, every colour is a
      hex colour and no two known moods share one. */
  lemma MoodColorTable(mood: string, other: string)
    ensures MoodColor(mood) != DefaultColor <==> mood in KnownMoods
    ensures IsHexColor(MoodColor(mood))
    ensures mood in KnownMoods && other in KnownMoods && mood != other ==> MoodColor(mood) != MoodColor(other)
  {
    assert MoodColors.Keys == KnownMoods;
  }

  /** The emoji table covers the same seven moods, and no two of them share
      an emoji. */
  lemma MoodEmojiTable(mood: string, other: string)
    ensures MoodEmoji(mood) != DefaultEmoji <==> mood in KnownMoods
    ensures mood in KnownMoods && other in KnownMoods && mood != other ==> MoodEmoji(mood) != MoodEmoji(other)
  {
    assert MoodEmojis.Keys == KnownMoods;
  }

  // ---------------------------------------------------------------------------
  // Quote of the day

  datatype Quote = Quote(text: string, author: string)

  const Quotes: seq<Quote> := [
    Quote("The only way to do great work is to love what you do.", "Steve Jobs"),
    Quote("The journey of a thousand miles begins with one step.", "Lao Tzu"),
    Quote("What you get by achieving your goals is not as important as what you become by achieving your goals.", "Zig Ziglar"),
    Quote("The mind is everything. What you think you become.", "Buddha"),
    Quote("Success is not final, failure is not fatal: it is the courage to continue that counts.", "Winston Churchill"),
    Quote("The best way to predict the future is to create it.", "Peter Drucker"),
    Quote("Life is what happens when you're busy making other plans.", "John Lennon"),
    Quote("The only limit to our realization of tomorrow is our doubts of today.", "Franklin D. Roosevelt"),
    Quote("Believe you can and you're halfway there.", "Theodore Roosevelt"),
    Quote("It does not matter how slowly you go as long as you do not stop.", "Confucius")
  ]

  /** `day_of_year % len(quotes)`. */
  function QuoteIndex(dayOfYear: nat): (i: nat)
    ensures i < |Quotes|
  {
    dayOfYear % |Quotes|
  }

  /** `get_quote_of_the_day` for the day of the year `tm_yday`. */
  function QuoteOfTheDay(dayOfYear: nat): (q: Quote)
    ensures q in Quotes
  {
    Quotes[QuoteIndex(dayOfYear)]
  }

  /** Within a year the quotes rotate: the next day shows the next quote,
      wrapping after the tenth, and the same quote returns every ten days. */
  lemma QuoteRotation(dayOfYear: nat)
    ensures QuoteIndex(dayOfYear + 1) == (QuoteIndex(dayOfYear) + 1) % |Quotes|
    ensures QuoteOfTheDay(dayOfYear + |Quotes|) == QuoteOfTheDay(dayOfYear)
  {
    assert |Quotes| == 10;
    ModTenSuccessor(dayOfYear);
  }

  lemma ModTenSuccessor(d: nat)
    ensures (d + 1) % 10 == (d % 10 + 1) % 10
    ensures (d + 10) % 10 == d % 10
  {
  }

  // ---------------------------------------------------------------------------
  // Month navigation

  datatype YearMonth = YearMonth(year: int, month: int)

  predicate ValidMonth(ym: YearMonth) {
    1 <= ym.month <= 12
  }

  /** The month's position on a single timeline of months. */
  function MonthIndex(ym: YearMonth): int {
    12 * ym.year + ym.month - 1
  }

  /** The "Previous Month" button. */
  function PrevMonth(ym: YearMonth): (r: YearMonth)
    ensures ValidMonth(ym) ==> ValidMonth(r) && MonthIndex(r) == MonthIndex(ym) - 1
  {
    if ym.month == 1 then YearMonth(ym.year - 1, 12) else YearMonth(ym.year, ym.month - 1)
  }

  /** The "Next Month" button. */
  function NextMonth(ym: YearMonth): (r: YearMonth)
    ensures ValidMonth(ym) ==> ValidMonth(r) && MonthIndex(r) == MonthIndex(ym) + 1
  {
    if ym.month == 12 then YearMonth(ym.year + 1, 1) else YearMonth(ym.year, ym.month + 1)
  }

  /** A valid month is determined by its position on the timeline. */
  lemma MonthIndexInjective(a: YearMonth, b: YearMonth)
    requires ValidMonth(a) && ValidMonth(b) && MonthIndex(a) == MonthIndex(b)
    ensures a == b
  {
    assert 12 * (a.year - b.year) == b.month - a.month;
  }

  /** The two buttons undo each other, across the year boundary too. */
  lemma MonthNavigationInverse(ym: YearMonth)
    requires ValidMonth(ym)
    ensures NextMonth(PrevMonth(ym)) == ym && PrevMonth(NextMonth(ym)) == ym
    ensures PrevMonth(YearMonth(ym.year, 1)) == YearMonth(ym.year - 1, 12)
    ensures NextMonth(YearMonth(ym.year, 12)) == YearMonth(ym.year + 1, 1)
  {
    MonthIndexInjective(NextMonth(PrevMonth(ym)), ym);
    MonthIndexInjective(PrevMonth(NextMonth(ym)), ym);
  }

  // ---------------------------------------------------------------------------
  // Mood calendar

  /** One `<td>` of the calendar: padding for a day outside the month, a plain
      day, or a day with a recorded mood, shown in its colour with its emoji. */
  datatype Cell = Blank | Plain(day: nat) | Marked(day: nat, color: string, emoji: string)

  /** The `mood_data.json` key of a day, `f"{year}-{month:02d}-{day:02d}"`. */
  function DayKey(year: nat, month: nat, day: nat): string {
    IsoDate(Date(year, month, day))
  }

  /** A stored mood the calendar shows: `mood_data.get(key)` is truthy. */
  predicate HasMood(moodData: map<string, string>, key: string) {
    key in moodData && moodData[key] != ""
  }

  function CellOf(moodData: map<string, string>, year: nat, month: nat, day: nat): Cell {
    if day == 0 then Blank
    else
      var key := DayKey(year, month, day);
      if HasMood(moodData, key) then Marked(day, MoodColor(moodData[key]), MoodEmoji(moodData[key]))
      else Plain(day)
  }

  /** A zero is padding; any other day is marked exactly when a mood is stored
      under its own key, and then in that mood's colour and emoji. */
  lemma CellOfCases(moodData: map<string, string>, year: nat, month: nat, day: nat)
    ensures CellOf(moodData, year, month, day).Blank? <==> day == 0
    ensures CellOf(moodData, year, month, day).Marked? <==> day != 0 && HasMood(moodData, DayKey(year, month, day))
    ensures day != 0 ==> CellOf(moodData, year, month, day).day == day
    ensures CellOf(moodData, year, month, day).Marked? ==>
      var mood := moodData[DayKey(year, month, day)];
      CellOf(moodData, year, month, day).color == MoodColor(mood)
      && CellOf(moodData, year, month, day).emoji == MoodEmoji(mood)
  {
  }

  /** Two different days of a month never read the same stored mood. */
  lemma DayKeysDistinct(year: nat, month: nat, d1: nat, d2: nat)
    requires 1 <= year && 1 <= month <= 12 && 1 <= d1 <= 31 && 1 <= d2 <= 31 && d1 != d2
    ensures DayKey(year, month, d1) != DayKey(year, month, d2)
  {
    if DayKey(year, month, d1) == DayKey(year, month, d2) {
      IsoDateInjective(Date(year, month, d1), Date(year, month, d2));
    }
  }

  const CellStyle: string := "padding: 10px; border: 1px solid #ddd;"

  function CellHtml(c: Cell): string {
    match c
    case Blank => "<td style=\"" + CellStyle + " background-color: #f9f9f9;\"></td>"
    case Plain(d) => "<td style=\"" + CellStyle + " text-align: center;\">" + NatToString(d) + "</td>"
    case Marked(d, color, emoji) =>
      "<td style=\"" + CellStyle + " background-color: " + color + "; text-align: center;\">"
      + NatToString(d) + "<br><span style=\"font-size: 12px;\">" + emoji + "</span></td>"
  }

  const HeaderLabels: seq<string> := ["Sun", "Mon", "Tue", "Wed", "Thu", "Fri", "Sat"]

  function HeaderCells(labels: seq<string>): string
    decreases |labels|
  {
    if labels == [] then ""
    else
      HeaderCells(labels[..|labels| - 1])
      + "                <th style=\"" + CellStyle + "\">" + labels[|labels| - 1] + "</th>\n"
  }

  /** The opening of `calendar_html`: the table and its weekday header row. */
  function CalendarHead(): string {
    "\n    <div style=\"text-align: center; margin: 20px 0;\">\n"
    + "        <table style=\"width: 100%; border-collapse: collapse; margin: 0 auto;\">\n"
    + "            <tr>\n"
    + HeaderCells(HeaderLabels)
    + "            </tr>\n    "
  }

  const CalendarTail: string := "</table></div>"

  /** The cells of one week, left to right. */
  function DaysHtml(moodData: map<string, string>, year: nat, month: nat, week: seq<nat>): string
    decreases |week|
  {
    if week == [] then ""
    else DaysHtml(moodData, year, month, week[..|week| - 1]) + CellHtml(CellOf(moodData, year, month, week[|week| - 1]))
  }

  /** One `<tr>` per week of the grid, top to bottom. */
  function WeeksHtml(moodData: map<string, string>, year: nat, month: nat, cal: seq<seq<nat>>): string
    decreases |cal|
  {
    if cal == [] then ""
    else WeeksHtml(moodData, year, month, cal[..|cal| - 1]) + "<tr>" + DaysHtml(moodData, year, month, cal[|cal| - 1]) + "</tr>"
  }

  /** The whole `calendar_html` for the week grid `cal` of
      `calendar.monthcalendar(year, month)`. */
  function RenderCalendar(moodData: map<string, string>, year: nat, month: nat, cal: seq<seq<nat>>): string {
    CalendarHead() + WeeksHtml(moodData, year, month, cal) + CalendarTail
  }

  /** `create_mood_calendar`: the header, the nested loops appending one row
      per week and one cell per day, then the closing tags. */
  method CreateMoodCalendar(moodData: map<string, string>, year: nat, month: nat, cal: seq<seq<nat>>)
    returns (calendarHtml: string)
    ensures calendarHtml == RenderCalendar(moodData, year, month, cal)
  {
    calendarHtml := AppendWeeks(CalendarHead(), moodData, year, month, cal);
    calendarHtml := calendarHtml + CalendarTail;
  }

  /** The nested loops of `create_mood_calendar`, appending to `html`. */
  method AppendWeeks(html: string, moodData: map<string, string>, year: nat, month: nat, cal: seq<seq<nat>>)
    returns (calendarHtml: string)
    ensures calendarHtml == html + WeeksHtml(moodData, year, month, cal)
  {
    calendarHtml := html;
    for w := 0 to |cal|
      invariant calendarHtml == html + WeeksHtml(moodData, year, month, cal[..w])
    {
      var week := cal[w];
      ghost var before := calendarHtml + "<tr>";
      calendarHtml := calendarHtml + "<tr>";
      for d := 0 to |week|
        invariant calendarHtml == before + DaysHtml(moodData, year, month, week[..d])
      {
        var cell := CellHtml(CellOf(moodData, year, month, week[d]));
        ghost var done := DaysHtml(moodData, year, month, week[..d]);
        DaysStep(moodData, year, month, week, d);
        calendarHtml := calendarHtml + cell;
        Associative(before, done, cell);
      }
      ghost var row := DaysHtml(moodData, year, month, week[..|week|]);
      calendarHtml := calendarHtml + "</tr>";
      WeeksStep(moodData, year, month, cal, w);
      ghost var prev := WeeksHtml(moodData, year, month, cal[..w]);
      assert calendarHtml == html + prev + "<tr>" + row + "</tr>";
      Associative(html, prev, "<tr>");
      Associative(html, prev + "<tr>", row);
      Associative(html, prev + "<tr>" + row, "</tr>");
    }
    assert cal[..|cal|] == cal;
  }

  lemma Associative(a: string, b: string, c: string)
    ensures (a + b) + c == a + (b + c)
  {
  }

  lemma DaysStep(moodData: map<string, string>, year: nat, month: nat, week: seq<nat>, d: nat)
    requires d < |week|
    ensures DaysHtml(moodData, year, month, week[..d + 1])
            == DaysHtml(moodData, year, month, week[..d]) + CellHtml(CellOf(moodData, year, month, week[d]))
  {
    assert week[..d + 1][..d] == week[..d];
  }

  lemma WeeksStep(moodData: map<string, string>, year: nat, month: nat, cal: seq<seq<nat>>, w: nat)
    requires w < |cal|
    ensures WeeksHtml(moodData, year, month, cal[..w + 1])
            == WeeksHtml(moodData, year, month, cal[..w]) + "<tr>" + DaysHtml(moodData, year, month, cal[w][..|cal[w]|]) + "</tr>"
  {
    assert cal[..w + 1][..w] == cal[..w];
    assert cal[w][..|cal[w]|] == cal[w];
  }

  /** The days a grid shows (its non-zero entries). */
  ghost predicate ShowsDay(cal: seq<seq<nat>>, day: nat) {
    day != 0 && exists w, c :: 0 <= w < |cal| && 0 <= c < |cal[w]| && cal[w][c] == day
  }

  /** Two mood maps hold the same entry (or none) under `key`. */
  predicate AgreeAt(m1: map<string, string>, m2: map<string, string>, key: string) {
    (key in m1 <==> key in m2) && (key in m1 ==> m1[key] == m2[key])
  }

  /** The calendar reads the mood data only at the keys of the days it shows:
      mood data that agree on those keys give the same calendar. */
  lemma {:induction false} CalendarReadsOnlyItsDays(m1: map<string, string>, m2: map<string, string>,
                                                    year: nat, month: nat, cal: seq<seq<nat>>)
    requires forall w, c :: 0 <= w < |cal| && 0 <= c < |cal[w]| && cal[w][c] != 0 ==>
      AgreeAt(m1, m2, DayKey(year, month, cal[w][c]))
    ensures RenderCalendar(m1, year, month, cal) == RenderCalendar(m2, year, month, cal)
  {
    forall w, c | 0 <= w < |cal| && 0 <= c < |cal[w]| && cal[w][c] != 0
      ensures CellOf(m1, year, month, cal[w][c]) == CellOf(m2, year, month, cal[w][c])
    {
      assert AgreeAt(m1, m2, DayKey(year, month, cal[w][c]));
    }
    WeeksAgree(m1, m2, year, month, cal);
  }

  lemma {:induction false} WeeksAgree(m1: map<string, string>, m2: map<string, string>,
                                      year: nat, month: nat, cal: seq<seq<nat>>)
    requires forall w, c :: 0 <= w < |cal| && 0 <= c < |cal[w]| && cal[w][c] != 0 ==>
      CellOf(m1, year, month, cal[w][c]) == CellOf(m2, year, month, cal[w][c])
    ensures WeeksHtml(m1, year, month, cal) == WeeksHtml(m2, year, month, cal)
    decreases |cal|
  {
    if cal != [] {
      var n := |cal|;
      WeeksAgree(m1, m2, year, month, cal[..n - 1]);
      DaysAgree(m1, m2, year, month, cal[n - 1]);
    }
  }

  lemma {:induction false} DaysAgree(m1: map<string, string>, m2: map<string, string>,
                                     year: nat, month: nat, week: seq<nat>)
    requires forall c :: 0 <= c < |week| && week[c] != 0 ==>
      CellOf(m1, year, month, week[c]) == CellOf(m2, year, month, week[c])
    ensures DaysHtml(m1, year, month, week) == DaysHtml(m2, year, month, week)
    decreases |week|
  {
    if week != [] {
      DaysAgree(m1, m2, year, month, week[..|week| - 1]);
    }
  }

  // ---------------------------------------------------------------------------
  // The week grid

  /** The layout of `calendar.monthcalendar`: `firstWeekday` is the weekday of
      the 1st (Monday 0 to Sunday 6, as `calendar.monthrange` reports it),
      `days` the month's length and `weekStart` the weekday of the first
      column (Monday, 0, unless `calendar.setfirstweekday` says otherwise).
      Each row is one week of seven days; days outside the month are 0. */
  function MonthGrid(firstWeekday: nat, days: nat, weekStart: nat): (g: seq<seq<nat>>)
    requires firstWeekday < 7 && weekStart < 7
    ensures |g| == (GridOffset(firstWeekday, weekStart) + days + 6) / 7
    ensures forall w :: 0 <= w < |g| ==> |g[w]| == 7
  {
    var offset := GridOffset(firstWeekday, weekStart);
    seq((offset + days + 6) / 7, w => seq(7, c => GridDay(offset, days, w, c)))
  }

  /** Number of padding cells before the 1st. */
  function GridOffset(firstWeekday: nat, weekStart: nat): nat {
    (firstWeekday + 7 - weekStart) % 7
  }

  function GridDay(offset: int, days: int, w: int, c: int): nat {
    var d := 7 * w + c - offset + 1;
    if 1 <= d <= days then d else 0
  }

  /** Weekday of day `day` of the month, Monday 0 to Sunday 6. */
  function Weekday(firstWeekday: nat, day: nat): nat
    requires day >= 1
  {
    (firstWeekday + day - 1) % 7
  }

  const WeekdayNames: seq<string> := ["Mon", "Tue", "Wed", "Thu", "Fri", "Sat", "Sun"]

  /** Every day of the month has its cell: row `(offset + d - 1) / 7`,
      column `(offset + d - 1) % 7`. */
  lemma MonthGridHasDay(firstWeekday: nat, days: nat, weekStart: nat, d: nat)
    requires firstWeekday < 7 && weekStart < 7 && 1 <= d <= days
    ensures var g := MonthGrid(firstWeekday, days, weekStart);
      var p := GridOffset(firstWeekday, weekStart) + d - 1;
      p / 7 < |g| && g[p / 7][p % 7] == d
  {
    var offset := GridOffset(firstWeekday, weekStart);
    var p := offset + d - 1;
    assert 7 * (p / 7) + p % 7 == p;
    assert p / 7 < (offset + days + 6) / 7;
  }

  /** A cell holds a day of the month, and its column fixes that day's
      weekday: column `c` holds weekday `(weekStart + c) % 7`. */
  lemma MonthGridWeekday(firstWeekday: nat, days: nat, weekStart: nat, w: nat, c: nat)
    requires firstWeekday < 7 && weekStart < 7
    requires w < |MonthGrid(firstWeekday, days, weekStart)| && c < 7
    requires MonthGrid(firstWeekday, days, weekStart)[w][c] != 0
    ensures var day := MonthGrid(firstWeekday, days, weekStart)[w][c];
      1 <= day <= days && Weekday(firstWeekday, day) == (weekStart + c) % 7
  {
    var offset := GridOffset(firstWeekday, weekStart);
    var d := 7 * w + c - offset + 1;
    assert MonthGrid(firstWeekday, days, weekStart)[w][c] == d;
    var q := (firstWeekday + 7 - weekStart) / 7;
    assert firstWeekday + 7 - weekStart == 7 * q + offset;
    assert firstWeekday + d - 1 == weekStart + c + 7 * (w + q - 1);
    ModSevenShift(weekStart + c, w + q - 1);
  }

  lemma ModSevenShift(x: int, k: int)
    ensures (x + 7 * k) % 7 == x % 7
  {
    var r := x % 7;
    assert x == 7 * (x / 7) + r;
    assert x + 7 * k == 7 * (x / 7 + k) + r;
  }

  /** calendar.monthcalendar as the function calls it, with Monday first. */
  function MondayFirstGrid(firstWeekday: nat, days: nat): seq<seq<nat>>
    requires firstWeekday < 7
  {
    MonthGrid(firstWeekday, days, 0)
  }

  /** The Sunday-first grid that the header `Sun … Sat` describes
      (`calendar.Calendar(calendar.SUNDAY).monthdayscalendar`). */
  function SundayFirstGrid(firstWeekday: nat, days: nat): seq<seq<nat>>
    requires firstWeekday < 7
  {
    MonthGrid(firstWeekday, days, 6)
  }

  /** As written, the header row labels column `c` with the day before the
      weekday that actually fills it: no day is under its own name. */
  lemma HeaderMislabelsMondayFirstGrid(firstWeekday: nat, days: nat)
    requires firstWeekday < 7
    ensures var g := MondayFirstGrid(firstWeekday, days);
      forall w, c :: 0 <= w < |g| && 0 <= c < 7 && g[w][c] != 0 ==>
        HeaderLabels[c] != WeekdayNames[Weekday(firstWeekday, g[w][c])]
  {
    var g := MondayFirstGrid(firstWeekday, days);
    forall w, c | 0 <= w < |g| && 0 <= c < 7 && g[w][c] != 0
      ensures HeaderLabels[c] != WeekdayNames[Weekday(firstWeekday, g[w][c])]
    {
      MonthGridWeekday(firstWeekday, days, 0, w, c);
    }
  }

  /** October 2026 starts on a Thursday, yet its 1st is drawn under "Wed". */
  lemma HeaderMislabelsOctober2026()
    ensures MondayFirstGrid(3, 31)[0][3] == 1
    ensures HeaderLabels[3] == "Wed" && WeekdayNames[Weekday(3, 1)] == "Thu"
  {
    MonthGridHasDay(3, 31, 0, 1);
  }

  /** With Sunday-first weeks every day stands under its own weekday's name. */
  lemma HeaderMatchesSundayFirstGrid(firstWeekday: nat, days: nat)
    requires firstWeekday < 7
    ensures var g := SundayFirstGrid(firstWeekday, days);
      forall w, c :: 0 <= w < |g| && 0 <= c < 7 && g[w][c] != 0 ==>
        HeaderLabels[c] == WeekdayNames[Weekday(firstWeekday, g[w][c])]
  {
    var g := SundayFirstGrid(firstWeekday, days);
    forall w, c | 0 <= w < |g| && 0 <= c < 7 && g[w][c] != 0
      ensures HeaderLabels[c] == WeekdayNames[Weekday(firstWeekday, g[w][c])]
    {
      MonthGridWeekday(firstWeekday, days, 6, w, c);
    }
  }

  /** The mood calendar of a month drawn on the grid its header describes. */
  function MoodCalendar(moodData: map<string, string>, year: nat, month: nat, firstWeekday: nat, days: nat): string
    requires firstWeekday < 7
  {
    RenderCalendar(moodData, year, month, SundayFirstGrid(firstWeekday, days))
  }

  // ---------------------------------------------------------------------------
  // Question-and-answer text

  /** The lines `keep` accepts, each turned into `entry(i, line)` where `i` is
      the line's own position (the shape of a loop over `enumerate` with an
      `if` inside). */
  function Enumerated(lines: seq<string>, keep: string -> bool, entry: (nat, string) -> string): seq<string>
    decreases |lines|
  {
    if lines == [] then []
    else
      var n := |lines| - 1;
      Enumerated(lines[..n], keep, entry) + (if keep(lines[n]) then [entry(n, lines[n])] else [])
  }

  /** The positions `keep` accepts, in order. */
  function KeptPositions(lines: seq<string>, keep: string -> bool): seq<nat>
    decreases |lines|
  {
    if lines == [] then []
    else
      var n := |lines| - 1;
      KeptPositions(lines[..n], keep) + (if keep(lines[n]) then [n] else [])
  }

  lemma EnumeratedStep(lines: seq<string>, keep: string -> bool, entry: (nat, string) -> string, i: nat)
    requires i < |lines|
    ensures Enumerated(lines[..i + 1], keep, entry)
            == Enumerated(lines[..i], keep, entry) + (if keep(lines[i]) then [entry(i, lines[i])] else [])
  {
    assert lines[..i + 1][..i] == lines[..i];
  }

  /** The kept positions are increasing, in range and exactly those of the
      accepted lines. */
  lemma {:induction false} KeptPositionsSpec(lines: seq<string>, keep: string -> bool)
    ensures var ix := KeptPositions(lines, keep);
      (forall k :: 0 <= k < |ix| ==> ix[k] < |lines| && keep(lines[ix[k]]))
      && (forall k, l :: 0 <= k < l < |ix| ==> ix[k] < ix[l])
      && (forall j :: 0 <= j < |lines| ==> (keep(lines[j]) <==> j in ix))
    decreases |lines|
  {
    if lines != [] {
      var n := |lines| - 1;
      var pre := lines[..n];
      KeptPositionsSpec(pre, keep);
      var px := KeptPositions(pre, keep);
      var tail: seq<nat> := if keep(lines[n]) then [n] else [];
      var ix := KeptPositions(lines, keep);
      assert ix == px + tail;
      forall k | 0 <= k < |ix| ensures ix[k] < |lines| && keep(lines[ix[k]]) {
        if k < |px| {
          assert ix[k] == px[k] && lines[px[k]] == pre[px[k]];
        }
      }
      forall k, l | 0 <= k < l < |ix| ensures ix[k] < ix[l] {
        if l >= |px| {
          assert ix[k] == px[k] && ix[l] == n;
        }
      }
      forall j | 0 <= j < |lines| ensures (keep(lines[j]) <==> j in ix) {
        if j < n {
          assert lines[j] == pre[j];
          assert j in ix <==> j in px;
        } else {
          assert n !in px;
        }
      }
    }
  }

  /** Entry `k` comes from the `k`-th accepted line and carries that line's
      own position. */
  lemma {:induction false} EnumeratedIndexed(lines: seq<string>, keep: string -> bool, entry: (nat, string) -> string)
    ensures var ix := KeptPositions(lines, keep);
      var es := Enumerated(lines, keep, entry);
      |es| == |ix|
      && forall k :: 0 <= k < |es| ==> ix[k] < |lines| && es[k] == entry(ix[k], lines[ix[k]])
    decreases |lines|
  {
    if lines != [] {
      var n := |lines| - 1;
      var pre := lines[..n];
      EnumeratedIndexed(pre, keep, entry);
      KeptPositionsSpec(pre, keep);
      var px := KeptPositions(pre, keep);
      assert forall k :: 0 <= k < |px| ==> px[k] < n && lines[px[k]] == pre[px[k]];
    }
  }

  /** `question.strip()` is truthy. */
  predicate IsQuestionLine(line: string) {
    Strip(line) != ""
  }

  /** `f"Q{i+1}: {question}\nA{i+1}: {answer}"`. */
  function AnswerEntry(i: nat, question: string, answer: string): (e: string)
    ensures e != "" && e[0] == 'Q'
  {
    "Q" + NatToString(i + 1) + ": " + question + "\nA" + NatToString(i + 1) + ": " + answer
  }

  /** The entry for line `i`; `answerFor(i)` is the text area keyed by `i`. */
  function EntryFor(answerFor: nat -> string): (nat, string) -> string {
    (i: nat, line: string) => AnswerEntry(i, Strip(line), answerFor(i))
  }

  /** The `answers` list built over `enumerate(questions_list)`. */
  function AnswerEntries(lines: seq<string>, answerFor: nat -> string): seq<string> {
    Enumerated(lines, IsQuestionLine, EntryFor(answerFor))
  }

  /** Positions of the question lines. */
  function QuestionPositions(lines: seq<string>): seq<nat> {
    KeptPositions(lines, IsQuestionLine)
  }

  /** One entry per non-blank line, in order; entry `k` belongs to the
      `k`-th non-blank line and keeps that line's own number, so blank lines
      are skipped without renumbering. */
  lemma AnswerEntriesIndexed(lines: seq<string>, answerFor: nat -> string)
    ensures var ix := QuestionPositions(lines);
      var es := AnswerEntries(lines, answerFor);
      |es| == |ix|
      && (forall j :: 0 <= j < |lines| ==> (!IsBlank(lines[j]) <==> j in ix))
      && (forall k, l :: 0 <= k < l < |ix| ==> ix[k] < ix[l])
      && forall k :: 0 <= k < |es| ==>
        ix[k] < |lines| && es[k] == AnswerEntry(ix[k], Strip(lines[ix[k]]), answerFor(ix[k]))
  {
    EnumeratedIndexed(lines, IsQuestionLine, EntryFor(answerFor));
    KeptPositionsSpec(lines, IsQuestionLine);
    forall j | 0 <= j < |lines| ensures (!IsBlank(lines[j]) <==> IsQuestionLine(lines[j])) {
      StripEmptyIffBlank(lines[j]);
    }
  }

  /** Python `all(xs)` on strings. */
  predicate AllTruthy(xs: seq<string>) {
    forall k :: 0 <= k < |xs| ==> xs[k] != ""
  }

  /** As written, `disabled=not all(answers)` tests the built entries, which
      always start with `Q`, so the button is never disabled. */
  lemma SubmitNeverDisabledAsWritten(lines: seq<string>, answerFor: nat -> string)
    ensures AllTruthy(AnswerEntries(lines, answerFor))
  {
    EnumeratedIndexed(lines, IsQuestionLine, EntryFor(answerFor));
  }

  /** The evident intent: the button waits until every shown question has a
      non-empty answer. */
  ghost predicate SubmitDisabled(lines: seq<string>, answerFor: nat -> string) {
    SomeUnanswered(lines, IsQuestionLine, answerFor, |lines|)
  }

  /** Some accepted line among the first `i` has an empty answer. */
  ghost predicate SomeUnanswered(lines: seq<string>, keep: string -> bool, answerFor: nat -> string, i: nat)
    requires i <= |lines|
  {
    exists j :: 0 <= j < i && keep(lines[j]) && answerFor(j) == ""
  }

  lemma SomeUnansweredStep(lines: seq<string>, keep: string -> bool, answerFor: nat -> string, i: nat)
    requires i < |lines|
    ensures SomeUnanswered(lines, keep, answerFor, i + 1)
            <==> SomeUnanswered(lines, keep, answerFor, i) || (keep(lines[i]) && answerFor(i) == "")
  {
  }

  /** The answer-building loop, returning the entries and whether the submit
      button is disabled (the corrected test). */
  method BuildAnswers(questions: string, answerFor: nat -> string) returns (answers: seq<string>, disabled: bool)
    ensures answers == AnswerEntries(Split(questions, '\n'), answerFor)
    ensures disabled <==> SubmitDisabled(Split(questions, '\n'), answerFor)
  {
    var questionsList := Split(questions, '\n');
    answers, disabled := CollectAnswers(questionsList, IsQuestionLine, EntryFor(answerFor), answerFor);
  }

  /** The loop of the answer builders: one entry per accepted line, and a
      flag raised by the first accepted line whose answer is empty. */
  method CollectAnswers(lines: seq<string>, keep: string -> bool, entry: (nat, string) -> string,
                        answerFor: nat -> string)
    returns (answers: seq<string>, disabled: bool)
    ensures answers == Enumerated(lines, keep, entry)
    ensures disabled <==> SomeUnanswered(lines, keep, answerFor, |lines|)
  {
    answers := [];
    disabled := false;
    for i := 0 to |lines|
      invariant answers == Enumerated(lines[..i], keep, entry)
      invariant disabled <==> SomeUnanswered(lines, keep, answerFor, i)
    {
      var line := lines[i];
      EnumeratedStep(lines, keep, entry, i);
      SomeUnansweredStep(lines, keep, answerFor, i);
      if keep(line) {
        answers := answers + [entry(i, line)];
        if answerFor(i) == "" {
          disabled := true;
        }
      }
    }
    assert lines[..|lines|] == lines;
  }

  /** With the corrected test an enabled button means every entry carries a
      non-empty answer. */
  lemma EnabledMeansAnswered(lines: seq<string>, answerFor: nat -> string)
    requires !SubmitDisabled(lines, answerFor)
    ensures var ix := QuestionPositions(lines);
      forall k :: 0 <= k < |ix| ==> answerFor(ix[k]) != ""
  {
    KeptPositionsSpec(lines, IsQuestionLine);
  }

  /** One question left unanswered: as written the button is enabled, under
      the corrected test it is disabled. */
  lemma EmptyAnswerExample()
    ensures AllTruthy(AnswerEntries(["How was your day?"], _ => ""))
    ensures SubmitDisabled(["How was your day?"], _ => "")
  {
    var lines := ["How was your day?"];
    SubmitNeverDisabledAsWritten(lines, _ => "");
    assert !IsSpace(lines[0][0]) && !IsSpace(lines[0][|lines[0]| - 1]);
    StripTrimmed(lines[0]);
    assert IsQuestionLine(lines[0]);
    assert SomeUnanswered(lines, IsQuestionLine, _ => "", 1);
  }

  // ---------------------------------------------------------------------------
  // Entries per day

  /** `entry['date'].split(' ')[0]`: the day part of the stored date. */
  function DayOf(date: string): string {
    Split(date, ' ')[0]
  }

  /** A date with no time part is its own day; a `day time` value gives its
      day. */
  lemma DayOfCases(day: string, time: string)
    requires !Contains(day, ' ') && !Contains(time, ' ')
    ensures DayOf(day) == day
    ensures DayOf(day + " " + time) == day
  {
    SplitJoin([day], ' ');
    SplitJoin([day, time], ' ');
    assert Join([' '], [day, time]) == day + " " + time;
  }

  /** Number of stored dates that fall on `day`. */
  function Occurrences(dates: seq<string>, day: string): nat
    decreases |dates|
  {
    if dates == [] then 0
    else Occurrences(dates[..|dates| - 1], day) + (if DayOf(dates[|dates| - 1]) == day then 1 else 0)
  }

  /** `entry_counts` after the loop over the first entries. */
  function Tally(dates: seq<string>): map<string, nat>
    decreases |dates|
  {
    if dates == [] then map[]
    else
      var counts := Tally(dates[..|dates| - 1]);
      var day := DayOf(dates[|dates| - 1]);
      if day in counts then counts[day := counts[day] + 1] else counts[day := 1]
  }

  /** The keys are exactly the days that occur, each mapped to how often it
      occurs. */
  lemma {:induction false} TallyCounts(dates: seq<string>)
    ensures forall day :: (day in Tally(dates) <==> Occurrences(dates, day) > 0)
    ensures forall day :: day in Tally(dates) ==> Tally(dates)[day] == Occurrences(dates, day)
    decreases |dates|
  {
    if dates != [] {
      TallyCounts(dates[..|dates| - 1]);
    }
  }

  /** The entry-count loop of `mood_analytics_ui`. */
  method CountEntriesPerDay(dates: seq<string>) returns (entryCounts: map<string, nat>)
    ensures entryCounts == Tally(dates)
  {
    entryCounts := map[];
    for i := 0 to |dates|
      invariant entryCounts == Tally(dates[..i])
    {
      assert dates[..i + 1][..i] == dates[..i];
      var day := DayOf(dates[i]);
      if day in entryCounts {
        entryCounts := entryCounts[day := entryCounts[day] + 1];
      } else {
        entryCounts := entryCounts[day := 1];
      }
    }
    assert dates[..|dates|] == dates;
  }

  // ---------------------------------------------------------------------------
  // The journal query

  datatype Param = TextParam(text: string) | IntParam(n: int)

  const SelectAll: string := "SELECT * FROM journal_entries WHERE 1=1"
  const SearchClause: string := " AND (summary LIKE " + "?" + " OR journal_entry LIKE " + "?" + ")"
  const ModeClause: string := " AND mode = " + "?"
  const OrderClause: string := " ORDER BY created_at DESC LIMIT " + "?"

  lemma {:induction false} CountCharAbsent(s: string, c: char)
    requires forall i :: 0 <= i < |s| ==> s[i] != c
    ensures CountChar(s, c) == 0
    decreases |s|
  {
    if s != [] {
      CountCharAbsent(s[..|s| - 1], c);
    }
  }

  /** Each clause carries as many `?` placeholders as the parameters it
      adds. */
  lemma ClausePlaceholders()
    ensures CountChar(SelectAll, '?') == 0
    ensures CountChar(SearchClause, '?') == 2
    ensures CountChar(ModeClause, '?') == 1
    ensures CountChar(OrderClause, '?') == 1
  {
    CountCharAbsent(SelectAll, '?');
    SearchClausePlaceholders();
    assert CountChar(ModeClause, '?') == 1 by {
      CountCharAbsent(" AND mode = ", '?');
      CountCharAppend(" AND mode = ", "?", '?');
    }
    assert CountChar(OrderClause, '?') == 1 by {
      CountCharAbsent(" ORDER BY created_at DESC LIMIT ", '?');
      CountCharAppend(" ORDER BY created_at DESC LIMIT ", "?", '?');
    }
  }

  lemma SearchClausePlaceholders()
    ensures CountChar(SearchClause, '?') == 2
  {
    var a, b := " AND (summary LIKE ", " OR journal_entry LIKE ";
    CountCharAbsent(a, '?');
    CountCharAbsent(b, '?');
    CountCharAbsent(")", '?');
    CountCharAppend(a, "?", '?');
    CountCharAppend(a + "?", b, '?');
    CountCharAppend(a + "?" + b, "?", '?');
    CountCharAppend(a + "?" + b + "?", ")", '?');
  }

  /** The query text `get_journal_entries` sends. */
  function EntriesQuery(searchTerm: Option<string>, modeFilter: Option<string>): string {
    SelectAll + (if Truthy(searchTerm) then SearchClause else "")
    + (if Truthy(modeFilter) then ModeClause else "") + OrderClause
  }

  /** The parameters that go with it. */
  function EntriesParams(limit: int, searchTerm: Option<string>, modeFilter: Option<string>): seq<Param> {
    (if Truthy(searchTerm) then [TextParam("%" + searchTerm.value + "%"), TextParam("%" + searchTerm.value + "%")] else [])
    + (if Truthy(modeFilter) then [TextParam(modeFilter.value)] else []) + [IntParam(limit)]
  }

  /** The query has exactly one placeholder per parameter, and the
      parameters are the search pattern twice, then the mode, then the limit,
      each present only when its filter is given. */
  lemma EntriesQueryPlaceholders(limit: int, searchTerm: Option<string>, modeFilter: Option<string>)
    ensures var params := EntriesParams(limit, searchTerm, modeFilter);
      CountChar(EntriesQuery(searchTerm, modeFilter), '?') == |params|
      && |params| == (if Truthy(searchTerm) then 2 else 0) + (if Truthy(modeFilter) then 1 else 0) + 1
      && params[|params| - 1] == IntParam(limit)
      && (Truthy(searchTerm) ==> params[0] == params[1] == TextParam("%" + searchTerm.value + "%"))
      && (Truthy(modeFilter) ==> params[|params| - 2] == TextParam(modeFilter.value))
  {
    ClausePlaceholders();
    var s := if Truthy(searchTerm) then SearchClause else "";
    var m := if Truthy(modeFilter) then ModeClause else "";
    CountFour(SelectAll, s, m, OrderClause, '?');
  }

  lemma CountFour(a: string, b: string, c: string, d: string, ch: char)
    ensures CountChar(a + b + c + d, ch) == CountChar(a, ch) + CountChar(b, ch) + CountChar(c, ch) + CountChar(d, ch)
  {
    CountCharAppend(a, b, ch);
    CountCharAppend(a + b, c, ch);
    CountCharAppend(a + b + c, d, ch);
  }

  /** `get_journal_entries` up to the `execute` call: the query and its
      parameters, built clause by clause. */
  method BuildEntriesQuery(limit: int, searchTerm: Option<string>, modeFilter: Option<string>)
    returns (query: string, params: seq<Param>)
    ensures query == EntriesQuery(searchTerm, modeFilter)
    ensures params == EntriesParams(limit, searchTerm, modeFilter)
  {
    query := SelectAll;
    params := [];
    if Truthy(searchTerm) {
      query := query + SearchClause;
      var pattern := "%" + searchTerm.value + "%";
      params := params + [TextParam(pattern), TextParam(pattern)];
    } else {
      AppendEmpty(query);
    }
    if Truthy(modeFilter) {
      query := query + ModeClause;
      params := params + [TextParam(modeFilter.value)];
    } else {
      AppendEmpty(query);
    }
    query := query + OrderClause;
    params := params + [IntParam(limit)];
  }

  lemma AppendEmpty(s: string)
    ensures s + "" == s
  {
  }
}
