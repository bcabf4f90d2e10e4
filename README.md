# SmartJournal: a Dafny model of its logic

SmartJournal is a journaling application that comes in three front ends:

- a Flask web app (`app.py`);
- a Streamlit app (`smart_journal.py`);
- a minimal Flask variant without an AI service (`simple_app.py`).

It also ships two console tools for its SQLite database (`db_manager.py`, `db_viewer.py`).

A language model writes the reflection questions, insights and summaries. Everything around that model is small, deterministic logic, and this project models it and proves its properties:

- **The AI service's fallback contract.** This is the `AIService` class of `app.py`:
  - the availability flag is fixed at construction;
  - the raw reply is parsed into a list of clean lines;
  - a remote call gets the static fallback whenever the service is unavailable or the call fails, and then reports 0 tokens.
- **The JSON routes of `app.py`.** The model covers their guards, the `DATABASE_URL` rewrite, the `from_json` template filter, and the one-mood-per-day upsert of `save_mood`.
- **Month-scoped token accounting in `smart_journal.py`**, together with the limit gate in front of every generator call. The other `smart_journal.py` helpers are modelled too:
  - the mood colour and emoji tables;
  - the quote of the day;
  - month navigation;
  - the HTML mood calendar;
  - the question-and-answer text;
  - per-day entry counts;
  - the journal search query with its parameters.
- **The `simple_app.py` routes:**
  - `create_journal` and `generate_questions`;
  - the partial-overwrite mood upsert of `save_mood`;
  - the `mood_analytics` series.
- **The console tools' output:**
  - cell formatting, and header/separator construction;
  - the "showing min(limit, total)" rule;
  - row-limit parsing, SELECT detection, and the rule that only non-SELECT queries commit.

## How things are represented

- Python values are modelled explicitly:
  - `str.strip`/`isspace` over Python's whitespace set, `split` and `join`, `ljust`, and slicing (in `Text`);
  - truthiness, and `dict.get` with a default (`Options`);
  - `strftime('%Y-%m-%d')` on dates (`Dates`).
- The language-model call is a value: `Remote = Completed(content, totalTokens) | Failed`. `Failed` stands for any exception the client raises.
- Request fields, the stored files and the environment are `Option` values.
- The clock is a parameter: the current date, the month and the day of the year.
- Database rows are sequences passed in and returned.
- Console output is the sequence of lines a function returns.
- The source's stateful parts are classes:
  - `AIService` (its availability flag);
  - `MoodLog` and `MoodTable` (the mood tables the routes update in place);
  - `TokenLedger` (the `token_usage.json` record);
  - `DatabaseManager` (its connection flag and the commits made).
- The loops are methods proved against the specification functions:
  - the calendar HTML, the answer list and the per-day tally (`smart_journal.py`);
  - the query and parameter builder (`smart_journal.py`);
  - the cell loops of both console tools.

## Model

| member | source | states |
|---|---|---|
| AiService.AIService.constructor | app.py:13-27 | the service is available exactly when the client library imports and `OPENAI_API_KEY` is non-empty |
| AiService.AIService.GenerateReflectionQuestions | app.py:29-79 | unavailable or failed call: the mode's fallback question list and 0 tokens; otherwise the parsed reply lines and the reply's token count; never a blank question |
| AiService.AIService.EnhanceJournalEntry | app.py:81-124 | the same contract with the insight fallbacks |
| AiService.AIService.GenerateJournalSummary | app.py:162-194 | unavailable or failed call: the summary fallback and 0 tokens; otherwise the stripped reply and its tokens |
| AiService.AIService.GenerateAssistantResponse | app.py:196-230 | unavailable or failed call: the mode's assistant fallback and 0 tokens; otherwise the stripped reply and its tokens |
| AiService.AIService.GenerateMoodResponse | app.py:232-262 | unavailable or failed call: the mood's fallback text and 0 tokens; otherwise the stripped reply and its tokens |
| AiService.AIService.GenerateConversationalQuestions | app.py:289-337 | unavailable or failed call: the mode's conversational fallback and 0 tokens; otherwise the parsed lines and the tokens; never blank |
| AiService.AIService.GenerateConversationalSummary | app.py:339-374 | unavailable or failed call: the built conversational fallback and 0 tokens; otherwise the stripped reply and its tokens |
| AiService.AIService.IsAvailable | app.py:158-160 | reports the flag fixed at construction: true exactly when a completed reply is used instead of the fallback |
| AiService.AIService.BlockReplyTrimmed | app.py:189-190 | a completed summary call returns text with no surrounding whitespace, and reports the reply's tokens |
| AiService.AIService.TokensOnlyFromCompletedCalls | app.py:31-32 | a non-zero token count implies the service was available, the call completed, and the count is the reply's own |
| AiService.KeepNonBlank | app.py:73 | the comprehension keeps no more pieces than it gets, and every kept piece is non-empty and stripped |
| AiService.ParseLinesNoBlank | app.py:72-73 | no parsed line is empty or whitespace-only |
| AiService.ParseLinesOfBlank | app.py:72-73 | an all-blank reply parses to the empty list |
| AiService.KeepNonBlankOfClean | app.py:73 | pieces that are already clean all survive, in order |
| AiService.ParseLinesOfJoin | app.py:72-73 | clean lines joined by newlines parse back to exactly those lines (order preserved, nothing dropped) |
| AiService.FallbackQuestions | app.py:126-142 | 4 questions for mode `quick`, 5 for every other mode string |
| AiService.FallbackInsights | app.py:144-156 | 2 insights for `quick`, 3 otherwise |
| AiService.FallbackConversationalQuestions | app.py:376-392 | 3 questions for `quick`, 6 otherwise |
| AiService.FallbackListsNoBlank | app.py:126-156 | no fallback list holds a blank entry |
| AiService.ConversationalFallbackExtendsQuick | app.py:376-392 | the long conversational list has the quick list's first two questions first and its third question last |
| AiService.FallbackSummaryUsesFirst30 | app.py:264-269 | the summary fallback depends only on the first 30 characters of the daily summary |
| AiService.MoodFallbackTable | app.py:278-287 | exactly `happy`, `calm`, `neutral`, `anxious` and `sad` get their own message, distinct from each other; any other mood gets the generic one; mode has no effect |
| AiService.BuildConversationalSummary | app.py:394-405 | the `+=` construction yields the conversational fallback text |
| AiService.ConversationalSummaryShape | app.py:394-405 | the text always starts with the opening built from the summary's first 100 characters; it is exactly that opening iff there are no answers; otherwise it ends with the detailed sentence iff mode is `detailed`, and with the quick one for any other mode |
| AiService.ConversationalSummaryUsesFirst100 | app.py:396 | the fallback depends only on the first 100 characters of the summary |
| App.DatabaseUriCases | app.py:413-421 | unset or empty: the SQLite default; a `postgres://` URL has its prefix replaced once by `postgresql://`; any other URL is kept; the result never starts with `postgres://` |
| App.DatabaseUriIdempotent | app.py:413-418 | rewriting an already rewritten URL changes nothing |
| App.FromJsonFilterGuard | app.py:426-440 | a non-string, blank text or a parse failure gives `[]`; otherwise the parse of the stripped text; stripping first does not change the result |
| App.GenerateQuestions | app.py:637-669 | rejected with "Daily summary is required" iff the summary is not truthy; otherwise the service's questions and tokens; tokens are non-zero only from a completed, available call |
| App.GenerateLiveInsights | app.py:674-706 | rejected iff either text is not truthy; otherwise the service's insights and tokens |
| App.GenerateAiResponse | app.py:711-784 | summary guard first; then rejected with "Invalid response type" iff the type is not `summary`, `content` or `mood`; `summary` answers under `summary` with the service's journal summary and its tokens; `content` answers under `assistant_response` with the assistant response to the journal content (default `""`); `mood` answers under `assistant_response` with the mood response for the given mood (default `""`) |
| App.GenerateAiQuestions | app.py:789-841 | rejected iff the summary is not truthy; otherwise the conversational questions and tokens |
| App.GenerateJournalSummary | app.py:846-871 | rejected iff the summary is not truthy; otherwise the conversational summary of the given answers (default none) |
| App.CreateJournal | app.py:576-617 | the stored fields take the request values or their defaults; a truthy `ai_summary` is stored as the content at 0 tokens; otherwise the service writes the summary and its tokens are stored |
| App.CreateJournalTokens | app.py:588-597 | a stored entry has non-zero tokens only if no summary was supplied and the service completed a call |
| App.FindMood | app.py:890-893 | the lookup returns the first entry with the given user and day, or the table's length when there is none |
| App.MoodSavedShape | app.py:895-907 | saving keeps one entry per user and day; it adds an entry iff none existed; all other entries are unchanged; the day's entry holds exactly the new mood and notes |
| App.MoodSavedIdempotent | app.py:880-910 | saving the same mood twice equals saving it once |
| App.MoodLog.constructor | app.py:476-482 | an empty mood table with one entry per user and day |
| App.MoodLog.SaveMood | app.py:880-910 | a missing mood fails with "Mood is required" and no change; otherwise success and the table is the upsert's result, still one entry per day |
| SmartJournal.LoadUsage | smart_journal.py:54-60 | the stored record, or a zero-token record for the current month when there is no file |
| SmartJournal.UsageAfterUpdate | smart_journal.py:67-78 | the month becomes the current one; a stale month restarts the total at the tokens used; the same month adds them |
| SmartJournal.TokenLimit | smart_journal.py:90 | the environment limit wins, then the secrets limit, then 40000 |
| SmartJournal.LimitCheck | smart_journal.py:80-91 | a stale month gives `(True, 0)`; otherwise the stored total, with the strict test `total < limit` |
| SmartJournal.UpdatesAccumulate | smart_journal.py:67-78 | two updates in one month add up to one update by their sum |
| SmartJournal.NewMonthStartsFresh | smart_journal.py:73-74 | in a new month the check passes with usage 0, and an update stores just the new tokens |
| SmartJournal.OvershootBounded | smart_journal.py:845-889 | when no reply costs more than `maxTokens`, a month's total stays below `limit + maxTokens` across any run of gated requests |
| SmartJournal.LimitReachedIsFinal | smart_journal.py:849-852 | once the month's total reaches the limit, every request is refused with no reply and 0 tokens, and the record does not change |
| SmartJournal.TokenLedger.UpdateTokenUsage | smart_journal.py:67-78 | returns and stores the updated usage record |
| SmartJournal.TokenLedger.CheckTokenLimit | smart_journal.py:80-91 | returns the limit check of the stored record against the configured limit |
| SmartJournal.TokenLedger.Generate | smart_journal.py:845-889 | one generator call: refused at the limit or on a failed call, leaving the record unchanged; otherwise the stripped reply, its tokens, and the tokens recorded |
| SmartJournal.MoodColorTable | smart_journal.py:107-118 | a colour other than `#E0E0E0` iff the mood is one of the seven known moods; always a `#RRGGBB` colour; distinct moods get distinct colours |
| SmartJournal.MoodEmojiTable | smart_journal.py:120-131 | an emoji other than the question mark iff the mood is known; distinct moods get distinct emojis |
| SmartJournal.QuoteIndex | smart_journal.py:479-482 | the index is always valid for the ten quotes |
| SmartJournal.QuoteOfTheDay | smart_journal.py:436-484 | the quote is one of the list's quotes |
| SmartJournal.QuoteRotation | smart_journal.py:482 | the next day shows the next quote cyclically, and the quote repeats every ten days |
| SmartJournal.PrevMonth | smart_journal.py:1264-1269 | a valid month steps back exactly one month in absolute month numbering |
| SmartJournal.NextMonth | smart_journal.py:1275-1280 | a valid month steps forward exactly one month |
| SmartJournal.MonthNavigationInverse | smart_journal.py:1264-1280 | previous and next undo each other; January wraps to December of the year before, and December to January of the year after |
| SmartJournal.MonthIndexInjective | smart_journal.py:1264-1280 | two valid months with the same absolute number are equal |
| SmartJournal.CellOfCases | smart_journal.py:155-166 | day 0 is the empty cell; any other day is coloured iff its `YYYY-MM-DD` key has a truthy mood; a coloured cell uses that mood's colour and emoji |
| SmartJournal.DayKeysDistinct | smart_journal.py:158 | different days of one month have different keys |
| SmartJournal.CreateMoodCalendar | smart_journal.py:133-170 | the nested loops build exactly the calendar the rendering function describes |
| SmartJournal.AppendWeeks | smart_journal.py:152-167 | the week loop appends the HTML of every week, in order |
| SmartJournal.CalendarReadsOnlyItsDays | smart_journal.py:159 | two mood maps that hold the same entry, or none, under the `YYYY-MM-DD` key of every day the grid shows give the same calendar, whatever they hold elsewhere |
| SmartJournal.MonthGrid | smart_journal.py:135 | one row of seven cells per week the month touches |
| SmartJournal.MonthGridHasDay | smart_journal.py:135 | every day of the month has exactly its cell in the grid |
| SmartJournal.MonthGridWeekday | smart_journal.py:135 | every non-zero cell holds a day of the month, and its column fixes that day's weekday |
| SmartJournal.HeaderMislabelsMondayFirstGrid | smart_journal.py:135-150 | with `monthcalendar`'s Monday-first weeks, no day stands under its own weekday's name |
| SmartJournal.HeaderMislabelsOctober2026 | smart_journal.py:135-150 | 1 October 2026, a Thursday, is drawn under "Wed" |
| SmartJournal.HeaderMatchesSundayFirstGrid | smart_journal.py:138-150 | on Sunday-first weeks, every day stands under its own weekday's name |
| SmartJournal.KeptPositionsSpec | smart_journal.py:1366-1367 | the kept positions are increasing, and they are exactly the lines the filter accepts |
| SmartJournal.EnumeratedIndexed | smart_journal.py:1366-1375 | the k-th entry is built from the k-th kept line, together with that line's own position |
| SmartJournal.AnswerEntry | smart_journal.py:1375 | an answer entry is never empty and starts with `Q` |
| SmartJournal.AnswerEntriesIndexed | smart_journal.py:1366-1375 | one entry per non-blank question line, in order; entry k uses its line's own number i+1 and the stripped question, so blank lines are skipped without renumbering |
| SmartJournal.SubmitNeverDisabledAsWritten | smart_journal.py:1377 | every built entry is truthy, so `not all(answers)` is always false |
| SmartJournal.BuildAnswers | smart_journal.py:1419-1429 | the loop builds exactly the answer entries, and the corrected `disabled` is true iff some shown question has an empty answer |
| SmartJournal.CollectAnswers | smart_journal.py:1418-1427 | the enumerate-and-filter loop yields the filtered entries, and it finds an unanswered kept line iff one exists |
| SmartJournal.EnabledMeansAnswered | smart_journal.py:1429 | when the corrected button is enabled, every shown question has a non-empty answer |
| SmartJournal.EmptyAnswerExample | smart_journal.py:1377 | one question with an empty answer: as written the button stays enabled, while the corrected test disables it |
| SmartJournal.DayOfCases | smart_journal.py:256-258 | the day part of `YYYY-MM-DD` and of `YYYY-MM-DD hh:mm:ss` is the date itself |
| SmartJournal.TallyCounts | smart_journal.py:250-263 | a day is in the tally iff some entry falls on it, and its count is the number of such entries |
| SmartJournal.CountEntriesPerDay | smart_journal.py:250-263 | the loop over the entries builds that tally |
| SmartJournal.ClausePlaceholders | smart_journal.py:401-412 | the base query has no `?`; the search clause has two, the mode clause one, and the order clause one |
| SmartJournal.EntriesQueryPlaceholders | smart_journal.py:401-413 | the query has one `?` per parameter; there are 2·[search] + [mode] + 1 of them; both LIKE patterns `%term%` come first, the mode second to last, and the limit last |
| SmartJournal.BuildEntriesQuery | smart_journal.py:401-413 | the appending code builds exactly that query and that parameter list |
| SimpleApp.CreateJournal | simple_app.py:149-172 | the request values or their defaults (`""`, mode `quick`) are stored with empty question and answer lists and 0 tokens; the reply is the fixed success message |
| SimpleApp.CreateJournalAgreesWithApp | simple_app.py:149-172 | with a truthy content, the stored entry is the one `app.py` stores for the same request with no questions or answers and that content as its summary |
| SimpleApp.GenerateQuestions | simple_app.py:185-213 | a falsy summary fails; `quick` gives the 3-question list; any other mode gives 5 questions whose first three are the quick list; always 0 tokens |
| SimpleApp.GenerateQuestionsFree | simple_app.py:209-213 | tokens are always 0, and no question is blank |
| SimpleApp.FindRecord | simple_app.py:227-230 | the first record of the user and day, or the table's length when there is none |
| SimpleApp.MoodUpdatedShape | simple_app.py:227-244 | one record per user and day is kept; a record is added iff none existed; others are unchanged; an existing record takes each truthy value and keeps the old one otherwise; a new record holds the values as given |
| SimpleApp.MoodUpdatedTwice | simple_app.py:227-230 | a second save on the same day adds no record |
| SimpleApp.MoodBeforeThenAfter | simple_app.py:232-236 | saving the "before" mood and then the "after" mood leaves one record holding both |
| SimpleApp.MoodTable.SaveMood | simple_app.py:222-247 | always succeeds; the table becomes the partial upsert's result and keeps one record per day |
| SimpleApp.ChartDates | simple_app.py:263 | one ISO date per record, in record order |
| SimpleApp.MoodsBefore | simple_app.py:264 | at most one value per record, none of them empty |
| SimpleApp.MoodsAfter | simple_app.py:265 | at most one value per record, none of them empty |
| SimpleApp.ChartSeriesAppend | simple_app.py:263-265 | all three series distribute over concatenation, so they keep record order |
| SimpleApp.ChartSeriesSingle | simple_app.py:263-265 | a record contributes its date, and a mood value exactly when that value is truthy |
| SimpleApp.MoodsCounted | simple_app.py:264-265 | records with both moods give series as long as the date list |
| DbManager.FormatCell | db_manager.py:131-139 | `None` is `NULL` padded to 20; a string of more than 18 characters is its first 17 plus `...`, exactly 20 wide; anything else is its text padded to at least 20, never cut |
| DbManager.CellWidthExact | db_manager.py:134-139 | a cell is exactly 20 wide iff it is `NULL`, a string, or text of at most 20 characters |
| DbManager.Separator | db_manager.py:92-93 | the dash line is exactly as long as the header |
| DbManager.HeaderLength | db_manager.py:90-91 | a header of n names of at most w characters is n·w + 3(n−1) long |
| DbManager.FormatRow | db_manager.py:96-105 | the cell loop yields the formatted cells joined by `" \| "` |
| DbManager.RowAlignsWithHeader | db_manager.py:90-105 | rows of fitting values under short column names are exactly as long as the header |
| DbManager.Grid | db_manager.py:90-105 | the dash line, header and dash line, then one line per row in order |
| DbManager.ShownCount | db_manager.py:79 | the count shown is `min(limit, total)` |
| DbManager.ShowTableData | db_manager.py:66-108 | a read error prints only its message; an empty table prints only the empty-table line; otherwise the showing line, then the grid |
| DbManager.ShowTableDataRows | db_manager.py:75-105 | an empty table prints one line and no rows; otherwise one line per fetched row after three header lines |
| DbManager.RowLimitAsWritten | db_manager.py:234-235 | as written, and among ASCII and superscript digits, the parse fails iff the text passes `isdigit()` but is not an ASCII numeral |
| DbManager.RowLimit | db_manager.py:234-235 | an ASCII numeral gives its value; anything else gives 10 |
| DbManager.RowLimitAgrees | db_manager.py:234-235 | wherever the written code returns, it returns the intended limit |
| DbManager.RowLimitOfNumeral | db_manager.py:235 | the limit read from the decimal text of n is n |
| DbManager.RowLimitSuperscript | db_manager.py:235 | for `²`, the written code raises, while the intended code gives 10 |
| DbManager.SelectDetected | db_manager.py:117 | a trimmed query whose first six letters upper-case to `SELECT` is a SELECT, also with leading spaces |
| DbManager.NotSelect | db_manager.py:117 | a trimmed query whose first letter is not `s`/`S` is not a SELECT |
| DbManager.CustomQuery | db_manager.py:110-151 | commits iff the query ran and is not a SELECT; an error prints only its message; an empty SELECT prints "No results found"; a SELECT with rows prints the grid and the total; others print the affected count |
| DbManager.DatabaseManager.constructor | db_manager.py:11-13 | not connected, with no commits |
| DbManager.DatabaseManager.Connect | db_manager.py:15-27 | succeeds iff the file exists and opens; commits are unchanged |
| DbManager.DatabaseManager.Disconnect | db_manager.py:29-33 | no connection afterwards; commits are unchanged |
| DbManager.DatabaseManager.RunCustomQuery | db_manager.py:110-151 | prints the query's lines, and commits once exactly when the query is a non-SELECT that ran |
| DbViewer.ViewerCell | db_viewer.py:83-92 | `None` is `NULL` padded to 15; a timestamp is padded and never cut; anything else keeps at most its first 14 characters, padded to exactly 15 |
| DbViewer.ViewerCellWidth | db_viewer.py:86-91 | a cell is exactly 15 wide iff it is not a longer timestamp; every non-timestamp cell ends in a space |
| DbViewer.FormatViewerRow | db_viewer.py:83-92 | the cell loop yields the viewer's cells joined by `" \| "` |
| DbViewer.ViewerRowAlignsWithHeader | db_viewer.py:77-92 | rows without long timestamps, under names of at most 15 characters, are as long as the header |
| DbViewer.ViewTableData | db_viewer.py:53-95 | the showing line always comes first; a total of 0 adds only "(No data)"; otherwise the dash line, header and dash line, then one line per row; a read error prints only its message |
| DbViewer.ViewerDefaultShowing | db_viewer.py:53-62 | with the default limit of 5 the count line says it shows the total when the table holds at most five records, and 5 otherwise |
| DbViewer.ViewerEmptyTable | db_viewer.py:62-66 | on an empty table the viewer prints "showing 0 of 0" and "(No data)", while the console prints only its empty-table line |
| Dates.IsoDateShape | simple_app.py:263 | a valid four-digit-year date renders as `YYYY-MM-DD`: ten characters, dashes at positions 4 and 7, digits elsewhere |
| Dates.IsoDateInjective | simple_app.py:263 | different valid dates render differently, so the chart's dates tell days apart |
| Text.StripSpec | app.py:73 | `strip()` removes exactly the leading and trailing whitespace: what is left is a contiguous, trimmed piece of the input |
| Text.SplitJoin | app.py:72 | splitting pieces joined by a separator they do not contain gives back the pieces |
| Text.LJust | db_manager.py:135 | `ljust` keeps the text and pads it with spaces up to the width, never truncating |

## Left out

- The language-model client: the prompts, model names, `max_tokens` and temperature. A call is the `Remote` value; any exception the client raises is `Failed`.
- The Streamlit widgets that drive the Streamlit app, such as buttons, `session_state` navigation and CSS. The values they return are parameters.
- Flask routing, templates, `jsonify`, login, password hashing and sessions.
- SQLAlchemy and sqlite3 execution, and reading and writing `token_usage.json` and `mood_data.json`. Tables and files are values passed in and returned.
- `json.dumps` and `json.loads`:
  - the question and answer lists are stored as lists, not as their JSON text;
  - `from_json_filter` takes the decoder as a parameter.
- JSON `null` and an absent key are both `None` in the model, while `data.get(key, default)` returns the default only for an absent key. The cases where the two differ are these:
  - App.MoodLog.SaveMood: `data.get('notes', '')` on an explicit `null` stores `None` in the source, but `""` in the model.
  - App.GenerateAiResponse, App.GenerateAiQuestions: an explicit `null` `daily_summary` is sliced for logging before the guard (app.py:719, 795). That raises `TypeError`, an HTTP 500 in the source; the model rejects with "Daily summary is required".
  - App.GenerateQuestions, App.GenerateLiveInsights, App.GenerateAiResponse, App.GenerateAiQuestions, App.GenerateJournalSummary, App.CreateJournal, SimpleApp.GenerateQuestions, SimpleApp.CreateJournal: an explicit `null` `mode` reaches the service, or is stored, as `None` in the source. `None == 'quick'` is false, so the non-quick fallbacks are chosen (app.py:128, 146, 266, 273, 378; simple_app.py:194). The model's `mode.GetOr("quick")` picks the quick ones and stores `quick`.
  - App.GenerateJournalSummary: an explicit `null` `user_answers` on an available service makes `enumerate(None)` (app.py:350) raise inside the `try`, so the source answers with the fallback and 0 tokens (app.py:372-374). The model passes `[]` and returns the reply and its tokens.
  - App.GenerateAiResponse: an explicit `null` `type` with a truthy summary matches none of the three branches in the source, which answers "Invalid response type" (app.py:716, 721-756). The model's `responseType.GetOr("summary")` answers with the summary reply.
  - App.CreateJournal: an explicit `null` `daily_summary` ends in an HTTP 500 on every path of the source. With a supplied `ai_summary`, and after a completed service call, the insert violates the NOT NULL `daily_summary` column (app.py:467, 599-611). On an unavailable service or a failed call, `_get_fallback_summary` slices `None[:30]` (app.py:266, 268), and the `except` at app.py:591-595 slices `None[:100]` and raises again. The model stores `""` and answers with success.
  - App.CreateJournal: an explicit `null` `ai_questions` or `user_answers` is stored by the source as `json.dumps(None)`, the text `"null"` (app.py:585-586). The model stores the empty list.
  - SimpleApp.CreateJournal: an explicit `null` `daily_summary` or `journal_content` violates the NOT NULL columns (simple_app.py:41-42), so the source's insert fails with an HTTP 500 (simple_app.py:153-165). The model stores `""` and answers with success.
- `datetime.now`, `strftime`, `timetuple().tm_yday` and `calendar.monthrange`. The current date, the `"%Y-%m"` month, the day of the year, and the weekday of the 1st become parameters. `MonthGrid` models `calendar.monthcalendar`.
- The `strptime` attempt in the per-day count (smart_journal.py:254-255) is not modelled. `save_journal_entry` stores the bare date `datetime.now().strftime('%Y-%m-%d')` (smart_journal.py:379), with no time part at all, so `strptime(…, '%Y-%m-%d %H:%M:%S.%f')` always fails. So the model takes the `split(' ')[0]` path of the bare `except`.
- The `"\n\n".join(answers)` behind the submit button (smart_journal.py:1379, 1431) is not a member of its own. It is `Text.Join`, and the lemmas about that function cover it.
- Pandas, the float statistics of the analytics pages, and `get_mood_analytics`.
- The route-level `except` fallbacks of `app.py` (for example app.py:647-663 and 758-784). They are unreachable because every `AIService` operation catches its own errors. The `except` inside `create_journal` (app.py:591-595) is reached only by an explicit `null` `daily_summary`, the case listed above, where it raises again.
- `simple_app.py`'s `mood_analytics` loads the last 30 days ordered by date through SQL. The model receives those records already filtered and ordered.
- `db_manager.py`'s `get_tables`, `show_table_info` and `show_database_stats`, and `db_viewer.py`'s `connect`, `show_tables` and `show_table_schema`. They only print SQL metadata.
- The interactive menu loops of both console tools, apart from the row-limit parse. The ops scripts and `sample_journal_test.py` are not part of this model.
- Text is modelled only partly:
  - `str.upper` is modelled on ASCII letters only;
  - `isdigit` is modelled on ASCII digits and the superscript digits only. Other characters `isdigit()` accepts and `int()` refuses (subscript, circled and dingbat digits) are not modelled, so the as-written row limit fails on fewer inputs than the source does;
  - other Unicode decimal digits (such as `٣`, which `int()` reads as 3) are not modelled.
- `show_table_data` errors are modelled only when they occur before anything is printed: a failed read prints just its error line.
- The `print` output of the table and query operations of both console tools is the list of lines returned, and their emoji are written as code points. DbManager.DatabaseManager.Connect and DbManager.DatabaseManager.Disconnect return no lines: their messages (db_manager.py:18, 23, 26, 33) are not modelled.
- SmartJournal.TokenLedger.Generate, SmartJournal.GatedRequest: a completed reply always carries text. In the source (smart_journal.py:883-886) the tokens are recorded before `.content.strip()`, so a reply whose content is `None` charges its tokens and then returns `(None, 0)` from the `except`; the model cannot express that reply.
- SmartJournal.TokenLimit: takes the limit already as an integer. A `TOKEN_LIMIT` text that `int()` rejects is not modelled.
- DbManager.DatabaseManager.RunCustomQuery: requires an open connection. The source calls `self.conn.cursor()` outside its `try`, so a caller without a connection gets an `AttributeError` that is not modelled.
- DbManager.DatabaseManager.Connect: the connection object itself is only the flag `connected`.

## Findings

| source | as written | input that shows it | evidently intended | confidence | as-written member | corrected member |
|---|---|---|---|---|---|---|
| smart_journal.py:1377, 1429 | `disabled=not all(answers)` tests the built `"Q…: …\nA…: …"` entries, which are never empty | one question `"How was your day?"` with an empty answer: the button stays enabled | disable the button until every shown question has a non-empty answer | not executed | SmartJournal.SubmitNeverDisabledAsWritten, SmartJournal.EmptyAnswerExample | SmartJournal.BuildAnswers, SmartJournal.EnabledMeansAnswered |
| smart_journal.py:135, 138-150 | `calendar.monthcalendar` lays out Monday-first weeks, but the header reads `Sun … Sat` | October 2026 (1st is a Thursday): day 1 is in column 3, under "Wed" | a Sunday-first grid (or a Monday-first header), so that every day sits under its own weekday | not executed | SmartJournal.HeaderMislabelsMondayFirstGrid, SmartJournal.HeaderMislabelsOctober2026 | SmartJournal.HeaderMatchesSundayFirstGrid |
| db_manager.py:235 | `int(limit_input) if limit_input.isdigit() else 10`: `isdigit()` accepts superscript digits (among other non-decimal digit characters), which `int()` rejects | row limit `²`: `int` raises `ValueError`, the handler at db_manager.py:261-262 catches it, and the session ends | every input that is not a decimal numeral falls back to 10 | not executed | DbManager.RowLimitAsWritten, DbManager.RowLimitSuperscript | DbManager.RowLimit, DbManager.RowLimitOfNumeral |
