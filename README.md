# NSE/BSE feed scripts in Dafny

A model of the scraping scripts that fetch Indian market feeds (NSE insider
trading, financial results, block deals, corporate actions, event calendar,
board meetings, announcements and market data; BSE notices; analyst
recommendations), write each feed's raw JSON and a plain-text summary, and of
the two helper scripts that build a CSV of an RSI screen (`rsi_high.py`) and
batch news titles for summarising (`title.py`).

Every script follows the same plan, and the model follows it module by module:

| module | file | what it models |
|---|---|---|
| `Wrappers` | wrappers.dfy | `Option` |
| `Arith` | arith.dfy | facts about Euclidean division used by the date and batch arithmetic |
| `Text` | text.dfy | `str.strip`, `str(n)`, `str.join`, `startswith` |
| `Dates` | dates.dfy | proleptic Gregorian dates, `today - timedelta(days=1)`, `strftime("%d-%m-%Y")`/`"%Y-%m-%d"`, `strptime(…, '%Y-%m-%d')` on zero-padded text, the file names keyed by `to_date` |
| `Json` | json.dfy | the decoded payload (`Doc`): a list, an object with an optional `data` member, a string or another value; truthiness, `len()`, iteration and `.get` |
| `Retry` | retry.dfy | the `for attempt in range(3)` loop with `break` and `if attempt < 2: sleep(2)`, as a method over precomputed attempt outcomes |
| `Attempts` | attempts.dfy | the two kinds of attempt: a direct `page.goto` of the API (ok and parsed breaks, unparsable is dumped) and an in-page `evaluate` (breaks when `len(result)` succeeds) |
| `Normalize` | normalize.dfy | the `filter_*` loops: a key table (canonical key, source key) applied with `item.get(source, '')`, an optional list of mandatory keys, any exception giving `[]` |
| `Rows` | rows.dfy | the row loops over an HTML table: skip, keep or raise per row |
| `Summary` | summary.dfy | `save_text_summary`: a preamble, then one block of template lines per element, stopping at the first line whose key is missing |
| `Csv` | csv.dfy | `csv.writer` with `QUOTE_MINIMAL` and `\r\n` terminators, and a reader for the text it writes |
| `Pipeline` | pipeline.dfy | a JSON feed script end to end: query range, fetch loop, saved files, filter, summary, return value |
| one module per script | insider_trading.dfy, financial_sender.dfy, block_deals.dfy, corporate_action.dfy, event_calendar.dfy, market_data.dfy, board_meeting.dfy, announcement.dfy, bse_notices.dfy, analyst_recommendations.dfy, rsi_high.dfy, title.dfy | each script's key table, summary block, query range, file names, and the properties its code promises |

"Today", the outcome of every network attempt, the parsed HTML table and
Gemini's replies are parameters. A run of a script is a value (`FeedRun`,
`MarketRun`, `NoticesRun`, …) that lists the files written, keyed by name, the
diagnostic files, the attempts and sleeps made and how the function ended. Each
state-changing step of the source (the filter loop, the retry loop, the
summary's write loop, the CSV writer, the batch loop of `title.py`) is a
method with a loop, proved equal to the function that specifies it. The
properties are lemmas about those functions.

Where `filtered_data` is read unbound, the rest of the model uses the
corrected run, which binds it to `[]` first. The run as written is kept beside
it; see "## Findings". The analyst recommendations run uses the filter as
written, with its `len(cols) >= 5` guard; the filter with the guard on 6 cells
is modelled beside it, and a lemma states on which tables the two agree.

## Model

| member | source | states |
|---|---|---|
| Text.TrimStart | bse_notices.py:34 | `lstrip` leaves a suffix that starts with a non-space character, and everything it cut off is white space |
| Text.TrimEnd | bse_notices.py:34 | `rstrip` leaves a prefix that ends with a non-space character, and everything it cut off is white space |
| Text.StripSpec | bse_notices.py:34-42 | `strip` returns a contiguous piece of the text that neither starts nor ends with white space, and everything before and after it is white space |
| Text.StripSlice | bse_notices.py:34-42 | the stripped text is the slice of the input starting after the leading white space |
| Text.StripEnds | bse_notices.py:34-42 | the stripped text is empty or starts and ends with a non-space character |
| Text.StripCutsSpace | bse_notices.py:34-42 | every character `strip` removed is white space |
| Text.StripIdempotent | analyst_recommendations.py:28-29 | stripping twice is stripping once |
| Text.Show | title.py:137 | `str(n)` is a non-empty run of decimal digits with no leading zero |
| Text.ShowRoundTrip | title.py:137 | reading back the digits of `str(n)` gives `n` |
| Text.ShowInjective | title.py:137 | different numbers print differently |
| Text.ShowDelimited | title.py:137-139 | a number printed in front of a non-digit is determined by the text (batch headers of different batches differ) |
| Text.Join | title.py:62 | `"\n".join` of no part is empty, of one part is that part |
| Text.JoinLength | title.py:62 | the joined text is as long as the parts together plus one separator per gap between two parts |
| Text.JoinSplit | title.py:62 | splitting the parts splits the joined text: the two halves joined, with one separator between them |
| Text.JoinFrom | title.py:62 | a join is its first part, then a separator and the join of the rest when there is a rest |
| Text.JoinAround | title.py:62 | the joined text is the parts before part i joined with a trailing separator, then part i, then a separator and the parts after it joined |
| Text.BeforeLength | title.py:62 | the text before part i is as long as the parts before it plus one separator each |
| Text.JoinParts | title.py:62 | part i sits at the total length of the parts before it plus i separators, and is followed by the separator unless it is the last |
| Dates.DaysInMonth | board_meeting.py:69 | a month has 28 to 31 days, and 29 exactly for February of a leap year |
| Dates.YearStep | board_meeting.py:69 | the days before year `y + 1` are those before `y` plus the days of `y` |
| Dates.DecemberEnd | board_meeting.py:69 | the months before December plus its 31 days fill the year |
| Dates.PrevDay | board_meeting.py:69 | `today - timedelta(days=1)` is the valid date whose ordinal is one less, and overflows exactly on 0001-01-01 |
| Dates.NextDay | board_meeting.py:69 | the day after is the valid date whose ordinal is one more, and overflows exactly on 9999-12-31 |
| Dates.DayStep | board_meeting.py:69 | within a month the next day is one ordinal later |
| Dates.MonthStep | board_meeting.py:69 | the first of the next month follows the last day of a month |
| Dates.YearEnd | board_meeting.py:69 | January 1 follows December 31 |
| Dates.PrevThenNext | board_meeting.py:69-71 | stepping back a day and forward again returns the same date |
| Dates.Digit | board_meeting.py:70-71 | a digit character stands for its value |
| Dates.Pad | board_meeting.py:70-71 | a zero-padded field has exactly its width, all digits |
| Dates.PadRoundTrip | board_meeting.py:70-71 | reading a zero-padded field back gives the number when it fits the width |
| Dates.FormatDMY | board_meeting.py:70-71 | `%d-%m-%Y` is 10 characters with `-` at positions 2 and 5 |
| Dates.FormatYMD | analyst_recommendations.py:68 | `%Y-%m-%d` is 10 characters with `-` at positions 4 and 7 |
| Dates.ParseYMD | analyst_recommendations.py:30 | `strptime(…, '%Y-%m-%d')` gives only valid dates |
| Dates.ParseFormatYMD | analyst_recommendations.py:30-31 | parsing a date written with `%Y-%m-%d` gives the date back |
| Dates.FormatDMYInjective | board_meeting.py:70-74 | two dates written the same with `%d-%m-%Y` are the same date |
| Dates.SameDayRange | insider_trading.py:71-73 | `from_date` and `to_date` are both today's `dd-mm-YYYY` |
| Dates.PreviousDayRange | board_meeting.py:68-71 | `to_date` is today, `from_date` is the day whose ordinal is one less; the range fails only on the first representable day |
| Dates.SummaryNamesDistinct | board_meeting.py:74 | runs on different days write different summary files |
| Json.Get | insider_trading.py:23 | `item.get(key, '')` is the member when present and `''` otherwise |
| Json.Iterated | board_meeting.py:21 | iterating fails exactly on values that are neither lists, objects nor strings; a list yields its elements, an object or string yields things that are not objects |
| Json.DataMember | insider_trading.py:21 | `d.get('data', [])` fails exactly on values that are not objects, and is `[]` when the member is missing |
| Retry.FirstDone | insider_trading.py:117-124 | the index of the first attempt that breaks, and no attempt before it breaks |
| Retry.DumpedMember | insider_trading.py:125-129 | an attempt is listed among the dumps exactly when it was made and it dumped |
| Retry.LastAssignedStep | insider_trading.py:122 | the payload after one more attempt is that attempt's assignment, or the previous payload |
| Retry.AttemptsMade | insider_trading.py:117-124 | at most three attempts, at least one |
| Retry.BreakShortCircuits | insider_trading.py:124 | after the attempt that breaks nothing later matters, and the attempt count is its number |
| Retry.DumpedPrefix | insider_trading.py:127 | the dumps of the first `n` attempts depend only on those attempts |
| Retry.AllFailed | insider_trading.py:117-138 | with no attempt breaking, three attempts and two sleeps are made and the payload keeps its initial value |
| Retry.RetryLoop | insider_trading.py:117-138 | the loop makes 1 to 3 attempts, one sleep fewer than attempts, and leaves the payload, count and dumps its specification gives |
| Attempts.DirectSteps | insider_trading.py:118-135 | each attempt of a direct fetch is read by its own outcome |
| Attempts.FirstGoodWins | insider_trading.py:119-124 | the first ok response that parses ends the loop: its number is the attempt count, with one sleep fewer, and its body the payload |
| Attempts.FirstDoneIs | insider_trading.py:124 | the first attempt that breaks is the one the loop stops at |
| Attempts.NoGoodResponse | insider_trading.py:117-138 | with no good response three attempts and two sleeps are made, and the payload is empty if no body parsed |
| Attempts.DumpedIffUnparsable | insider_trading.py:125-129 | attempt `m` leaves a diagnostic file exactly when it was made and its ok response did not parse |
| Attempts.EvaluateSteps | board_meeting.py:116-145 | each attempt of an in-page fetch is read by its own outcome |
| Attempts.FirstEvaluationWins | board_meeting.py:116-132 | an in-page loop breaks on the first evaluation whose result has a length, even an empty one |
| Attempts.EvaluateDumps | board_meeting.py:133-142 | a page is dumped exactly for the attempts made that raised something other than a timeout |
| Normalize.Project | insider_trading.py:22-38 | a normalized record has exactly the table's canonical keys |
| Normalize.ProjectAt | insider_trading.py:22-38 | each canonical key holds `item.get(source, '')` of its own source key |
| Normalize.NormalizedFails | insider_trading.py:19-43 | the filter loop raises exactly when some element is not an object |
| Normalize.NormalizedAppend | insider_trading.py:21-38 | the records of `a + b` are those of `a` then those of `b`: source order is kept |
| Normalize.NormalizedPointwise | insider_trading.py:21-38 | without mandatory keys every element gives one record at its own position |
| Normalize.NormalizedAdmitted | board_meeting.py:33-37 | every kept record passes the mandatory check, and there are never more records than elements |
| Normalize.NormalizedMember | board_meeting.py:20-38 | a record is kept exactly when some element projects to it and it passes the mandatory check |
| Normalize.NormalizeEntries | insider_trading.py:19-43 | the append loop builds the specified list, and reports whether it raised |
| Normalize.ListFilterOfArray | financial_sender.py:21-31 | a list of objects is mapped element by element, in order |
| Normalize.ListFilterRaises | financial_sender.py:34-36 | a payload that is not a list, or holds a non-object, filters to `[]` |
| Normalize.FilterList | financial_sender.py:17-36 | the filter over a list payload returns its specification |
| Normalize.FilterData | insider_trading.py:17-43 | the filter over a `data` payload returns its specification |
| Rows.CollectNext | bse_notices.py:29-54 | reading one more row extends what the loop collected |
| Rows.CollectPair | analyst_recommendations.py:25-39 | two rows are read one after the other |
| Rows.CollectPairFirst | analyst_recommendations.py:25-39 | a kept row followed by a skipped one collects that row's entry alone |
| Rows.KeptAppend | bse_notices.py:29-54 | one more row appends its contribution to the kept entries |
| Rows.KeptLength | bse_notices.py:29-54 | at most one entry per row |
| Rows.CollectFailed | bse_notices.py:56-59 | once a row raised, the rows after it change nothing |
| Rows.CollectFails | bse_notices.py:56-59 | the loop gives no list exactly when some row raises |
| Rows.CollectKept | bse_notices.py:29-54 | when no row raises, the loop gives the entry of every kept row, in row order |
| Rows.KeptMember | bse_notices.py:29-54 | an entry is in the output exactly when some row gives it |
| Rows.CollectAgree | analyst_recommendations.py:25-41 | two readings of a row that agree on every row of the table collect the same result |
| Summary.Rule | insider_trading.py:50 | `"=" * 60` is 60 copies of the character |
| Summary.Lookup | insider_trading.py:52 | `item[key]` succeeds exactly on an object holding the key |
| Summary.FillPlain | insider_trading.py:52 | a `Label: {item[key]}` line of an object holding the key is the label then the value |
| Summary.Render | insider_trading.py:52-65 | a block is written up to its first line that raises: every written line is its template filled, the block is complete exactly when every line fills |
| Summary.FitsByKeys | insider_trading.py:52-65 | an object holding every key the block reads fills every line |
| Summary.BodyComplete | insider_trading.py:51-65 | when every element fits, every block is written in full |
| Summary.BodyLine | insider_trading.py:51-65 | line `i * b + j` (b the block length) of the body is line `j` of element `i`'s block |
| Summary.BodyStops | announcement.py:26-38 | the first element that does not fit stops the writing inside its block, after the full blocks before it |
| Summary.DocumentStops | announcement.py:20-38 | such a file holds the preamble, the full blocks before the element and part of its block, and is reported as failed |
| Summary.Objects | insider_trading.py:51 | records seen as JSON objects, one per record |
| Summary.ItemsOf | bse_notices.py:46-54 | the dictionaries appended for entries, one per entry in order, each the entry's own dictionary |
| Summary.DocumentOfRecords | insider_trading.py:47-65 | records holding every key the block reads are written in full, after the preamble |
| Summary.DocumentLine | insider_trading.py:51-65 | line `j` of record `i` sits at `p + i * b + j` (p the preamble length, b the block length) |
| Summary.DocumentBlock | insider_trading.py:51-65 | a record's whole block in the file is its card |
| Summary.RecordsFit | insider_trading.py:51-65 | records holding the block's keys fit the block |
| Summary.Unlines | insider_trading.py:49-65 | the text of the lines, each ended by a newline |
| Summary.UnlinesAppend | insider_trading.py:49-65 | writing more lines only extends the text already written |
| Summary.WriteBlock | insider_trading.py:52-65 | the writes of one block are its specification |
| Summary.WriteDocument | board_meeting.py:47-62 | `save_text_summary` writes the preamble, then the blocks (or the empty-list lines), as specified |
| Summary.BodyNext | insider_trading.py:51 | one more element after a completed body adds its block |
| Summary.BodyStopsAt | announcement.py:26-38 | the first block that raises ends the body |
| Summary.RenderStops | announcement.py:26-38 | a block stops at its first line that raises |
| Summary.BodyFits | insider_trading.py:51-65 | a completed body fitted every element |
| Csv.Escape | rsi_high.py:81 | doubling the quotes never shortens a field |
| Csv.LinesAppend | rsi_high.py:95 | one more `writerow` appends its record and terminator |
| Csv.EncodeMinimal | rsi_high.py:81 | `QUOTE_MINIMAL` leaves a field as it is exactly when it needs no quotes |
| Csv.PlainLength | rsi_high.py:81 | an unquoted field is read up to the first `,`, `\r` or `\n` |
| Csv.QuotedBody | rsi_high.py:81 | reading a quoted field consumes input |
| Csv.ReadField | rsi_high.py:81 | reading a field never grows the input |
| Csv.ReadRecord | rsi_high.py:81 | reading a record consumes input |
| Csv.QuotedBodyOfEscape | rsi_high.py:81 | the inside of a quoted field reads back to the field |
| Csv.ClosingQuote | rsi_high.py:81 | a quote that is not doubled closes a field |
| Csv.EscapeStep | rsi_high.py:81 | one more character of a quoted field reads back in front of the rest |
| Csv.QuotedPair | rsi_high.py:81 | a doubled quote stands for one quote |
| Csv.QuotedChar | rsi_high.py:81 | any other character stands for itself |
| Csv.PlainLengthOf | rsi_high.py:81 | an unquoted field is read up to the separator after it |
| Csv.FieldRoundTrip | rsi_high.py:81 | every encoded field reads back to itself, up to the separator or terminator after it |
| Csv.QuotedFieldRoundTrip | rsi_high.py:81 | a quoted field reads back to itself |
| Csv.PlainFieldRoundTrip | rsi_high.py:81 | an unquoted field reads back to itself |
| Csv.FieldsRoundTrip | rsi_high.py:81-95 | the fields of a record read back, and reading stops after the terminator |
| Csv.LastFieldRoundTrip | rsi_high.py:81-95 | the last field reads back and reading stops after the terminator |
| Csv.TerminatorThen | rsi_high.py:81 | the terminator is `\r\n` |
| Csv.NextFieldRoundTrip | rsi_high.py:81-95 | a field followed by a comma reads back, then the record goes on |
| Csv.RecordRoundTrip | rsi_high.py:82-95 | a written record reads back to itself |
| Csv.ParseLines | rsi_high.py:79-99 | the text of a sequence of `writerow` calls reads back to the same records |
| Csv.LinesFront | rsi_high.py:82-95 | the first record reads back, followed by the text of the others |
| Csv.ParseStep | rsi_high.py:82-95 | a record followed by records reads as that record then those records |
| Pipeline.QueryRange | insider_trading.py:71-73 | the `to_date` is today; a today-only feed queries today to today |
| Pipeline.SinceYesterdayRange | financial_sender.py:59-62 | the yesterday-to-today range fails only on the first representable day, and starts the day before today |
| Pipeline.DumpNames | insider_trading.py:127 | one diagnostic file name per dumped attempt |
| Pipeline.SaveSummary | insider_trading.py:45-68 | the summary is written line by line as specified |
| Pipeline.RunJsonFeed | insider_trading.py:70-158 | the fetch function, with `filtered_data` bound before the test, makes the specified run |
| Pipeline.NamesDiffer | insider_trading.py:75-76 | the JSON file and the summary never share a name |
| Pipeline.OutputsOfRun | insider_trading.py:140-158 | the JSON is saved exactly when the payload is truthy, the summary exactly when also some record was kept, holding their summary, and the run returns the filtered records |
| Pipeline.FilterMapsEveryElement | insider_trading.py:21-38 | every element becomes one record, in order, each canonical field `item.get(source, '')` |
| Pipeline.FilterRaisesToEmpty | insider_trading.py:41-43 | any exception while filtering yields `[]` |
| Pipeline.FilteredKeys | insider_trading.py:22-38 | every filtered record has exactly the canonical keys |
| Pipeline.SummaryOfRecords | insider_trading.py:47-65 | the summary is the title, the rule, a blank line, then line `j` of record `k` at `3 + k * b + j` (b the block length) |
| Pipeline.SummaryBlock | insider_trading.py:51-65 | record `k`'s block in the summary is its card |
| Pipeline.DumpNameInjective | insider_trading.py:127 | distinct attempts write distinct diagnostic files |
| Pipeline.DumpFilesOfLoop | insider_trading.py:125-129 | attempt `m`'s diagnostic file exists exactly when it was made and its ok response did not parse |
| Pipeline.DumpFileOfAttempt | insider_trading.py:125-129 | the diagnostic files of a run are those of its fetch loop |
| Pipeline.UnboundIffNothingSaved | insider_trading.py:140-158 | for every combination of attempt outcomes, the function as written ends in UnboundLocalError exactly when the run saves no file, and otherwise returns what the corrected run returns |
| Pipeline.NothingFetchedIsUnbound | insider_trading.py:140-158 | with no parsed body nothing is saved and the function as written fails, while the corrected run returns `[]` after three attempts |
| Pipeline.ThreeTimeoutsUnbound | insider_trading.py:132-158 | three timeouts save nothing and make the function as written end in UnboundLocalError |
| InsiderTrading.TableDistinct | insider_trading.py:22-37 | the 15 canonical keys are distinct |
| InsiderTrading.BlockCovered | insider_trading.py:52-64 | the summary reads only keys the filter writes |
| InsiderTrading.FilterFields | insider_trading.py:21-38 | one disclosure per element, in order, each of the 15 fields from its fixed source key (`acqName`, `tdpTransactionType`, …) or `''` |
| InsiderTrading.DisclosureRecord | insider_trading.py:22-37 | the 15 fields of a projected record, key by key |
| InsiderTrading.CardRendered | insider_trading.py:52-65 | a disclosure renders as its card: `Security Value: Rs. <v>`, `Pre-Transaction Shares: <no> (<per>%)` and the Post line, a rule and a blank line |
| InsiderTrading.SummaryShape | insider_trading.py:47-65 | the summary is `Insider Trading Summary (<from> to <to>)`, the rule, a blank line, then the 15-line card of every disclosure, in order |
| InsiderTrading.SummaryCard | insider_trading.py:51-65 | disclosure `k` fills lines `3 + 15k` to `18 + 15k` with its card |
| InsiderTrading.Outputs | insider_trading.py:71-158 | today-to-today query; the JSON file, summary and per-attempt dumps are written exactly when the source writes them; the run returns the filtered disclosures |
| FinancialSender.TableDistinct | financial_sender.py:21-31 | the 8 canonical keys are distinct |
| FinancialSender.BlockCovered | financial_sender.py:44-53 | the summary reads only keys the filter writes |
| FinancialSender.FilterFields | financial_sender.py:21-31 | one result per list element, in order, each of the 8 fields or `''` |
| FinancialSender.CardRendered | financial_sender.py:44-53 | a result renders as its card, `relatingTo` under `Quarter` and `xbrl` under `XBRL Link` |
| FinancialSender.SummaryShape | financial_sender.py:42-53 | the summary is `Financial Results Summary (<from> to <to>)`, the rule, a blank line, then every card in order |
| FinancialSender.SummaryCard | financial_sender.py:44-53 | result `k` fills its 10 lines with its card |
| FinancialSender.Outputs | financial_sender.py:59-147 | yesterday-to-today query; files and return value as the source writes them |
| BlockDeals.TableDistinct | block_deals.py:21-30 | the 7 canonical keys are distinct |
| BlockDeals.BlockCovered | block_deals.py:43-51 | the summary reads only keys the filter writes |
| BlockDeals.FilterFields | block_deals.py:21-30 | one deal per element, in order, each field from its `BD_*` key (the date from `mTIMESTAMP`) or `''` |
| BlockDeals.CardRendered | block_deals.py:43-51 | a deal renders as its card, `buySell` under `Transaction Type` and `Price: Rs. <v>` |
| BlockDeals.SummaryShape | block_deals.py:41-51 | the summary is `Block Deals Summary (<from> to <to>)`, the rule, a blank line, then every card in order |
| BlockDeals.SummaryCard | block_deals.py:43-51 | deal `k` fills its 9 lines with its card |
| BlockDeals.Outputs | block_deals.py:57-145 | yesterday-to-today query; files and return value as the source writes them |
| CorporateAction.TableDistinct | corporate_action.py:21-29 | the 6 canonical keys are distinct |
| CorporateAction.BlockCovered | corporate_action.py:42-49 | the summary reads only keys the filter writes |
| CorporateAction.FilterFields | corporate_action.py:21-29 | one action per list element, in order, each of the 6 fields or `''` |
| CorporateAction.CardRendered | corporate_action.py:42-49 | an action renders as its card |
| CorporateAction.SummaryShape | corporate_action.py:40-49 | the summary is `Corporate Actions Summary (<from> to <to>)`, the rule, a blank line, then every card in order |
| CorporateAction.SummaryCard | corporate_action.py:42-49 | action `k` fills its 8 lines with its card |
| CorporateAction.Outputs | corporate_action.py:55-143 | yesterday-to-today query; files and return value as the source writes them |
| EventCalendar.TableDistinct | event_calendar.py:21-28 | the 5 canonical keys are distinct |
| EventCalendar.BlockCovered | event_calendar.py:41-47 | the summary reads only keys the filter writes |
| EventCalendar.FilterFields | event_calendar.py:21-28 | one event per list element, in order, `description` from `bm_desc`, `''` when absent |
| EventCalendar.CardRendered | event_calendar.py:41-47 | an event renders as its card |
| EventCalendar.SummaryShape | event_calendar.py:39-47 | the summary is `Event Calendar Summary (<today>)`, the rule, a blank line, then every card in order |
| EventCalendar.SummaryCard | event_calendar.py:41-47 | event `k` fills its 7 lines with its card |
| EventCalendar.Outputs | event_calendar.py:53-138 | today-to-today query; files and return value as the source writes them |
| MarketData.OrEmpty | market_data.py:179 | `payload or {}` keeps a truthy payload and replaces any other by an empty object |
| MarketData.FilterMarketData | market_data.py:17-46 | the two append loops build the specified lists |
| MarketData.IndexTableDistinct | market_data.py:26-33 | the 7 index keys are distinct |
| MarketData.TurnoverTableDistinct | market_data.py:37-41 | the 3 turnover keys are distinct |
| MarketData.IndexRecord | market_data.py:26-33 | an index entry has the 7 fields from index/timestamp/open/close/high/low/volume, `''` when absent |
| MarketData.TurnoverRecord | market_data.py:37-41 | a turnover entry has segment/turnover/date, `''` when absent |
| MarketData.FilterMapsBoth | market_data.py:25-41 | one index entry per index element and one turnover entry per turnover element, in order |
| MarketData.MissingDataIsEmpty | market_data.py:25-41 | a payload without `data` gives an empty list and leaves the other alone |
| MarketData.ListIndexRaises | market_data.py:19-46 | both loops share one `try`: a list as the index payload empties both lists |
| MarketData.FilteredKeys | market_data.py:26-41 | every entry has exactly its table's keys |
| MarketData.IndexCovered | market_data.py:56-63 | the index block reads only index keys |
| MarketData.TurnoverCovered | market_data.py:67-70 | the turnover block reads only turnover keys |
| MarketData.IndexCardRendered | market_data.py:56-64 | an index entry renders its 7 labelled lines and a rule of `-` |
| MarketData.TurnoverCardRendered | market_data.py:68-71 | a turnover entry renders `Turnover: Rs. <v> Cr` among its lines |
| MarketData.SectionComplete | market_data.py:54-71 | a section is its header then one full block per entry |
| MarketData.IndexSection | market_data.py:54-64 | the index section is its header then every index card in order |
| MarketData.TurnoverSection | market_data.py:65-71 | the turnover section is its header then every turnover card in order |
| MarketData.SummaryShape | market_data.py:48-74 | the summary is the title, the rule, the index section and then the turnover section, whose header is written even with no entries |
| MarketData.SaveSummary | market_data.py:48-74 | the two write loops produce the specified summary |
| MarketData.RunMarketData | market_data.py:121-189 | the two fetch loops, saving, filtering and summarizing make the specified run |
| MarketData.Outputs | market_data.py:171-189 | the JSON is saved exactly when either payload is truthy, the summary exactly when also some list is non-empty |
| MarketData.DumpPrefixesDiffer | market_data.py:131-158 | index and turnover dump files never share a name |
| MarketData.DumpFiles | market_data.py:129-160 | each dump file exists exactly when its attempt was made and its ok response did not parse |
| MarketData.UnboundIffNothingSaved | market_data.py:121-189 | for all outcomes of both fetch loops, the function as written ends in UnboundLocalError exactly when the run saves no file, and otherwise returns what the corrected run returns |
| MarketData.TimeoutsUnbound | market_data.py:121-189 | three timeouts on both endpoints write nothing and end in UnboundLocalError as written |
| BoardMeeting.PageDumpNames | board_meeting.py:138 | one page dump name per failed attempt |
| BoardMeeting.SaveSummary | board_meeting.py:44-65 | the summary is written line by line as specified |
| BoardMeeting.RunBoardMeetings | board_meeting.py:116-177 | the fetch loop, saves, filter and summary make the specified run |
| BoardMeeting.TableDistinct | board_meeting.py:24-31 | the 8 canonical keys are distinct |
| BoardMeeting.MeetingRecord | board_meeting.py:23-32 | a meeting has the 8 fields, the industry from `sm_indusrty`, `''` when absent |
| BoardMeeting.MeetingAdmitted | board_meeting.py:34-36 | a meeting is kept exactly when its `bm_symbol` and `sm_name` are non-empty |
| BoardMeeting.KeptIff | board_meeting.py:20-38 | a meeting is kept exactly when some element projects to it and it has a symbol and a company; never more than the input |
| BoardMeeting.FilterRaises | board_meeting.py:40-42 | a non-list payload or a non-object element gives `[]` |
| BoardMeeting.Covered | board_meeting.py:54-61 | the summary reads only keys the filter writes |
| BoardMeeting.CardRendered | board_meeting.py:54-62 | a meeting renders its 8 labelled lines, a rule and a blank line |
| BoardMeeting.SummaryShape | board_meeting.py:48-62 | the title with the range, the rule, a blank line, then the no-meeting note for an empty list and otherwise every card in order |
| BoardMeeting.SummaryCard | board_meeting.py:53-62 | meeting `k` fills lines `3 + 10k` to `13 + 10k` with its card |
| BoardMeeting.Outputs | board_meeting.py:68-177 | yesterday-to-today query; a summary is written on every run, the raw payload when truthy, the filtered list when non-empty; the run returns that list |
| BoardMeeting.PageDumpNameInjective | board_meeting.py:138 | distinct attempts save distinct pages |
| BoardMeeting.DumpFiles | board_meeting.py:133-142 | attempt `m`'s page is saved exactly when it was made and raised something other than a timeout |
| BoardMeeting.FirstDayOverflows | board_meeting.py:69 | on 0001-01-01 computing yesterday overflows before anything is fetched |
| Announcement.AttemptSteps | announcement.py:81-110 | each attempt, homepage load included, is read by its own outcome |
| Announcement.SaveSummary | announcement.py:17-38 | the summary is written line by line as specified |
| Announcement.RunAnnouncements | announcement.py:80-136 | the fetch loop, saves and summary make the specified run |
| Announcement.FirstSizedWins | announcement.py:101-103 | the loop breaks on the first result with a length, even an empty list, and returns it |
| Announcement.NothingEvaluated | announcement.py:80-110 | with no evaluation three attempts and two sleeps are made and the payload stays `[]` |
| Announcement.Outputs | announcement.py:42-136 | today-to-today query; JSON saved exactly when the payload is truthy, a summary on every run, the raw page saved otherwise; the payload is returned as is |
| Announcement.FitsIff | announcement.py:26-34 | an element fills the block exactly when it is an object holding the 8 raw keys |
| Announcement.CardRendered | announcement.py:27-35 | an announcement renders its 8 labelled lines from the raw keys, a rule and a blank line |
| Announcement.FieldsOf | announcement.py:26 | the objects of a list, as records |
| Announcement.SummaryOfList | announcement.py:20-35 | a list of complete announcements is written in full, every card in order |
| Announcement.SummaryCard | announcement.py:26-35 | announcement `k` fills lines `3 + 10k` to `13 + 10k` with its card |
| Announcement.Covered | announcement.py:27-34 | the block reads only the raw keys |
| Announcement.SummaryStops | announcement.py:26-38 | the first element lacking a raw key stops the file inside its block and the write fails |
| Announcement.SummaryOfNonList | announcement.py:23-38 | a truthy payload that is not a list leaves only the preamble |
| BseNotices.SubjectUrl | bse_notices.py:37-39 | the link is `''` without href, kept when it starts with `http`, else prefixed with the BSE site |
| BseNotices.SubjectUrlIdempotent | bse_notices.py:38-39 | prefixing twice is prefixing once |
| BseNotices.ParseNotices | bse_notices.py:18-59 | the row loop builds the specified notices |
| BseNotices.NoticesOfTable | bse_notices.py:28-59 | the header row is dropped, pagination and short rows skipped, every other row gives one notice in order, a row that raises empties the result |
| BseNotices.SkippedRows | bse_notices.py:30-33 | a pagination row and a row of fewer than 6 cells are skipped without raising |
| BseNotices.RowFields | bse_notices.py:34-54 | a kept row's 7 fields: stripped cells 0, 2, 3, 4, the anchor text and link of cell 1, the image id of cell 5 |
| BseNotices.SaveSummary | bse_notices.py:61-78 | the summary is written line by line as specified |
| BseNotices.Covered | bse_notices.py:68-74 | the block reads only fields a notice has |
| BseNotices.CardRendered | bse_notices.py:68-75 | a notice renders its 7 labelled lines, a rule and a blank line |
| BseNotices.SummaryShape | bse_notices.py:65-75 | the title with the range, the rule, a blank line, then every card in order |
| BseNotices.SubmitSteps | bse_notices.py:135-166 | each form submission is read by its own outcome |
| BseNotices.RunNotices | bse_notices.py:133-192 | the submit loop and the saves make the specified run |
| BseNotices.FirstNoticesWin | bse_notices.py:155-157 | the loop breaks on the first page that gives notices and returns them |
| BseNotices.NoNotices | bse_notices.py:135-166 | with no notices three attempts and two sleeps are made and nothing is returned |
| BseNotices.LastAssignedNotices | bse_notices.py:135-166 | captures that did not break carry no notices |
| BseNotices.Outputs | bse_notices.py:82-192 | today-to-today query; JSON and summary written exactly when notices were parsed, the raw page exactly when a page was captured and gave none |
| AnalystRecommendations.FiveCellRowEmptiesResult | analyst_recommendations.py:27-46 | as written, a 5-cell row dated today makes the whole filter return `[]` |
| AnalystRecommendations.FiveCellRowExample | analyst_recommendations.py:27-46 | a complete row then a 5-cell row, both dated today: `[]` as written, the complete row with the 6-cell guard |
| AnalystRecommendations.CompleteRowKept | analyst_recommendations.py:27-39 | with the 6-cell guard the complete row is kept and the short one skipped |
| AnalystRecommendations.RowsRead | analyst_recommendations.py:27-39 | how the guarded filter reads a complete dated row and a 5-cell row |
| AnalystRecommendations.TodayText | analyst_recommendations.py:28-31 | today written with `%Y-%m-%d` is matched to today |
| AnalystRecommendations.StripPlain | analyst_recommendations.py:28 | text without surrounding white space is its own strip |
| AnalystRecommendations.FilterKeeps | analyst_recommendations.py:24-41 | corrected guard: the filter with the 6-cell guard keeps exactly the rows of at least 6 cells dated today, in order, one entry per row, each with the date text that matched |
| AnalystRecommendations.FilterAsWrittenIs | analyst_recommendations.py:17-46 | as written, the filter returns `[]` when some 5-cell row is dated today, and otherwise exactly what the 6-cell guard keeps |
| AnalystRecommendations.FilterAsWrittenKeeps | analyst_recommendations.py:17-46 | as written, an entry is returned exactly when no 5-cell row is dated today and some row of at least 6 cells dated today gives it |
| AnalystRecommendations.SomeKeptAsWritten | analyst_recommendations.py:17-46 | as written, the list is non-empty exactly when some complete row and no 5-cell row is dated today |
| AnalystRecommendations.FilterRecommendations | analyst_recommendations.py:17-46 | the row loop, with its `len(cols) >= 5` guard and the IndexError at `cols[5]` caught by the outer handler, returns the filter as written |
| AnalystRecommendations.SaveSummary | analyst_recommendations.py:48-64 | the summary is written line by line as specified |
| AnalystRecommendations.Covered | analyst_recommendations.py:55-60 | the block reads only fields an entry has |
| AnalystRecommendations.CardRendered | analyst_recommendations.py:55-61 | an entry renders its 6 labelled lines, a rule and a blank line |
| AnalystRecommendations.SummaryShape | analyst_recommendations.py:52-61 | the title with today as `dd-mm-YYYY`, the rule, a blank line, then every card in order |
| AnalystRecommendations.RunAnalystRecommendations | analyst_recommendations.py:66-120 | the page load, the filter as written and the save make the specified run |
| AnalystRecommendations.Outputs | analyst_recommendations.py:95-120 | a page that does not load writes nothing; otherwise the run returns the filter as written, and the summary of those entries is written exactly when some complete row and no 5-cell row is dated today |
| AnalystRecommendations.SomeKept | analyst_recommendations.py:27-39 | corrected guard: with the 6-cell guard some entry is kept exactly when some row has 6 cells and is dated today |
| RsiHigh.RowOf | rsi_high.py:85-94 | a stock's row has the 8 header columns |
| RsiHigh.Table | rsi_high.py:79-95 | the header, then one row per stock in order |
| RsiHigh.TableAppend | rsi_high.py:84-95 | one more stock appends its row |
| RsiHigh.CsvTextAppend | rsi_high.py:84-95 | one more stock appends its record and terminator to the text |
| RsiHigh.CsvTextNext | rsi_high.py:84-95 | the text after stock `i` is the text before it plus its record |
| RsiHigh.CsvTextEmpty | rsi_high.py:79-82 | without stocks the text is the header record |
| RsiHigh.StocksToCsv | rsi_high.py:77-99 | the writer loop produces the specified text |
| RsiHigh.CsvReadsBack | rsi_high.py:79-95 | the CSV reads back to the header then one record per stock: symbol from `s` or `''`, RSI `higher 80`, each column `d[k]` only when `len(d) > k` |
| RsiHigh.RowColumns | rsi_high.py:86-93 | a stock's row takes positions 1, 6, 21, 15, 11, 17 of `d` when present |
| RsiHigh.SendEmail | rsi_high.py:101-138 | the CSV is attached exactly for a report with a positive count |
| RsiHigh.SubjectsDiffer | rsi_high.py:109-122 | the report and error subjects differ |
| RsiHigh.ListedIsReported | rsi_high.py:148-157 | a scan listing stocks sends the report with their CSV and count |
| RsiHigh.UnlistedIsError | rsi_high.py:148-173 | every other run sends the error subject and body, without attachment |
| RsiHigh.MainOutcome | rsi_high.py:148-173 | the CSV is attached exactly when the scan listed stocks, and the subject says Error exactly when nothing is attached |
| RsiHigh.NoDataIsError | rsi_high.py:151-162 | a failed scan, or missing or empty `data`, sends the error mail with its message |
| RsiHigh.SymbolDefaultUnused | rsi_high.py:154-173 | a stock without `s` ends the run in the error mail before the CSV is built |
| Title.NumBatchesIsCeiling | title.py:121 | `num_batches` is the ceiling of `total / 50` |
| Title.BatchSizes | title.py:124-126 | every batch but the last holds 50 articles, the last 1 to 50 |
| Title.OnlyLastSkipped | title.py:113-130 | with at least 10 articles only the last batch can be skipped |
| Title.Batches | title.py:123-126 | batch `i` is `news[i*50 : min((i+1)*50, total)]` |
| Title.BatchesPrefix | title.py:123-126 | the first `n` batches are, in order, the articles before the end of batch `n - 1` |
| Title.BatchesCover | title.py:123-126 | the batches cover the article list exactly, in order |
| Title.KeyRotation | title.py:132 | keys are used in turn and repeat every `len(keys)` batches |
| Title.FormatTitles | title.py:62 | the title list is built exactly when every article has `title` and `link` |
| Title.Entries | title.py:62 | one formatted entry per article of the batch, at the article's position |
| Title.FormatTitlesEntries | title.py:62 | a built title list is the entries joined by newlines: entry i sits after the entries before it, each followed by a newline, and a newline follows every entry but the last |
| Title.NameErrorOnFirstBatch | title.py:113-133 | as written every run with enough articles ends with NameError |
| Title.SummariesFailed | title.py:123-139 | once a batch raised KeyError, later batches change nothing |
| Title.SummariesPrefix | title.py:136-139 | the text gathered grows only by appending |
| Title.NotBlank | title.py:144 | a text with a non-space character does not strip to nothing |
| Title.FinishedRunSavesPdf | title.py:119-145 | a finished run starts with batch 1's section and is always saved |
| Title.FirstSection | title.py:135-139 | the text after batch 1 is its header followed by its reply or the failure note |
| Title.MarkedNotBlank | title.py:144 | a text starting with a section is not blank |
| Title.SectionMarked | title.py:137-139 | every section starts with two newlines then `=` |
| Title.SummarizeBatches | title.py:119-147 | the batch loop builds the specified run |

## Left out

- Browser automation (launch, contexts, `goto`, `evaluate`, form filling, `wait_for_load_state`, `page.content`), timeouts and `asyncio.sleep`: each attempt is an abstract outcome and the sleeps are counted. A failure to launch the browser or create a context (`return None, None`) is not modelled.
- HTML parsing with BeautifulSoup and JSON decoding: the model starts from parsed rows and decoded values. JSON values other than strings inside records are not modelled (a record is `map<string, string>`), nor is the formatting of `json.dump`.
- File I/O: a written file is an entry of a map from names to contents; failures to open or write a file are not modelled.
- Logging, including the `len(...)` calls inside log messages, except where such a call raises and changes control flow (`len(result)` in the in-page loops, `stock['s']` in `rsi_high.py`).
- Every `send_email` and `main` that mails a summary (SMTP, MIME, environment variables), except the message `rsi_high.py` builds, which is modelled without the SMTP session.
- `email-pdf.py`, `emmail.py`, `mobil_tric.py` and `press_release.py` are not part of this model.
- `title.py`: the HTTP call of `send_to_gemini` (a parameter `ask` gives the reply), the prompt template, `save_to_pdf` (only whether it is called), the random User-Agent, `time.sleep`, reading `news.json`, and the missing-file branch. The key list is an abstract non-empty sequence.
- `rsi_high.py`: `scan_stocks`, the TradingView payload and the module-level environment check. The query bound (RSI above 82) and the bound the texts announce (RSI below 30) are kept as two constants, `RsiHigh.QueryRsiAbove` and `RsiHigh.AnnouncedRsiBelow`, from which the mail texts are built.
- `rsi_high.py` CSV cells: values are the text `csv.writer` gives them; `str()` of numbers and `None`, and a `d` that is not a list, are not modelled.
- Dates.ParseYMD: accepts only the zero-padded `%Y-%m-%d` form, while `strptime` also accepts unpadded months and days.
- Dates.FormatDMY: writes the year in 4 digits, as CPython does on Linux; some platforms do not pad `%Y`.
- `market_data.py:105` reads `except Exception PipeLineError as e:`, which is a syntax error: the module cannot be imported as written. The model reads that handler as `except Exception as e:`; the browser-context step it guards is not modelled either way.
- Retry.RetryLoop: the number of attempts is the constant 3 of every script; the model does not generalise it.

## Findings

| source | as written | input that shows it | evidently intended | confidence | as-written member | corrected member |
|---|---|---|---|---|---|---|
| insider_trading.py:140-158 | `filtered_data` is assigned only inside `if json_data:`, so `return filtered_data` raises UnboundLocalError when nothing was fetched; the same code is at financial_sender.py line 147, block_deals.py line 145, corporate_action.py line 143 and event_calendar.py line 138 | three attempts that all time out | bind `filtered_data = []` before the test and return it | high, not executed | Pipeline.UnboundIffNothingSaved, Pipeline.ThreeTimeoutsUnbound | Pipeline.RunJsonFeed, Pipeline.NothingFetchedIsUnbound |
| market_data.py:171-189 | `filtered_data` is assigned only inside `if index_data or turnover_data:` | three timeouts on both endpoints | bind two empty lists before the test | high, not executed | MarketData.UnboundIffNothingSaved, MarketData.TimeoutsUnbound | MarketData.RunMarketData, MarketData.Outputs |
| analyst_recommendations.py:27-46 | the guard admits rows of 5 cells but the entry reads `cols[5]`; the IndexError is not a ValueError, so the outer handler returns `[]` for the whole table | a complete row dated today followed by a row of 5 cells dated today | guard on 6 cells, so that short rows are skipped | high, not executed | AnalystRecommendations.FilterAsWrittenIs, AnalystRecommendations.FiveCellRowExample | AnalystRecommendations.FilterKeeps, AnalystRecommendations.CompleteRowKept |
| title.py:133 | the progress line reads `len(GEMINI_API_KEYS)`, a name that is not defined, so the first batch that is not skipped raises NameError | any list of at least 10 articles | count the key list that line 132 indexes | high, not executed | Title.NameErrorOnFirstBatch | Title.SummarizeBatches, Title.FinishedRunSavesPdf |
