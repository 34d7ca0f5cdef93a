# Covid dashboard scheduled-update engine, in Dafny

This project models the core of a small covid dashboard. The dashboard is a Flask application. It
polls a health-statistics API and a news API, and it lets a user schedule updates of either feed at
an "HH:MM" time of day, once or every day. The model covers the following parts:

- **Time conversion** (`time_conversion.dfy`): `hhmm_to_seconds`, `hours_to_minutes` and
  `minutes_to_seconds`. This includes Python's `str.split` and the `None` return for a label that
  does not have exactly one colon.
- **Display records** (`records.dfy`): the `{title, content}` dictionaries of both display lists.
  It also covers the "scan and remove the first match" loop that `delete_update` and
  `delete_news` share.
- **News** (`news.dfy`): the module-level `news` and `list_of_news` lists, modelled as the class
  `NewsFeed`, together with `add_news_to_list`, `add_news_article`, `delete_news` and
  `update_news`.
  - `update_news` is proved against `Absorb`, a fold over the batch of articles.
  - `Absorb` is proved equal to the reference filter `Fresh`. `Fresh` keeps the headlines that are
    the first of the batch with a title never seen before.
- **Covid figures** (`covid_figures.dfy`): `process_covid_data` and `process_covid_csv_data`.
  They are imperative methods with the source's nested loops, proved against the specification
  functions `CovidSnapshot` and `CsvFigures`.
  - Those functions define the 7-day total as a windowed sum, `InRange`.
  - They take the hospital and death figures from the last record with the right date, `LastOn`.
- **Scheduler** (`scheduling.dfy`): the `sched.scheduler` queue, seen through `enter`, `cancel` and
  the run loop's removal of a due event.
- **Update registry** (`updates.dfy`): the class `Dashboard` holds the `update` display list, the
  `update_reference` map from composed names to queued events, the queue and the news feed. It
  covers `add_scheduled_event`, `schedule_covid_updates`, `update_data` and `delete_update`.
- **Lifecycles** (`scenarios.dfy`): whole lifecycles on a fresh dashboard, namely a one-shot update,
  a repeating update, a cancelled update and two colliding requests.

Dates are day numbers, counted in days since 1970-01-01, and 2021-10-28 is day 18928. "Today" and
the clock's "HH:MM" reading are parameters. The records that the APIs return are parameters as
well.

Python exceptions are values of `Outcomes.Result`:

- `TypeError`
- `ValueError`
- `KeyError` with its key
- `UnboundLocalError` with the unbound variable

A query parameter that is absent is modelled as any string that is not the flag's value.

Behaviour of the code that the model keeps as written:

- The code never removes a key from `update_reference`. Neither `delete_update` nor the firing of
  an update does (`Updates.Dashboard.DeleteUpdate`, `Scenarios.OneShotUpdate`,
  `Scenarios.CancelledUpdate`).
- Two requests with the same composed name leave two display records and one handle. Deleting the
  second record finds the key and cancels an event that is no longer queued, so `sched` raises
  ValueError. The first event stays queued with no record or key to reach it
  (`Scenarios.CollidingUpdates`).
- A repeating update is queued again under the same key, but the new call's keyword arguments do
  not include `update_name`. Its firing therefore raises TypeError before the body runs
  (`Scenarios.RepeatingUpdate`).
- A requested time already past today gives a negative delay. Nothing rejects it
  (`Updates.PastTimeGivesNegativeDelay`).

## Model

| member | source | states |
|---|---|---|
| TimeConversion.Split | covid_data_handler.py:361 | `hhmm.split(':')` yields one more piece than there are separators, and no piece contains the separator |
| TimeConversion.JoinSplit | covid_data_handler.py:361 | splitting loses nothing: joining the pieces with the separator gives the label back |
| TimeConversion.SplitJoin | covid_data_handler.py:361 | pieces free of the separator are recovered exactly by splitting their join |
| TimeConversion.MinutesToSeconds | covid_data_handler.py:327-337 | the result is a whole number of minutes, and dividing it by 60 gives the minutes back |
| TimeConversion.HoursToMinutes | covid_data_handler.py:339-349 | the result is a whole number of hours, and dividing it by 60 gives the hours back |
| TimeConversion.HhmmToSeconds | covid_data_handler.py:361-363 | `None` is returned exactly when the label does not contain exactly one colon |
| TimeConversion.HhmmFields | covid_data_handler.py:364-365 | two numeric fields joined by one colon convert to (H*60)*60 + M*60 seconds, with no range check |
| TimeConversion.HhmmSecondsHasTwoFields | covid_data_handler.py:361-365 | every label that converts is two numeric fields around one colon, and its value is computed from them |
| TimeConversion.OneThirtyIs5400 | test_covid_data_handler.py:47-49 | "01:30" converts to 5400 seconds |
| TimeConversion.MidnightIsZero | covid_data_handler.py:351-365 | "00:00" converts to 0 seconds |
| TimeConversion.OutOfRangeAccepted | covid_data_handler.py:364-365 | "99:99" is accepted and converts to 99 hours plus 99 minutes |
| TimeConversion.NoColonIsNone | covid_data_handler.py:361-363 | a label without a colon gives `None` |
| Records.FirstTitled | covid_data_handler.py:146-147 | an index that is found lies in range and carries the title |
| Records.FirstTitledSpec | covid_data_handler.py:146-147 | the index found is the first with the title, and no index is found exactly when no record has the title |
| Records.RemoveFirstTitledAt | covid_data_handler.py:146-148 | the scan-and-remove drops exactly the first record with the title, keeps every other record in order, and changes nothing when none matches |
| Records.RemoveFirstTitledCount | covid_news_handling.py:49-53 | removal lowers the number of records with that title by one when there is one, and otherwise by nothing |
| News.FreshTitles | covid_news_handling.py:70-78 | a title is added by a refresh exactly when it occurs in the batch and has not been seen before |
| News.FreshDistinct | covid_news_handling.py:70-78 | no title is added twice by one refresh, even when the batch repeats it |
| News.AbsorbIsFresh | covid_news_handling.py:70-78 | a refresh appends exactly the fresh headlines to the display list and exactly their titles to the seen list, both in batch order |
| News.AbsorbSeesBatch | covid_news_handling.py:70-78 | after a refresh, every title of the batch is in the seen list |
| News.AbsorbSeenBatch | covid_news_handling.py:72-76 | a batch whose titles have all been seen changes neither list |
| News.FreshOfSeen | covid_news_handling.py:72-76 | a batch whose titles have all been seen yields no fresh headline |
| News.AbsorbIdempotent | covid_news_handling.py:56-79 | refreshing twice with the same articles is the same as refreshing once |
| News.NeverReadded | covid_news_handling.py:16-27 | once a title is in the seen list, no refresh changes how many displayed entries carry it |
| News.DeletedHeadlineStaysGone | covid_news_handling.py:42-79 | a headline deleted after a refresh stays deleted when the same articles arrive again: the second refresh changes nothing |
| News.DeleteKeepsConsistent | covid_news_handling.py:42-54 | deleting a displayed entry preserves the invariant that every displayed title is in the seen list |
| News.AbsorbKeepsConsistent | covid_news_handling.py:70-78 | a refresh preserves the invariant that every displayed title is in the seen list |
| News.NewsFeed.constructor | covid_news_handling.py:8-9 | both lists start empty |
| News.NewsFeed.AddNewsToList | covid_news_handling.py:16-27 | the title is appended to the seen list, and the display list is unchanged |
| News.NewsFeed.AddNewsArticle | covid_news_handling.py:29-40 | the entry `{title, description}` is appended to the display list, and the seen list is unchanged |
| News.NewsFeed.DeleteNews | covid_news_handling.py:42-54 | the first displayed entry with the title is removed, if any, and the seen list is unchanged |
| News.NewsFeed.UpdateNews | covid_news_handling.py:56-79 | the new state is the `Absorb` fold of the old state over the articles, and the display list is returned |
| CovidFigures.LastOnSpec | covid_data_handler.py:271-275 | the overwriting scan keeps the record at the highest index with the date, and finds none exactly when no record has that date |
| CovidFigures.LaggedIsRange | covid_data_handler.py:264-270 | summing day by day over the lagged days equals counting once each record dated inside the window |
| CovidFigures.InRangeOrderFree | covid_data_handler.py:264-270 | the 7-day total does not depend on the order of the records |
| CovidFigures.LocalRecordCounts | covid_data_handler.py:264-267 | one more local record adds its cases to the local total exactly when it is dated today-10 to today-4, duplicates included, and changes nothing else |
| CovidFigures.SnapshotDefinedIff | covid_data_handler.py:271-277 | figures are returned exactly when the national data has a record dated today-2 and one dated today-14 |
| CovidFigures.KnownWeek | covid_data_handler.py:243-277 | with known records, the totals count the window's first and last days and exclude the days just outside it, and the hospital and death figures come from today-2 and today-14 |
| CovidFigures.MissingHospitalDayRaises | covid_data_handler.py:271-277 | with no national record dated today-2 the call raises UnboundLocalError for `current_hospital_cases` |
| CovidFigures.ProcessCovidData | covid_data_handler.py:243-277 | the nested loops compute `CovidSnapshot`: windowed local and national totals, the last hospital figure of today-2 and the last death figure of today-14, or the UnboundLocalError |
| CovidFigures.ProcessCovidCsvData | covid_data_handler.py:279-309 | the loops compute `CsvFigures`: the total from 8 to 2 days before 2021-10-28, hospital cases on that date and deaths 13 days before it, or the UnboundLocalError |
| Scheduling.EventQueue.constructor | covid_data_handler.py:18 | the queue starts empty |
| Scheduling.EventQueue.Enter | covid_data_handler.py:71-75 | a new, distinct event carrying the delay, priority and keyword arguments is queued and returned, and nothing else is dequeued |
| Scheduling.EventQueue.Cancel | covid_data_handler.py:151 | the event is dequeued; an event that is not queued raises ValueError |
| Scheduling.EventQueue.Pop | covid_data_handler.py:180 | the run loop takes the due event off the queue before calling its action |
| Updates.ComposeNameSuffixes | covid_data_handler.py:65-70 | the composed name is the base name followed by the suffixes of the set flags, in the fixed order repeat, covid, news |
| Updates.SuffixesDetermineFlags | covid_data_handler.py:65-70 | the suffix part of a name determines which of the three flags were set |
| Updates.ComposeNameShape | covid_data_handler.py:65-70 | the composed name starts with the base name and ends with the news suffix when news is requested |
| Updates.DifferentRequestsCanCollide | covid_data_handler.py:65-71 | two different requests can compose the same registry key |
| Updates.DelayFor | covid_data_handler.py:64 | the delay is the target's seconds minus now's exactly when both labels convert; it raises ValueError exactly when either label has a non-numeric field, and TypeError exactly when neither has one but a label gives `None` |
| Updates.TenAtNine | covid_data_handler.py:64 | 10:00 requested at 09:00 gives a delay of 3600 seconds |
| Updates.PastTimeGivesNegativeDelay | covid_data_handler.py:64 | 09:00 requested at 10:00 gives a delay of -3600 seconds, and nothing rejects it |
| Updates.Dispatch | covid_data_handler.py:99-136 | the update raises exactly when covid data is requested and the figures raise; news is refreshed exactly when requested and the call succeeds; the record is dropped for a one-shot success or when no flag is set; the page carries the figures and articles requested |
| Updates.Dashboard.constructor | covid_data_handler.py:18-20 | the registry list, the reference map and the queue start empty |
| Updates.Dashboard.AddScheduledEvent | covid_data_handler.py:31-43 | the record `{title: name, content: "Update at <interval>"}` is appended, and the map is unchanged |
| Updates.Dashboard.ScheduleCovidUpdates | covid_data_handler.py:45-76 | with neither flag set, nothing changes; a delay that raises changes nothing; otherwise one fresh event is queued under the composed name, overwriting any earlier handle, and one record is appended |
| Updates.Dashboard.DeleteUpdate | covid_data_handler.py:138-153 | the first record with the title is removed and the map is kept; with `delete_s` set and a record found, a missing key raises KeyError, otherwise the mapped event is cancelled, with ValueError when it is no longer queued |
| Updates.Dashboard.UpdateData | covid_data_handler.py:78-136 | a call without a name raises TypeError and changes nothing; a repeating update is re-queued for 86400 s under the same key with no name; the feed, result and record follow `Dispatch` |
| Scenarios.OneShotUpdate | covid_data_handler.py:78-136 | after a one-shot update fires, its record is gone and its event is no longer queued, but its key remains |
| Scenarios.RepeatingUpdate | covid_data_handler.py:93-97 | a repeating update keeps its record and is re-queued a day later, and its second firing raises TypeError |
| Scenarios.CancelledUpdate | covid_data_handler.py:138-153 | cancelling before firing removes the record and the queued event, and keeps the key |
| Scenarios.CollidingUpdates | covid_data_handler.py:71-76 | two requests with the same name leave two records and one handle; deleting both raises ValueError the second time, and the first event stays queued as an orphan |

## Left out

- The Flask route `index` (covid_data_handler.py:156-209) and `render_template` are left out. The
  page is reduced to the values passed to the template (`Updates.Page`). The order in which the
  route polls the queue, fetches data and handles the query parameters is not modelled.
- `covid_API_request`, `news_API_request` and `parse_csv_data` are left out because they are
  network or file I/O. Their results are parameters: sequences of `DayRecord` and `Headline`.
- Configuration loading and logging are left out, and so is the `print` in `hhmm_to_seconds`.
  They have no effect on state.
- `datetime.now()` and `strftime` are replaced by the parameters `today` and `now`. The source
  reads the clock once per comparison, so a call that straddles midnight can mix two days. That
  case is not modelled.
- Scheduling.EventQueue: the queue is a set of events. Fire times, priority ordering, blocking and
  `run(blocking=False)`'s choice of which events are due are not modelled. An event keeps its
  delay rather than an absolute fire time.
- TimeConversion.ParseInt: the model accepts an optional sign followed by ASCII digits. Python's
  `int()` also strips surrounding whitespace and accepts underscores between digits and non-ASCII
  digits. For those inputs the model returns NotNumeric where the source gives a number.
- Updates.Dashboard.ScheduleCovidUpdates: the interval is always a string. A missing `update`
  parameter, or the integer that the test at test_covid_data_handler.py:28-29 passes, would fail
  inside `split` if the flags let the call reach it. That call is not modelled.
- CovidFigures.ProcessCovidData: the numeric fields of a record are integers. The `int()`
  conversion of API values, including the TypeError raised on a `None` field, is not modelled.
- CovidFigures.ProcessCovidCsvData: the rows are already typed records. The `DictReader`
  conversion of the CSV text, and the expected values in test_covid_data_handler.py:16-22, which
  depend on a data file, are not modelled.
- News.NewsFeed: `list_of_news` holds the seen titles directly, not `{"title": ...}`
  dictionaries. Every read of that list goes through the title, so nothing is lost.
