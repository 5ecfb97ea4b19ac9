# Historic price sync for tracked coins

This project models the sync engine of a small crypto price tracker. Every hour a
scheduler pass walks the tracked coins. Each coin gets one of two syncs:

- **Daily backfill.** The engine pages backwards through the daily price API from
  "now". Each page asks for at most 1500 days. Points stamped today are skipped, and
  points that are all zero are "no data" sentinels. The points that remain are stored
  as daily rows. A sentinel stops the paging after its page is saved, and so does a
  failed request. At the end the coin is marked as backfilled up to today's start,
  and a "historic inserted" webhook message is sent.
- **Hourly top-up.** The engine loads (or creates) today's row for the coin, with its
  embedded hourly ledger. It fetches the hourly page and keeps the points that lie
  after the ledger's last hour and before the current hour. It appends them to the
  ledger and sends an hourly webhook message coloured by the price move. When an
  accepted point falls in local hour 23, the engine also asks for the closed daily
  candle of the previous day. It copies that candle into the row and sends a
  "daily resume" message.

The engine has these parts:

- **Store** (`Candles`). The coins, their rows and the log of webhook messages sent.
- **Time order** (`TimeOrder`). Python's stable sort by time, newest or oldest first.
- **Day span** (`DaySpan`). `count_days_between_timestamps`.
- **Backfill** (`Backfill`). The paging loop. It is specified by a step function
  `Step` and the run it drives, `Final`. The imperative methods are proved against
  them.
- **Hourly top-up** (`HourlyTopUp`). The per-point scan as methods. They are proved
  against the value-level outcome `TopUp`.
- **Sync entry point** (`HistoricSync`). The routing of `main`.
- **Dispatch** (`Dispatcher`). The scheduler pass.
- **Notifier** (`Notifier`). The webhook payload `send_message` builds.

Other modelling choices:

- Coins are a `class` whose two sync fields the engine updates.
- The store is a `class` holding daily rows as values. An update in place replaces
  the row at its position.
- Upstream answers are inputs, and so is the clock, including its timezone
  conversions.

## Model

| member | source | states |
|---|---|---|
| Candles.Coin.constructor | Scripts/add_coin.py:58-64 | a new coin starts tracking at its listing date, with the backfill flag at its column default (false) |
| Candles.Store.constructor | Models/coins.py:25-36 | a new store holds no rows and has sent no messages |
| Candles.TimesOf | main.py:24 | a coin's row timestamps are exactly the timestamps of the rows carrying its id |
| Candles.TimesOfAppend | Scripts/get_historic_coin_data.py:138 | the coin's row count over appended rows is the sum over both parts |
| Candles.TimesOfOthers | Scripts/get_historic_coin_data.py:138 | rows of other coins add nothing to a coin's count |
| Candles.CountOwn | Scripts/get_historic_coin_data.py:138 | rows that all carry the coin's id all count for it |
| Candles.CountFor | Scripts/get_historic_coin_data.py:138 | the coin's row count, the length of its timestamps (stated through `CountRowsOf`) |
| Candles.TimesOfReplace | Scripts/get_historic_coin_data.py:240-243 | updating a row in place without changing its coin or stamp leaves every coin's timestamps alone |
| Candles.Largest | Scripts/get_historic_coin_data.py:175 | `max` returns an element of the list that no element exceeds |
| TimeOrder.InsertOrdered | Scripts/get_historic_coin_data.py:113 | inserting a point into a time-ordered list keeps it ordered |
| TimeOrder.InsertPermutes | Scripts/get_historic_coin_data.py:113 | insertion adds exactly the inserted point |
| TimeOrder.SortOrdered | Scripts/get_historic_coin_data.py:216 | the sort by time yields a list ordered by time, newest first for the backfill and oldest first for the top-up |
| TimeOrder.SortPermutes | Scripts/get_historic_coin_data.py:113 | the sort keeps every point of the page, with its multiplicity |
| DaySpan.CountDays | Scripts/get_historic_coin_data.py:71-81 | the whole days between the listing stamp and today's start, truncated toward zero for either sign |
| DaySpan.LessThanADayIsZero | Scripts/get_historic_coin_data.py:78 | less than a day apart, either way, counts as zero days |
| DaySpan.WholeDays | Scripts/get_historic_coin_data.py:78 | exactly n days apart counts as n days |
| Backfill.ValidOf | Scripts/get_historic_coin_data.py:116-130 | the points kept from a page are exactly the page's points that are neither stamped today nor all-zero |
| Backfill.InvalidCount | Scripts/get_historic_coin_data.py:120-127 | the sentinel count is positive iff the page holds an all-zero point not stamped today; sentinels and kept points never outnumber the page |
| Backfill.Start | Scripts/get_historic_coin_data.py:93-95 | the loop starts with all the days to fetch, the cursor at now, both counters at zero, nothing saved or asked and no failure (stated through `FinalCursor` and `FinalSaved`) |
| Backfill.Running | Scripts/get_historic_coin_data.py:96 | the loop goes on while days remain, no sentinel was met and no request failed (stated through `Final` and `FinalStops`) |
| Backfill.ValidOfOrdered | Scripts/get_historic_coin_data.py:113-130 | the kept points stay newest first |
| Backfill.ScanPage | Scripts/get_historic_coin_data.py:115-130 | the page scan loop returns exactly the kept points and the sentinel count |
| Backfill.Step | Scripts/get_historic_coin_data.py:96-137 | one request asks for min(limit, days left) - 1 at the current cursor. A failure ends the run with days, cursor and saved points unchanged. A success consumes those days, moves the cursor to the page's TimeFrom and only appends to the saved points |
| Backfill.StepSuccess | Scripts/get_historic_coin_data.py:111-133 | a successful request stores the page's kept points and adds its sentinels to the count |
| Backfill.Final | Scripts/get_historic_coin_data.py:96 | the loop ends, with no days left, a sentinel seen or a request failed, and only ever extends the requests and saved points |
| Backfill.FinalUnfold | Scripts/get_historic_coin_data.py:96 | a running loop goes on from its next step |
| Backfill.DaysAskedAppend | Scripts/get_historic_coin_data.py:99-105 | the days asked over two runs of requests add up |
| Backfill.AskedStep | Scripts/get_historic_coin_data.py:96-109 | the requests of a running loop are its next request followed by the rest |
| Backfill.FinalSaved | Scripts/get_historic_coin_data.py:127-131 | the valid-entry counter equals the number of points stored, and each stored point is a kept one |
| Backfill.FinalPageSizes | Scripts/get_historic_coin_data.py:99-105 | every request's limit lies in [0, limit) (1500 days per page), and the day counter never goes negative |
| Backfill.FinalDays | Scripts/get_historic_coin_data.py:99-137 | the successful requests ask for exactly the days consumed; a failed request is the last one sent |
| Backfill.FinalCursor | Scripts/get_historic_coin_data.py:93-133 | the first request pages back from now, and each later one from the TimeFrom of the successful page before it |
| Backfill.FinalStops | Scripts/get_historic_coin_data.py:96-133 | the loop only goes on past a page that came back without a sentinel day: every request but the last succeeded with no sentinel |
| Backfill.FinalStopsOnSentinel | Scripts/get_historic_coin_data.py:96-133 | a run that met a sentinel day met it on the page of its last request |
| Backfill.FinalStopsOnFailure | Scripts/get_historic_coin_data.py:134-137 | a run whose request failed stopped at that request |
| Backfill.IsSentinel | Scripts/get_historic_coin_data.py:121-126 | a day whose open, high, low and close are all zero (stated through `ValidOf`, `InvalidCount` and `FinalStopsOnSentinel`) |
| Backfill.IsToday | Scripts/get_historic_coin_data.py:117-120 | a point stamped with today's start once re-read as a server day (stated through `ValidOf`) |
| Backfill.Keeps | Scripts/get_historic_coin_data.py:120-130 | a point that is neither today nor a sentinel (stated through `ValidOf`) |
| Backfill.Halts | Scripts/get_historic_coin_data.py:121-127 | a closed day carrying the sentinel, the point that ends the loop (stated through `InvalidCount` and `FinalStopsOnSentinel`) |
| Backfill.RowsOf | Scripts/get_historic_coin_data.py:52-62 | one row per saved point, in order, with the coin's id, the point's candle and its time re-read as a server stamp |
| Backfill.RowsOfAppend | Scripts/get_historic_coin_data.py:131 | the rows of two batches are the rows of each in turn |
| Backfill.PageRepeatsDay | Scripts/get_historic_coin_data.py:47-68 | a page holding a kept day twice becomes two rows of the coin with the same stamp: the save never checks what is stored |
| Backfill.RowOf | Scripts/get_historic_coin_data.py:55-62 | a saved point becomes a row of the coin stamped with the point's server day, carrying its candle and no hours (stated through `RowsOf`) |
| Backfill.InsertedNote | Scripts/get_historic_coin_data.py:144 | the success notice is a plain "historic" message to the coin's webhook under its name (stated through `InsertedNoteSends`) |
| Backfill.CountRowsOf | Scripts/get_historic_coin_data.py:138 | the coin's count grows by exactly the number of points stored |
| Backfill.SaveHistoricData | Scripts/get_historic_coin_data.py:47-68 | the save appends one row per entry, in order, and sends nothing |
| Backfill.PageBackwards | Scripts/get_historic_coin_data.py:93-137 | the paging loop stores exactly the rows of the run's saved points, and its counter equals the coin's row-count growth |
| Backfill.FetchPaginatedHistoric | Scripts/get_historic_coin_data.py:84-147 | the backfill stores the run's rows, marks the coin backfilled up to today's start and sends one "historic inserted" message |
| HourlyTopUp.PercentChange | Scripts/get_historic_coin_data.py:244-247 | the percentage is (close - open) / open * 100, and zero when open is zero |
| HourlyTopUp.ColourFollowsChange | Scripts/get_historic_coin_data.py:248-253 | for a positive open, red, green and yellow mean a negative, positive and zero percentage |
| HourlyTopUp.TenPercentRise | Scripts/get_historic_coin_data.py:266-273 | an open of 100 and a close of 110 report 10% in green |
| HourlyTopUp.ResumeNote | Scripts/get_historic_coin_data.py:247-253 | a daily resume is a "historic" message to the coin's webhook under its name, embedded, coloured by the candle's move, at hour 0 and daily (stated through `ResumeNotes` and `ResumesShape`) |
| HourlyTopUp.HourlyNote | Scripts/get_historic_coin_data.py:264-275 | an hourly update is a "historic" message to the coin's webhook under its name, embedded, coloured by the last entry's move, at the `NoteHour` hour and not daily (stated through `TopUpTaken` and `TopUpNotesSend`) |
| HourlyTopUp.Colour | Scripts/get_historic_coin_data.py:248-253 | red for a fall, green for a rise, yellow for no move (stated through `ColourFollowsChange` and `TenPercentRise`) |
| HourlyTopUp.Matches | Scripts/get_historic_coin_data.py:238-239 | a point is matched iff it is a point of the daily page stamped at the previous day's start |
| HourlyTopUp.ResumeNotes | Scripts/get_historic_coin_data.py:248-253 | one "daily resume" message per matching point, coloured by that point's move |
| HourlyTopUp.ResumedOhlc | Scripts/get_historic_coin_data.py:238-243 | today's candle after the resume loop (stated through `ResumedWithoutMatch`, `ResumedLastMatch` and `ResumedTwice`) |
| HourlyTopUp.ResumedWithoutMatch | Scripts/get_historic_coin_data.py:238-243 | with no daily point stamped at the previous day's start the row keeps its candle |
| HourlyTopUp.ResumedLastMatch | Scripts/get_historic_coin_data.py:238-243 | otherwise the row ends with the candle of the last such point in page order |
| HourlyTopUp.ResumedTwice | Scripts/get_historic_coin_data.py:238-243 | copying the previous day's candle a second time changes nothing |
| HourlyTopUp.ApplyDailyResume | Scripts/get_historic_coin_data.py:236-253 | the hour-23 loop leaves the row holding the last matching candle, or its own, and sends one resume message per match |
| HourlyTopUp.ResumesShape | Scripts/get_historic_coin_data.py:249-253 | every resume message is an embedded daily one, coloured red, green or yellow, to the coin's webhook under its name |
| HourlyTopUp.Hours | Scripts/get_historic_coin_data.py:175 | the ledger's hours, in ledger order |
| HourlyTopUp.LastHour | Scripts/get_historic_coin_data.py:173-175 | the last saved hour is absent exactly for an empty ledger; otherwise it is an entry's hour that no entry exceeds |
| HourlyTopUp.WindowFor | Scripts/get_historic_coin_data.py:192-196 | the window ends at the current hour; an empty ledger opens it at today's start with no last hour, a ledger with entries opens it at the hour after its largest hour, which it names as the last hour |
| HourlyTopUp.Accepts | Scripts/get_historic_coin_data.py:226 | the acceptance test on one point (stated through `Accepted`) |
| HourlyTopUp.Accepted | Scripts/get_historic_coin_data.py:219-226 | a point is accepted iff it is a point of the sorted page that lies in [start, current hour) and whose local hour is not the last saved hour |
| HourlyTopUp.AcceptedOrdered | Scripts/get_historic_coin_data.py:216-226 | the accepted points stay oldest first |
| HourlyTopUp.EntriesOf | Scripts/get_historic_coin_data.py:254-262 | one ledger entry per accepted point, in order |
| HourlyTopUp.EntryOf | Scripts/get_historic_coin_data.py:254-260 | an entry carries its point's local hour; outside hour 23, or without a non-empty daily page, it carries the point's candle, and otherwise the last daily candle of the page |
| HourlyTopUp.OhlcAfter | Scripts/get_historic_coin_data.py:227-243 | the row's candle is unchanged when no accepted point falls at hour 23 or the daily page failed, and is the resumed candle otherwise |
| HourlyTopUp.ResumesFor | Scripts/get_historic_coin_data.py:227-253 | the resumes one accepted point sends: one per matching daily point at hour 23 with the daily page fetched, none otherwise (stated through `TakeSnoc` and `ScanStep`) |
| HourlyTopUp.ResumesDuring | Scripts/get_historic_coin_data.py:219-253 | the resumes of the whole scan, point by point in scan order (stated through `TakeSnoc` and `ScanHours`) |
| HourlyTopUp.AcceptedUpToPrefix | Scripts/get_historic_coin_data.py:219-226 | the points the loop has accepted after i points are the accepted points of the first i points |
| HourlyTopUp.TakeSnoc | Scripts/get_historic_coin_data.py:219-262 | taking one more point appends its entry and its resumes |
| HourlyTopUp.FirstRow | Scripts/get_historic_coin_data.py:161-164 | the query returns the first of the coin's rows stamped today, or none when there is none |
| HourlyTopUp.Placeholder | Scripts/get_historic_coin_data.py:178-190 | the new row of today: the coin's id, today's start, an all-zero candle and an empty ledger (stated through `BaseFor`) |
| HourlyTopUp.BaseFor | Scripts/get_historic_coin_data.py:173-190 | an existing row of today is used only when its ledger is non-empty; otherwise a zero placeholder row of today is used |
| HourlyTopUp.NoteHour | Scripts/get_historic_coin_data.py:264-275 | a red or green update names the last entry's hour; a yellow one names the local hour of the last point of the sorted page |
| HourlyTopUp.TopUp | Scripts/get_historic_coin_data.py:150-291 | the rows and messages one top-up leaves (stated through `FetchPaginatedHistoricHourly`, `TopUpSendsIffChanges`, `TopUpFrame`, `TopUpLedger` and `TopUpRerun`) |
| HourlyTopUp.TakeAccepted | Scripts/get_historic_coin_data.py:227-262 | taking one accepted point builds its entry and, at hour 23, applies the daily resume |
| HourlyTopUp.ScanStep | Scripts/get_historic_coin_data.py:219-262 | one loop turn extends the entries, the row's candle and the messages exactly by what the point contributes |
| HourlyTopUp.ScanHours | Scripts/get_historic_coin_data.py:218-262 | the loop yields the entries and candle of all accepted points, and sends their resume messages in order |
| HourlyTopUp.TopUpTaken | Scripts/get_historic_coin_data.py:264-276 | with new entries, the ledger is extended and one hourly message follows the resume messages |
| HourlyTopUp.TopUpSendsIffChanges | Scripts/get_historic_coin_data.py:213-287 | a failed hourly request changes nothing; otherwise a message is sent iff a row changes, and the last message is the hourly update |
| HourlyTopUp.TopUpUntouched | Scripts/get_historic_coin_data.py:214-287 | a failed hourly request, or no accepted point, changes no row and sends nothing |
| HourlyTopUp.FetchPaginatedHistoricHourly | Scripts/get_historic_coin_data.py:150-291 | the top-up leaves the store and messages as the outcome function prescribes |
| HourlyTopUp.TopUpFrame | Scripts/get_historic_coin_data.py:173-276 | the top-up adds at most one row, the coin's row of today. Any other change is to the coin's row of today, whose ledger it strictly extends. Other coins' rows keep their stamps |
| HourlyTopUp.AcceptedFromPage | Scripts/get_historic_coin_data.py:216-226 | the accepted points come from the page, oldest first, inside the window, and never in the last saved hour |
| HourlyTopUp.EntriesSkipLastHour | Scripts/get_historic_coin_data.py:226-255 | no new entry repeats the last saved hour |
| HourlyTopUp.NoneAccepted | Scripts/get_historic_coin_data.py:226 | a page none of whose points passes the test yields no entry |
| HourlyTopUp.RescanAcceptsNothing | Scripts/get_historic_coin_data.py:175-226 | once the accepted entries are in the ledger, the same page has nothing more to accept |
| HourlyTopUp.AcceptedUnderNewLast | Scripts/get_historic_coin_data.py:175-226 | an accepted point's hour is at most the last hour of the extended ledger |
| HourlyTopUp.OutsideRescanWindow | Scripts/get_historic_coin_data.py:192-226 | a point accepted before, or ruled out before, falls outside the next window |
| HourlyTopUp.AcceptedRising | Scripts/get_historic_coin_data.py:216-226 | on a page with one point per hour of today, the accepted points fall in strictly rising hours |
| HourlyTopUp.LedgerStaysRising | Scripts/get_historic_coin_data.py:175-276 | a ledger with strictly rising hours stays so after the accepted entries are appended |
| HourlyTopUp.EntriesRising | Scripts/get_historic_coin_data.py:254-262 | entries of points in rising hours have rising hours |
| HourlyTopUp.AfterLastHour | Scripts/get_historic_coin_data.py:192-226 | a point accepted after a last saved hour lies in a later hour |
| HourlyTopUp.RisingAppend | Scripts/get_historic_coin_data.py:276 | a rising ledger extended by rising entries that start after its last hour is rising |
| HourlyTopUp.RisingBounded | Scripts/get_historic_coin_data.py:175 | a ledger of strictly rising hours within 0..23 has at most 24 entries |
| HourlyTopUp.TopUpLedger | Scripts/get_historic_coin_data.py:173-276 | when the stored ledger has rising hours of the day and the page one point per hour, every row the top-up changes or adds holds rising hours and at most 24 entries |
| HourlyTopUp.ExtendedLedger | Scripts/get_historic_coin_data.py:175-276 | a rising ledger of hours of the day extended by the entries of a page with one point per hour is rising with at most 24 entries |
| HourlyTopUp.TopUpWrites | Scripts/get_historic_coin_data.py:173-276 | every row a successful top-up changes or adds holds the base ledger extended by the accepted points' entries |
| HourlyTopUp.RepeatedTimeRepeatsHour | Scripts/get_historic_coin_data.py:216-260 | a page repeating a point of today before the current hour puts that hour into a fresh ledger twice |
| HourlyTopUp.PlainClockConsistent | Scripts/get_historic_coin_data.py:173-201 | a clock with one-hour-wide local hours meets the hour assumptions the rescan and ledger lemmas rely on |
| HourlyTopUp.FirstRowIs | Scripts/get_historic_coin_data.py:161-164 | the first row matching the query is the one found |
| HourlyTopUp.TopUpRerun | Scripts/get_historic_coin_data.py:150-291 | running the top-up again on the same answers changes nothing and sends nothing |
| HistoricSync.BackfillKeepsOthers | Scripts/get_historic_coin_data.py:52-62 | backfilled rows leave other coins' timestamps alone |
| HistoricSync.BackfillTwiceRepeatsDays | Scripts/get_historic_coin_data.py:47-147 | a second backfill of a coin whose fields were not yet updated stores each saved day again, under the same coin and stamp |
| HistoricSync.SyncEffect | Scripts/get_historic_coin_data.py:294-311 | one sync's rows and messages: a backfill appends its rows and sends exactly its notice; no sync changes another coin's timestamps |
| HistoricSync.SyncCoin | Scripts/get_historic_coin_data.py:294-311 | the store ends as `SyncEffect` prescribes. Hourly runs the top-up and leaves the coin's fields alone. Otherwise it backfills with limit 1500 over the days since the last tracked stamp |
| HistoricSync.InsertedNoteSends | Scripts/get_historic_coin_data.py:144 | the "historic inserted" message is sent as plain content with the historic icon |
| HistoricSync.TopUpNotesSend | Scripts/get_historic_coin_data.py:249-275 | when local hours lie in 0..23, every message the top-up sends builds as an embed with a red, green or yellow colour |
| Dispatcher.NeedsBackfillIff | main.py:21-25 | a coin is backfilled (the mode is daily) iff it has no row, its flag is false, or every row is older than the previous date: the server's midnight one calendar day before today, which the clock supplies |
| Dispatcher.RecentRowGoesHourly | main.py:25-28 | a coin with a recent row is topped up whether its flag is true or null |
| Dispatcher.NeedsBackfill | main.py:25 | the backfill test on the newest row and the flag (stated through `NeedsBackfillIff`) |
| Dispatcher.ModeFor | main.py:25-28 | the daily mode exactly when the test holds (stated through `NeedsBackfillIff` and `RecentRowGoesHourly`) |
| Dispatcher.Snaps | main.py:20 | the coins' fields in query order, one per coin |
| Dispatcher.Pass | main.py:18-28 | the rows and messages of syncing the coins in order, each in the mode decided on the rows left by the coins before it; coins outside the pass keep their timestamps |
| Dispatcher.PassSnoc | main.py:23-28 | the pass over one more coin is the pass so far followed by that coin's sync |
| Dispatcher.DispatchCoin | main.py:24-28 | the mode follows the test on the coin's newest row and flag. The store ends as that mode's `SyncEffect` prescribes. A backfilled coin ends marked up to today; a topped-up coin keeps its fields; other coins' timestamps are unchanged |
| Dispatcher.ProcessAllCryptos | main.py:18-28 | the store ends as `Pass` over the coins as found prescribes: each coin synced once, in order. Each mode is the one the test gives on the store as the pass found it. Backfilled coins end marked up to today; topped-up coins keep their fields |
| Dispatcher.RunPass | main.py:23-28 | the loop over the coins ends with every coin decided, settled and synced as `Pass` prescribes |
| Dispatcher.DispatchStep | main.py:24-28 | one loop turn syncs coin i as the pass prescribes after the coins before it, and leaves every other coin's fields alone |
| Notifier.IconUrl | Scripts/sendDiscordMessage.py:6-31 | an avatar exists exactly for the kinds "plus" and "historic" |
| Notifier.ColorCode | Scripts/sendDiscordMessage.py:13-27 | red, green and yellow map to their codes; any other name maps to white |
| Notifier.TwoDigits | Scripts/sendDiscordMessage.py:12-21 | an hour renders as two decimal digits that read back as it |
| Notifier.RunTime | Scripts/sendDiscordMessage.py:11-12 | the run time is today's date, a space, the hour in two digits that read back as it, and ":00:00" |
| Notifier.DailyTitle | Scripts/sendDiscordMessage.py:18-19 | the daily title is the username between a leading space and " Daily Update" |
| Notifier.HourlyTitle | Scripts/sendDiscordMessage.py:20-21 | the hourly title is the username after a leading space, then " Hourly Update on " and the run time |
| Notifier.TitlesDiffer | Scripts/sendDiscordMessage.py:18-21 | a daily title never equals an hourly title |
| Notifier.BuildMessage | Scripts/sendDiscordMessage.py:5-39 | An embed with an hour outside 0..23 is refused, then an unknown kind. Otherwise the payload carries the username and the kind's icon. An embed carries the description, the mapped colour and the daily or hourly title; a plain message carries the content |

## Left out

- HTTP is not modelled. The price API calls, `requests.post` and its status check are
  replaced: upstream answers are inputs (`Upstream`), and each webhook call is recorded
  as a `Notification` in the store's outbox. `BuildMessage` gives the payload.
- The daily API is a function from request to answer. The model does not capture
  answers that change between two identical requests.
- The one-second sleep between pages is not modelled.
- Sessions are not modelled: commit, flush, rollback and the `try`/`except`
  handlers. Every write takes effect at once. The rollback after an exception is
  absent. `TopUpNotesSend` shows that, with local hours in 0..23, no top-up message
  is refused, but a failing POST or database is not modelled.
- The clock is an input. This covers the module-level stamps taken when the scripts
  are imported, so the model does not show that a long-running scheduler keeps the
  day it was started on. It also covers the `Europe/London` conversion and the
  server-local re-stamping of daily points, which are functions inside `Clock`.
- `limit_hour_unix` is recomputed for every hourly point. The model reads one current
  hour per run.
- `HourlyTopUp.TopUpRerun` holds only for a clock whose hours behave as in one
  timezone (`HoursConsistent`). It also excludes a coin whose row of today has an
  empty ledger: such a row is not updated, and a second row of today is added beside
  it, as the code does.
- `DaySpan.CountDays` uses exact integer division truncated toward zero. The source
  divides as a float and then truncates, which agrees for any realistic timestamp
  difference.
- Message texts with `:.2f` formatting are not modelled. A message carries its
  numbers (`Content`) instead.
- Outside this model:
  - `discord_bot.py`;
  - `db.py`;
  - the scheduler set-up in `main.py`;
  - the onboarding in `add_coin.py`, apart from a new coin's initial fields.
- Rows are values in the store, so ORM identity and aliasing are not modelled.
  `main` re-reads the coin in its own session; the model passes the same object.
- The completion test `count_inserted >= valid_entries_count` always holds. The
  model proves that the count grows by exactly the counter. So the coin is marked
  backfilled even after a failed request or a sentinel. That is what the code does,
  although the design intends the flag to record a complete backfill.
- Hour 23 is modelled as written. The inner loop rebinds `entry`, so the hour-23
  ledger entry carries the candle of the last point of the short daily page, not the
  hourly candle (`HourlyTopUp.EntryOf`).
- The hourly message of a yellow (unchanged) move is modelled as written: its hour is
  the local hour of the last point of the sorted page (`HourlyTopUp.NoteHour`).
- Dispatcher.ProcessAllCryptos: every coin is synced once only when no sync raises.
  The backfill catches nothing until its final commit. So a failed request or a bad
  JSON answer, a failure answer without a `Message` field
  (`Scripts/get_historic_coin_data.py:136`) or a failed batch commit (`:67`) raises out
  of `main` (`:294-313`), which only closes its session. `process_all_cryptos`
  (`main.py:18-28`) has no handler either, so the rest of the pass is skipped. The
  top-up catches its own errors (`:289-291`). The model has no exceptions: every sync
  completes.
- HourlyTopUp.FirstRow: today's row is loaded with `.first()` and no `ORDER BY`
  (`Scripts/get_historic_coin_data.py:161-164`). The database may return any
  matching row; the model takes the first matching row in store order.
- HourlyTopUp.TopUpLedger: the ledger stays free of repeated hours, with at most 24
  entries, only under three assumptions. The clock reads hours consistently
  (`HoursConsistent`), local hours lie in 0..23, and the hourly page has one point per
  hour of today. The code itself does not keep the ledger that way. A page that
  repeats a time puts one hour into the ledger twice (`RepeatedTimeRepeatsHour`). So
  does a clock change that reads one local hour twice, such as the autumn change in
  `Europe/London`.
- Backfill.PageBackwards: nothing keeps one row per coin and day. The row table has
  no unique key (`Models/coins.py:23-34`), and the save appends without looking at
  the stored rows (`Scripts/get_historic_coin_data.py:47-68`). Each page is
  committed when saved (`:67`), but the coin's fields are only set at the end
  (`:139-141`). So a backfill that raises after saving a page leaves the coin due for
  a backfill, and the next pass stores the same days again
  (`HistoricSync.BackfillTwiceRepeatsDays`). A page, or two pages, that return the
  same day also store it twice (`Backfill.PageRepeatsDay`).
- Backfill.Final: the loop, and every member built on it (`PageBackwards`,
  `FetchPaginatedHistoric`, `FinalPageSizes`), assumes a page limit of at least one
  day. With a limit of 0 every request asks for no days, the day counter never falls,
  and the source loops until a sentinel or a failed request. The only caller passes 1500
  (`Scripts/get_historic_coin_data.py:301`).
