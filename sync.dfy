/** One sync run of one coin: the full daily backfill from the coin's last tracked
    day, or the hourly top-up of today's row. */
module HistoricSync {
  import opened Candles
  import opened DaySpan
  import opened Backfill
  import opened TimeOrder
  import opened HourlyTopUp
  import opened Notifier

  /** The page size of the daily backfill, in days. */
  const PageLimit: int := 1500

  /** The backfill appends rows of its own coin only, so other coins keep their timestamps. */
  lemma BackfillKeepsOthers(rows: seq<DailyCandle>, coinId: int, points: seq<Point>, clock: Clock)
    ensures forall id :: id != coinId ==> TimesOf(rows + RowsOf(coinId, points, clock), id) == TimesOf(rows, id)
  {
    forall id | id != coinId
      ensures TimesOf(rows + RowsOf(coinId, points, clock), id) == TimesOf(rows, id)
    {
      TimesOfAppend(rows, RowsOf(coinId, points, clock), id);
      TimesOfOthers(RowsOf(coinId, points, clock), id);
      assert TimesOf(rows, id) + [] == TimesOf(rows, id);
    }
  }

  /** The fields of a coin a sync reads. */
  datatype Snapshot = Snapshot(id: int, name: string, webhook: string, lastTimeTracked: int, historyCheck: Option<bool>)

  function Snap(coin: Coin): Snapshot
    reads coin
  {
    Snapshot(coin.id, coin.name, coin.webhook, coin.lastTimeTracked, coin.historyCheck)
  }

  /** What one sync of a coin leaves behind: the rows after it and the notifications it
      sent. A backfill sends exactly its one notice; no sync changes another coin's rows. */
  function SyncEffect(rows: seq<DailyCandle>, c: Snapshot, hourly: bool, up: Upstream, clock: Clock): (out: Outcome)
    ensures !hourly ==> out.notes == [InsertedNote(c.webhook, c.name)] && |rows| <= |out.rows| && out.rows[..|rows|] == rows
    ensures forall id :: id != c.id ==> TimesOf(out.rows, id) == TimesOf(rows, id)
  {
    if hourly then
      TopUpFrame(rows, c.id, c.webhook, c.name, up, clock);
      TopUp(rows, c.id, c.webhook, c.name, up, clock)
    else
      var run := Final(Start(CountDays(clock.todayStart, c.lastTimeTracked), clock.now), PageLimit, up.daily, clock);
      BackfillKeepsOthers(rows, c.id, run.saved, clock);
      assert (rows + RowsOf(c.id, run.saved, clock))[..|rows|] == rows;
      Outcome(rows + RowsOf(c.id, run.saved, clock), [InsertedNote(c.webhook, c.name)])
  }

  /** Syncs one coin in the mode asked for: the backfill covers the whole days from the
      coin's last tracked day to today in pages of `PageLimit` days, the top-up covers
      today's hours. Either way no other coin's rows change. */
  method SyncCoin(store: Store, coin: Coin, hourly: bool, up: Upstream, clock: Clock)
    modifies store, coin
    ensures hourly ==>
      var out := TopUp(old(store.rows), coin.id, coin.webhook, coin.name, up, clock);
      store.rows == out.rows && store.outbox == old(store.outbox) + out.notes &&
      coin.lastTimeTracked == old(coin.lastTimeTracked) && coin.historyCheck == old(coin.historyCheck)
    ensures !hourly ==>
      var run := Final(Start(CountDays(clock.todayStart, old(coin.lastTimeTracked)), clock.now), PageLimit, up.daily, clock);
      store.rows == old(store.rows) + RowsOf(coin.id, run.saved, clock) &&
      store.outbox == old(store.outbox) + [InsertedNote(coin.webhook, coin.name)] &&
      coin.historyCheck == Some(true) && coin.lastTimeTracked == clock.todayStart
    ensures var out := SyncEffect(old(store.rows), old(Snap(coin)), hourly, up, clock);
      store.rows == out.rows && store.outbox == old(store.outbox) + out.notes
    ensures forall id :: id != coin.id ==> TimesOf(store.rows, id) == old(TimesOf(store.rows, id))
  {
    var totalDays := CountDays(clock.todayStart, coin.lastTimeTracked);
    if hourly {
      TopUpFrame(store.rows, coin.id, coin.webhook, coin.name, up, clock);
      FetchPaginatedHistoricHourly(store, coin, up, clock);
    } else {
      ghost var rows0 := store.rows;
      FetchPaginatedHistoric(store, coin, PageLimit, totalDays, up.daily, clock);
      BackfillKeepsOthers(rows0, coin.id, Final(Start(totalDays, clock.now), PageLimit, up.daily, clock).saved, clock);
    }
  }

  /** A backfill does not look at the rows already stored: running it again for a coin
      whose fields it has not yet updated stores every saved day a second time, under the
      same coin and stamp. */
  lemma BackfillTwiceRepeatsDays(rows: seq<DailyCandle>, c: Snapshot, up: Upstream, clock: Clock)
    requires Final(Start(CountDays(clock.todayStart, c.lastTimeTracked), clock.now), PageLimit, up.daily, clock).saved != []
    ensures var once := SyncEffect(rows, c, false, up, clock).rows;
      var twice := SyncEffect(once, c, false, up, clock).rows;
      |rows| < |once| < |twice| && twice[|rows|].coinId == c.id && twice[|rows|] == twice[|once|]
  {
    var run := Final(Start(CountDays(clock.todayStart, c.lastTimeTracked), clock.now), PageLimit, up.daily, clock);
    var added := RowsOf(c.id, run.saved, clock);
    assert (rows + added + added)[|rows|] == added[0] == (rows + added + added)[|rows + added|];
  }

  /** The backfill's notice is a plain message with the "historic" avatar. */
  lemma InsertedNoteSends(webhook: string, name: string, today: string)
    ensures BuildMessage(InsertedNote(webhook, name), today) == Ready(Plain(HistoricInserted(name), name, HistoricIcon))
  {
  }

  /** With a clock whose local hours lie in 0..23, every notification a top-up sends is
      built as a coloured embed: none is refused and none falls back to white. */
  lemma TopUpNotesSend(rows: seq<DailyCandle>, coinId: int, webhook: string, name: string, up: Upstream,
                       clock: Clock, today: string)
    requires forall t :: 0 <= HourOf(clock, t) < 24
    ensures forall n :: n in TopUp(rows, coinId, webhook, name, up, clock).notes ==>
      BuildMessage(n, today).Ready? && BuildMessage(n, today).message.Embedded? &&
      BuildMessage(n, today).message.embed.color != White
  {
    if up.hourly.Success? {
      var base := BaseFor(rows, coinId, clock);
      var sorted := SortByTime(up.hourly.points, false);
      var acc := Accepted(sorted, WindowFor(base.row.hourly, clock), clock);
      if acc != [] {
        ResumesShape(acc, clock, up.recentDaily, clock.prevDayStart, webhook, name);
        var entries := EntriesOf(acc, clock, up.recentDaily);
        assert entries[|entries| - 1].hour == HourOf(clock, acc[|acc| - 1].time);
      }
    }
  }
}
