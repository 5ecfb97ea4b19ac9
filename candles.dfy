/** The records of the candle store: tracked coins, their daily rows with the
    embedded hourly ledger, the price API's points and responses, and the log of
    webhook notifications the sync engine emits. */
module Candles {

  datatype Option<+T> = None | Some(value: T)

  /** Open/high/low/close of one candle. The columns are exact decimals, so `real`. */
  datatype Ohlc = Ohlc(high: real, low: real, open: real, close: real)

  /** The all-zero candle: the upstream's "no data" sentinel and the placeholder row. */
  const Blank := Ohlc(0.0, 0.0, 0.0, 0.0)

  /** One point of the price API: its Unix time and its candle. */
  datatype Point = Point(time: int, ohlc: Ohlc)

  /** One element of a day's hourly ledger, tagged with its local hour of day. */
  datatype HourEntry = HourEntry(hour: int, ohlc: Ohlc)

  /** The paging parameters of one daily request (`limit` is one less than the days wanted). */
  datatype Request = Request(limit: int, toTs: int)

  /** A price API answer: "Success" with its points and the earliest time of the page, or anything else. */
  datatype Response = Success(points: seq<Point>, timeFrom: int) | Failure(message: string)

  /** The upstream answers one sync run sees: the daily API as a function of the
      request, the hourly page, and the short daily page asked for at hour 23. */
  datatype Upstream = Upstream(daily: Request -> Response, hourly: Response, recentDaily: Response)

  /** What a notification reports; its text rendering is not modelled. */
  datatype Content =
    | HistoricInserted(coinName: string)
    | DailyResume(open: real, close: real, change: real)
    | HourlyChange(open: real, close: real, change: real)

  /** The arguments of one call to the webhook sender. */
  datatype Notification = Notification(
    webhook: string, content: Content, username: string, kind: string,
    embed: bool, color: string, hour: int, daily: bool)

  /** The instants a run reads from the clock, and the timezone conversions it applies.
      - now: the current Unix time (first cursor of the backfill)
      - todayStart: midnight of the current day as the server reads it
      - prevDayStart: midnight of the previous UTC day
      - previousDate: the server's local midnight one calendar day before todayStart,
        which is 23 or 25 hours before it across a clock change
      - limitHour: start of the current hour (hourly points must lie before it)
      - dayStamp: an upstream time re-read as server wall-clock time, as rows are stamped
      - hourOf: the Europe/London hour of day of a Unix time
      - hourAfter: the Unix time at which the hour after local hour h of today starts */
  datatype Clock = Clock(
    now: int, todayStart: int, prevDayStart: int, previousDate: int, limitHour: int,
    dayStamp: int -> int, hourOf: int -> int, hourAfter: int -> int)

  /** The clock's conversions by name. Quantified contracts over times and hours trigger
      on these function terms. */
  function DayStamp(clock: Clock, t: int): int { clock.dayStamp(t) }
  function HourOf(clock: Clock, t: int): int { clock.hourOf(t) }
  function HourAfter(clock: Clock, h: int): int { clock.hourAfter(h) }

  /** A tracked coin; only the sync engine changes its two sync fields. */
  class Coin {
    const id: int
    const symbol: string
    const name: string
    const contentCreated: int
    const webhook: string
    var lastTimeTracked: int
    var historyCheck: Option<bool>

    /** Onboarding: a new coin starts tracking at its listing date, with the flag at its column default. */
    constructor (id: int, symbol: string, name: string, contentCreated: int, webhook: string)
      ensures this.id == id && this.symbol == symbol && this.name == name
      ensures this.contentCreated == contentCreated && this.webhook == webhook
      ensures lastTimeTracked == contentCreated && historyCheck == Some(false)
    {
      this.id := id;
      this.symbol := symbol;
      this.name := name;
      this.contentCreated := contentCreated;
      this.webhook := webhook;
      lastTimeTracked := contentCreated;
      historyCheck := Some(false);
    }
  }

  /** One daily row of a coin, with its embedded hourly ledger. Rows are values held by
      the store; an update in place replaces the row at its position. */
  datatype DailyCandle = DailyCandle(coinId: int, timestamp: int, ohlc: Ohlc, hourly: seq<HourEntry>)

  /** The committed daily rows, in insertion order, and the notifications sent so far. */
  class Store {
    var rows: seq<DailyCandle>
    var outbox: seq<Notification>

    constructor ()
      ensures rows == [] && outbox == []
    {
      rows := [];
      outbox := [];
    }
  }

  /** The timestamps of the coin's rows, in insertion order. */
  function TimesOf(rows: seq<DailyCandle>, coinId: int): (ts: seq<int>)
    ensures |ts| <= |rows|
    ensures forall t :: t in ts <==>
      exists i :: 0 <= i < |rows| && rows[i].coinId == coinId && rows[i].timestamp == t
  {
    if rows == [] then []
    else
      var init, r := rows[..|rows| - 1], rows[|rows| - 1];
      assert forall i :: 0 <= i < |init| ==> init[i] == rows[i];
      TimesOf(init, coinId) + (if r.coinId == coinId then [r.timestamp] else [])
  }

  /** The number of rows the coin has (the store's count query). */
  function CountFor(rows: seq<DailyCandle>, coinId: int): nat
  {
    |TimesOf(rows, coinId)|
  }

  lemma {:induction false} TimesOfAppend(rows: seq<DailyCandle>, extra: seq<DailyCandle>, coinId: int)
    ensures TimesOf(rows + extra, coinId) == TimesOf(rows, coinId) + TimesOf(extra, coinId)
    decreases |extra|
  {
    if extra == [] {
      assert rows + extra == rows;
    } else {
      var init := extra[..|extra| - 1];
      assert (rows + extra)[..|rows + extra| - 1] == rows + init;
      TimesOfAppend(rows, init, coinId);
    }
  }

  /** Rows belonging to other coins leave a coin's timestamps alone. */
  lemma {:induction false} TimesOfOthers(extra: seq<DailyCandle>, coinId: int)
    requires forall i :: 0 <= i < |extra| ==> extra[i].coinId != coinId
    ensures TimesOf(extra, coinId) == []
    decreases |extra|
  {
    if extra != [] {
      TimesOfOthers(extra[..|extra| - 1], coinId);
    }
  }

  /** Rows that all belong to the coin all count for it. */
  lemma {:induction false} CountOwn(extra: seq<DailyCandle>, coinId: int)
    requires forall i :: 0 <= i < |extra| ==> extra[i].coinId == coinId
    ensures CountFor(extra, coinId) == |extra|
    decreases |extra|
  {
    if extra != [] {
      CountOwn(extra[..|extra| - 1], coinId);
    }
  }

  /** Replacing a row by one with the same coin and stamp leaves every coin's timestamps alone. */
  lemma {:induction false} TimesOfReplace(rows: seq<DailyCandle>, i: nat, r: DailyCandle, coinId: int)
    requires i < |rows| && r.coinId == rows[i].coinId && r.timestamp == rows[i].timestamp
    ensures TimesOf(rows[i := r], coinId) == TimesOf(rows, coinId)
    decreases |rows|
  {
    var rows' := rows[i := r];
    var n := |rows| - 1;
    assert rows'[..n] == if i < n then rows[..n][i := r] else rows[..n];
    if i < n {
      TimesOfReplace(rows[..n], i, r, coinId);
    }
  }

  lemma AppendAssoc<T>(a: seq<T>, b: seq<T>, c: seq<T>)
    ensures (a + b) + c == a + (b + c)
  {
  }

  /** The largest of a non-empty sequence of integers (Python's max). */
  function Largest(s: seq<int>): (m: int)
    requires |s| > 0
    ensures m in s
    ensures forall i :: 0 <= i < |s| ==> s[i] <= m
  {
    if |s| == 1 then s[0]
    else
      var m' := Largest(s[..|s| - 1]);
      assert forall i :: 0 <= i < |s| - 1 ==> s[..|s| - 1][i] == s[i];
      if s[|s| - 1] > m' then s[|s| - 1] else m'
  }
}
