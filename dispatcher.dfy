/** The scheduled pass over all tracked coins: each coin gets the full backfill when it
    has no rows, is not yet marked as backfilled, or its newest row is older than the
    previous day; otherwise it gets the hourly top-up. */
module Dispatcher {
  import opened Candles
  import opened DaySpan
  import opened HourlyTopUp
  import opened HistoricSync

  /** The sync mode chosen for a coin. */
  datatype Mode = Daily | Hourly

  /** The backfill test, on the coin's row timestamps (the newest one is the row the pass
      loads) and its backfill flag. A flag that is unset (null) does not ask for a backfill. */
  predicate NeedsBackfill(times: seq<int>, historyCheck: Option<bool>, previousDate: int)
  {
    times == [] || historyCheck == Some(false) || Largest(times) < previousDate
  }

  function ModeFor(times: seq<int>, historyCheck: Option<bool>, previousDate: int): Mode
  {
    if NeedsBackfill(times, historyCheck, previousDate) then Daily else Hourly
  }

  /** The test read without the newest row: a backfill is due, and the daily mode chosen,
      exactly when there are no rows, the flag is false, or every row is older than the
      previous day. */
  lemma NeedsBackfillIff(times: seq<int>, historyCheck: Option<bool>, previousDate: int)
    ensures NeedsBackfill(times, historyCheck, previousDate) <==>
      times == [] || historyCheck == Some(false) || forall t :: t in times ==> t < previousDate
    ensures ModeFor(times, historyCheck, previousDate) == Daily <==>
      times == [] || historyCheck == Some(false) || forall t :: t in times ==> t < previousDate
  {
    if times != [] && (forall t :: t in times ==> t < previousDate) {
      assert Largest(times) in times;
    }
  }

  /** A coin with a recent row is topped up hourly whether its flag is true or null. */
  lemma RecentRowGoesHourly(times: seq<int>, previousDate: int)
    requires times != [] && exists t :: t in times && t >= previousDate
    ensures ModeFor(times, Some(true), previousDate) == Hourly
    ensures ModeFor(times, None, previousDate) == Hourly
  {
    var t :| t in times && t >= previousDate;
    var k :| 0 <= k < |times| && times[k] == t;
    assert times[k] <= Largest(times);
  }

  /** The upstream answers the pass hands to the coin with this id; `feed` stands for the
      API calls of every coin in the pass. */
  function FeedFor(feed: int -> Upstream, coinId: int): Upstream
  {
    feed(coinId)
  }

  /** The fields of the coins, in query order, as the pass finds them. */
  function Snaps(coins: seq<Coin>): (ss: seq<Snapshot>)
    reads coins
    ensures |ss| == |coins|
    ensures forall k :: 0 <= k < |coins| ==> ss[k] == Snap(coins[k])
  {
    if coins == [] then [] else Snaps(coins[..|coins| - 1]) + [Snap(coins[|coins| - 1])]
  }

  /** The rows and notifications the pass leaves behind: the coins are synced one after
      the other, each in the mode decided on the rows the coins before it left. A coin
      outside the pass keeps its timestamps. */
  function Pass(rows: seq<DailyCandle>, coins: seq<Snapshot>, feed: int -> Upstream, clock: Clock): (out: Outcome)
    ensures forall id :: (forall k :: 0 <= k < |coins| ==> coins[k].id != id) ==>
      TimesOf(out.rows, id) == TimesOf(rows, id)
  {
    if coins == [] then Outcome(rows, [])
    else
      var init, c := coins[..|coins| - 1], coins[|coins| - 1];
      var before := Pass(rows, init, feed, clock);
      var mode := ModeFor(TimesOf(before.rows, c.id), c.historyCheck, clock.previousDate);
      var out := SyncEffect(before.rows, c, mode == Hourly, FeedFor(feed, c.id), clock);
      Outcome(out.rows, before.notes + out.notes)
  }

  /** The pass over one more coin is the pass so far followed by that coin's sync. */
  lemma PassSnoc(rows: seq<DailyCandle>, coins: seq<Snapshot>, i: nat, feed: int -> Upstream, clock: Clock)
    requires i < |coins|
    ensures var before, c := Pass(rows, coins[..i], feed, clock), coins[i];
      var out := SyncEffect(before.rows, c,
                            ModeFor(TimesOf(before.rows, c.id), c.historyCheck, clock.previousDate) == Hourly,
                            FeedFor(feed, c.id), clock);
      Pass(rows, coins[..i + 1], feed, clock) == Outcome(out.rows, before.notes + out.notes)
  {
    assert coins[..i + 1][..i] == coins[..i];
  }

  /** The fields a dispatched coin ends with: marked as backfilled up to today after a
      backfill, as the pass found them after a top-up. */
  predicate Settled(coin: Coin, found: Snapshot, mode: Mode, clock: Clock)
    reads coin
  {
    if mode == Daily then coin.historyCheck == Some(true) && coin.lastTimeTracked == clock.todayStart
    else coin.historyCheck == found.historyCheck && coin.lastTimeTracked == found.lastTimeTracked
  }

  /** The pass's work on one coin: decide the mode on the coin's rows and flag, then sync. */
  method DispatchCoin(store: Store, coin: Coin, feed: int -> Upstream, clock: Clock, previousDate: int)
    returns (mode: Mode)
    modifies store, coin
    ensures mode == ModeFor(old(TimesOf(store.rows, coin.id)), old(coin.historyCheck), previousDate)
    ensures var out := SyncEffect(old(store.rows), old(Snap(coin)), mode == Hourly, FeedFor(feed, coin.id), clock);
      store.rows == out.rows && store.outbox == old(store.outbox) + out.notes
    ensures mode == Daily ==> coin.historyCheck == Some(true) && coin.lastTimeTracked == clock.todayStart
    ensures mode == Hourly ==>
      coin.historyCheck == old(coin.historyCheck) && coin.lastTimeTracked == old(coin.lastTimeTracked)
    ensures forall id :: id != coin.id ==> TimesOf(store.rows, id) == old(TimesOf(store.rows, id))
  {
    var times := TimesOf(store.rows, coin.id);
    mode := ModeFor(times, coin.historyCheck, previousDate);
    SyncCoin(store, coin, mode == Hourly, FeedFor(feed, coin.id), clock);
  }

  /** The pass over the coins, in query order. Every coin is synced exactly once, in
      order: the rows and notifications end as `Pass` prescribes. Each coin's mode is
      decided on the store as the pass found it (no other coin's sync touches its rows or
      its flag), and every coin sent to the backfill ends marked as backfilled up to today. */
  method ProcessAllCryptos(store: Store, coins: seq<Coin>, feed: int -> Upstream, clock: Clock)
    returns (log: seq<Mode>)
    requires forall i, j :: 0 <= i < j < |coins| ==> coins[i].id != coins[j].id
    modifies store, coins
    ensures var out := Pass(old(store.rows), old(Snaps(coins)), feed, clock);
      store.rows == out.rows && store.outbox == old(store.outbox) + out.notes
    ensures |log| == |coins|
    ensures forall i :: 0 <= i < |coins| ==>
      log[i] == ModeFor(old(TimesOf(store.rows, coins[i].id)), old(coins[i].historyCheck), clock.previousDate)
    ensures forall i :: 0 <= i < |coins| && log[i] == Daily ==>
      coins[i].historyCheck == Some(true) && coins[i].lastTimeTracked == clock.todayStart
    ensures forall i :: 0 <= i < |coins| && log[i] == Hourly ==>
      coins[i].historyCheck == old(coins[i].historyCheck) && coins[i].lastTimeTracked == old(coins[i].lastTimeTracked)
  {
    ghost var snaps0 := Snaps(coins);
    log := RunPass(store, coins, feed, clock, snaps0);
    assert snaps0[..|coins|] == snaps0;
  }

  /** The mode the pass decides for a coin, on the rows and flag as the pass found them. */
  predicate Decided(mode: Mode, rows0: seq<DailyCandle>, c: Snapshot, clock: Clock)
  {
    mode == ModeFor(TimesOf(rows0, c.id), c.historyCheck, clock.previousDate)
  }

  /** The state of the pass after its first `i` coins: their modes are logged as decided
      on the store the pass found, they are settled, the coins after them are untouched,
      and the rows and notifications are those of `Pass` over the first `i` coins. */
  predicate PassedUpTo(store: Store, coins: seq<Coin>, i: nat, log: seq<Mode>, feed: int -> Upstream, clock: Clock,
                       rows0: seq<DailyCandle>, snaps0: seq<Snapshot>, outbox0: seq<Notification>)
    reads store, coins
  {
    i <= |coins| == |snaps0| && |log| == i &&
    (forall k :: 0 <= k < i ==> Decided(log[k], rows0, snaps0[k], clock) && Settled(coins[k], snaps0[k], log[k], clock)) &&
    (forall k :: i <= k < |coins| ==> Snap(coins[k]) == snaps0[k]) &&
    store.rows == Pass(rows0, snaps0[..i], feed, clock).rows &&
    store.outbox == outbox0 + Pass(rows0, snaps0[..i], feed, clock).notes
  }

  /** The loop of the pass, stated against the coins' fields as the pass found them. */
  method RunPass(store: Store, coins: seq<Coin>, feed: int -> Upstream, clock: Clock, ghost snaps0: seq<Snapshot>)
    returns (log: seq<Mode>)
    requires |coins| == |snaps0|
    requires forall j, k :: 0 <= j < k < |snaps0| ==> snaps0[j].id != snaps0[k].id
    requires forall k :: 0 <= k < |coins| ==> Snap(coins[k]) == snaps0[k]
    modifies store, coins
    ensures PassedUpTo(store, coins, |coins|, log, feed, clock, old(store.rows), snaps0, old(store.outbox))
  {
    ghost var rows0 := store.rows;
    log := [];
    var i := 0;
    while i < |coins|
      invariant PassedUpTo(store, coins, i, log, feed, clock, rows0, snaps0, old(store.outbox))
    {
      var mode := DispatchStep(store, coins, i, feed, clock, rows0, snaps0, old(store.outbox));
      log := log + [mode];
      i := i + 1;
    }
  }

  /** One turn of the pass: dispatches the coin at `i`, whose fields and timestamps are
      still as the pass found them, and extends the pass's outcome by its sync. */
  method DispatchStep(store: Store, coins: seq<Coin>, i: nat, feed: int -> Upstream, clock: Clock,
                      ghost rows0: seq<DailyCandle>, ghost snaps0: seq<Snapshot>, ghost outbox0: seq<Notification>)
    returns (mode: Mode)
    requires i < |coins| == |snaps0|
    requires forall j, k :: 0 <= j < k < |snaps0| ==> snaps0[j].id != snaps0[k].id
    requires forall k :: 0 <= k < |coins| ==> coins[k].id == snaps0[k].id
    requires store.rows == Pass(rows0, snaps0[..i], feed, clock).rows
    requires store.outbox == outbox0 + Pass(rows0, snaps0[..i], feed, clock).notes
    requires Snap(coins[i]) == snaps0[i]
    modifies store, coins[i]
    ensures Decided(mode, rows0, snaps0[i], clock)
    ensures store.rows == Pass(rows0, snaps0[..i + 1], feed, clock).rows
    ensures store.outbox == outbox0 + Pass(rows0, snaps0[..i + 1], feed, clock).notes
    ensures Settled(coins[i], snaps0[i], mode, clock)
    ensures forall k :: 0 <= k < |coins| && k != i ==> Snap(coins[k]) == old(Snap(coins[k]))
  {
    assert forall k :: 0 <= k < |coins| && k != i ==> coins[k] != coins[i];
    var previousDate := clock.previousDate;
    assert forall k :: 0 <= k < i ==> snaps0[..i][k].id != coins[i].id;
    PassSnoc(rows0, snaps0, i, feed, clock);
    ghost var before := Pass(rows0, snaps0[..i], feed, clock);
    ghost var c := snaps0[i];
    ghost var out := SyncEffect(before.rows, c, ModeFor(TimesOf(before.rows, c.id), c.historyCheck, previousDate) == Hourly,
                                FeedFor(feed, c.id), clock);
    AppendAssoc(outbox0, before.notes, out.notes);
    mode := DispatchCoin(store, coins[i], feed, clock, previousDate);
  }
}
