/** The hourly top-up of today's row: load today's row of the coin (or start an all-zero
    placeholder), accept the hourly points after the last saved hour and before the
    current hour, append them to the row's hourly ledger, and report the last one. An
    accepted point at local hour 23 also copies the previous day's daily candle onto the
    row and reports it as the daily resume. */
module HourlyTopUp {
  import opened Candles
  import opened TimeOrder

  /** The percentage change of a candle, or 0 for a candle that opened at 0. */
  function PercentChange(o: Ohlc): (pct: real)
    ensures o.open != 0.0 ==> pct * o.open == (o.close - o.open) * 100.0
    ensures o.open == 0.0 ==> pct == 0.0
  {
    if o.open != 0.0 then (o.close - o.open) / o.open * 100.0 else 0.0
  }

  /** The embed colour of a candle: red when it fell, green when it rose, yellow when flat. */
  function Colour(o: Ohlc): string
  {
    if o.open > o.close then "red" else if o.open < o.close then "green" else "yellow"
  }

  /** For a candle that opened above zero, the colour agrees with the sign of the change. */
  lemma ColourFollowsChange(o: Ohlc)
    requires o.open > 0.0
    ensures Colour(o) == "red" <==> PercentChange(o) < 0.0
    ensures Colour(o) == "green" <==> PercentChange(o) > 0.0
    ensures Colour(o) == "yellow" <==> PercentChange(o) == 0.0
  {
    var pct := PercentChange(o);
    assert pct * o.open == (o.close - o.open) * 100.0;
    if pct < 0.0 {
      assert pct * o.open < 0.0;
    } else if pct > 0.0 {
      assert pct * o.open > 0.0;
    }
  }

  /** A rise from 100 to 110 is a 10 percent change, shown green. */
  lemma TenPercentRise()
    ensures PercentChange(Ohlc(120.0, 90.0, 100.0, 110.0)) == 10.0
    ensures Colour(Ohlc(120.0, 90.0, 100.0, 110.0)) == "green"
  {
  }

  /** The daily resume sent when the previous day's candle is copied onto today's row. */
  function ResumeNote(webhook: string, name: string, o: Ohlc): Notification
  {
    Notification(webhook, DailyResume(o.open, o.close, PercentChange(o)), name, "historic", true, Colour(o), 0, true)
  }

  /** The hourly update sent for the last accepted entry. */
  function HourlyNote(webhook: string, name: string, o: Ohlc, hour: int): Notification
  {
    Notification(webhook, HourlyChange(o.open, o.close, PercentChange(o)), name, "historic", true, Colour(o), hour, false)
  }

  // ---------------------------------------------------------------------------------
  // The previous-day resume (the hour-23 branch)

  /** The points of the short daily page stamped at the previous day's start, in page
      order: exactly the daily points with that time. */
  function Matches(data: seq<Point>, prevDayStart: int): (ms: seq<Point>)
    ensures |ms| <= |data|
    ensures forall x :: x in ms <==> x in data && x.time == prevDayStart
  {
    if data == [] then []
    else
      var init, d := data[..|data| - 1], data[|data| - 1];
      assert data == init + [d];
      Matches(init, prevDayStart) + (if d.time == prevDayStart then [d] else [])
  }

  /** The candle of today's row after the resume: the last matching daily point wins. */
  function ResumedOhlc(data: seq<Point>, prevDayStart: int, ohlc: Ohlc): Ohlc
  {
    var ms := Matches(data, prevDayStart);
    if ms == [] then ohlc else ms[|ms| - 1].ohlc
  }

  /** One daily resume per matching daily point. */
  function ResumeNotes(webhook: string, name: string, ms: seq<Point>): (ns: seq<Notification>)
    ensures |ns| == |ms|
    ensures forall k :: 0 <= k < |ms| ==> ns[k] == ResumeNote(webhook, name, ms[k].ohlc)
  {
    if ms == [] then []
    else ResumeNotes(webhook, name, ms[..|ms| - 1]) + [ResumeNote(webhook, name, ms[|ms| - 1].ohlc)]
  }

  /** The resume keeps the candle when no daily point is stamped at the previous day's
      start. */
  lemma ResumedWithoutMatch(data: seq<Point>, prevDayStart: int, ohlc: Ohlc)
    requires forall k :: 0 <= k < |data| ==> data[k].time != prevDayStart
    ensures ResumedOhlc(data, prevDayStart, ohlc) == ohlc
  {
  }

  /** Otherwise the resume takes the candle of the last daily point that is. */
  lemma {:induction false} ResumedLastMatch(data: seq<Point>, prevDayStart: int, ohlc: Ohlc, k: nat)
    requires k < |data| && data[k].time == prevDayStart
    requires forall j :: k < j < |data| ==> data[j].time != prevDayStart
    ensures ResumedOhlc(data, prevDayStart, ohlc) == data[k].ohlc
    decreases |data|
  {
    var init, d := data[..|data| - 1], data[|data| - 1];
    assert data == init + [d];
    if k < |data| - 1 {
      assert d.time != prevDayStart;
      assert init[k] == data[k];
      assert forall j :: k < j < |init| ==> init[j] == data[j];
      ResumedLastMatch(init, prevDayStart, ohlc, k);
    }
  }

  /** Applying the resume twice is applying it once. */
  lemma ResumedTwice(data: seq<Point>, prevDayStart: int, ohlc: Ohlc)
    ensures ResumedOhlc(data, prevDayStart, ResumedOhlc(data, prevDayStart, ohlc))
         == ResumedOhlc(data, prevDayStart, ohlc)
  {
  }

  /** The resume loop: every daily point stamped at the previous day's start overwrites the
      row's candle and sends a daily resume coloured by that candle. */
  method ApplyDailyResume(store: Store, coin: Coin, data: seq<Point>, prevDayStart: int, ohlc: Ohlc)
    returns (result: Ohlc)
    modifies store
    ensures result == ResumedOhlc(data, prevDayStart, ohlc)
    ensures store.rows == old(store.rows)
    ensures store.outbox == old(store.outbox) + ResumeNotes(coin.webhook, coin.name, Matches(data, prevDayStart))
  {
    result := ohlc;
    for j := 0 to |data|
      invariant result == ResumedOhlc(data[..j], prevDayStart, ohlc)
      invariant store.rows == old(store.rows)
      invariant store.outbox
        == old(store.outbox) + ResumeNotes(coin.webhook, coin.name, Matches(data[..j], prevDayStart))
    {
      assert data[..j + 1][..j] == data[..j];
      if data[j].time == prevDayStart {
        var ms := Matches(data[..j], prevDayStart);
        assert (ms + [data[j]])[..|ms|] == ms;
        result := data[j].ohlc;
        AppendAssoc(old(store.outbox), ResumeNotes(coin.webhook, coin.name, ms),
                    [ResumeNote(coin.webhook, coin.name, result)]);
        store.outbox := store.outbox + [ResumeNote(coin.webhook, coin.name, result)];
      }
    }
    assert data[..|data|] == data;
  }

  /** Every daily resume sent during a scan is an hour-0 daily embed of kind "historic". */
  lemma {:induction false} ResumesShape(acc: seq<Point>, clock: Clock, daily: Response, prevDayStart: int,
                                        webhook: string, name: string)
    ensures forall n :: n in ResumesDuring(acc, clock, daily, prevDayStart, webhook, name) ==>
      n.kind == "historic" && n.embed && n.daily && n.hour == 0 &&
      n.color in {"red", "green", "yellow"} && n.username == name && n.webhook == webhook
    decreases |acc|
  {
    if acc != [] {
      ResumesShape(acc[..|acc| - 1], clock, daily, prevDayStart, webhook, name);
      var ns := ResumesFor(acc[|acc| - 1], clock, daily, prevDayStart, webhook, name);
      forall n | n in ns
        ensures n.kind == "historic" && n.embed && n.daily && n.hour == 0 && n.color in {"red", "green", "yellow"}
      {
        var k :| 0 <= k < |ns| && ns[k] == n;
      }
    }
  }

  // ---------------------------------------------------------------------------------
  // Which hourly points are accepted

  /** The hours held by a ledger, in ledger order. */
  function Hours(ledger: seq<HourEntry>): (hs: seq<int>)
    ensures |hs| == |ledger|
    ensures forall k :: 0 <= k < |ledger| ==> hs[k] == ledger[k].hour
  {
    if ledger == [] then []
    else Hours(ledger[..|ledger| - 1]) + [ledger[|ledger| - 1].hour]
  }

  /** The last saved hour: the largest hour of the ledger, none for an empty ledger. */
  function LastHour(ledger: seq<HourEntry>): (h: Option<int>)
    ensures h.None? <==> ledger == []
    ensures h.Some? ==> exists k :: 0 <= k < |ledger| && ledger[k].hour == h.value
    ensures h.Some? ==> forall k :: 0 <= k < |ledger| ==> ledger[k].hour <= h.value
  {
    if ledger == [] then None
    else
      var hs := Hours(ledger);
      var m := Largest(hs);
      assert m in hs;
      Some(m)
  }

  /** The acceptance window: accepted points lie in [startFrom, limitHour) and do not fall
      in the last saved hour. */
  datatype Window = Window(startFrom: int, limitHour: int, lastHour: Option<int>)

  /** The window a ledger opens: from the hour after its last hour, or from today's start. */
  function WindowFor(ledger: seq<HourEntry>, clock: Clock): (w: Window)
    ensures w.limitHour == clock.limitHour
    ensures ledger == [] ==> w.startFrom == clock.todayStart && w.lastHour.None?
    ensures ledger != [] ==>
      (w.lastHour.Some? && w.startFrom == HourAfter(clock, w.lastHour.value) &&
       (exists k :: 0 <= k < |ledger| && ledger[k].hour == w.lastHour.value) &&
       forall k :: 0 <= k < |ledger| ==> ledger[k].hour <= w.lastHour.value)
  {
    var last := LastHour(ledger);
    Window(if last.Some? then HourAfter(clock, last.value) else clock.todayStart, clock.limitHour, last)
  }

  predicate Accepts(p: Point, w: Window, clock: Clock)
  {
    w.startFrom <= p.time < w.limitHour && (w.lastHour.None? || HourOf(clock, p.time) != w.lastHour.value)
  }

  /** The accepted points, in the order scanned: exactly the points inside the window. */
  function Accepted(ps: seq<Point>, w: Window, clock: Clock): (acc: seq<Point>)
    ensures |acc| <= |ps|
    ensures forall x :: x in acc <==> x in ps && Accepts(x, w, clock)
  {
    if ps == [] then []
    else
      var init, p := ps[..|ps| - 1], ps[|ps| - 1];
      assert ps == init + [p];
      Accepted(init, w, clock) + (if Accepts(p, w, clock) then [p] else [])
  }

  /** Scanning points oldest first yields the accepted points oldest first. */
  lemma {:induction false} AcceptedOrdered(ps: seq<Point>, w: Window, clock: Clock)
    requires Ordered(ps, false)
    ensures Ordered(Accepted(ps, w, clock), false)
    decreases |ps|
  {
    if ps != [] {
      var init, p := ps[..|ps| - 1], ps[|ps| - 1];
      AcceptedOrdered(init, w, clock);
      var acc := Accepted(init, w, clock);
      forall x | x in acc ensures InOrder(x, p, false) {
        var k :| 0 <= k < |init| && init[k] == x;
        assert ps[k] == x;
      }
    }
  }

  /** The ledger entry an accepted point becomes. At local hour 23 a successful daily
      page that is not empty lends its last candle to the entry, because the resume loop
      reuses the name of the point being scanned. */
  function EntryOf(p: Point, clock: Clock, daily: Response): (e: HourEntry)
    ensures e.hour == HourOf(clock, p.time)
    ensures e.hour != 23 || daily.Failure? || daily.points == [] ==> e.ohlc == p.ohlc
    ensures e.hour == 23 && daily.Success? && daily.points != [] ==>
      e.ohlc == daily.points[|daily.points| - 1].ohlc
  {
    var h := HourOf(clock, p.time);
    if h == 23 && daily.Success? && daily.points != [] then HourEntry(h, daily.points[|daily.points| - 1].ohlc)
    else HourEntry(h, p.ohlc)
  }

  function EntriesOf(acc: seq<Point>, clock: Clock, daily: Response): (es: seq<HourEntry>)
    ensures |es| == |acc|
    ensures forall k :: 0 <= k < |acc| ==> es[k] == EntryOf(acc[k], clock, daily)
  {
    if acc == [] then []
    else EntriesOf(acc[..|acc| - 1], clock, daily) + [EntryOf(acc[|acc| - 1], clock, daily)]
  }

  /** Some accepted point falls at local hour 23. */
  predicate AnyAtHour23(acc: seq<Point>, clock: Clock)
  {
    exists k :: 0 <= k < |acc| && HourOf(clock, acc[k].time) == 23
  }

  /** The row's candle after the scan: resumed from the daily page when some accepted
      point fell at hour 23 and the daily page was fetched. */
  function OhlcAfter(acc: seq<Point>, clock: Clock, daily: Response, prevDayStart: int, ohlc: Ohlc): (r: Ohlc)
    ensures (forall k :: 0 <= k < |acc| ==> HourOf(clock, acc[k].time) != 23) ==> r == ohlc
    ensures daily.Failure? ==> r == ohlc
    ensures daily.Success? && AnyAtHour23(acc, clock) ==> r == ResumedOhlc(daily.points, prevDayStart, ohlc)
  {
    if daily.Success? && AnyAtHour23(acc, clock) then ResumedOhlc(daily.points, prevDayStart, ohlc) else ohlc
  }

  /** The daily resumes one accepted point sends: a round for a point at hour 23 when the
      daily page was fetched, none otherwise. */
  function ResumesFor(p: Point, clock: Clock, daily: Response, prevDayStart: int,
                      webhook: string, name: string): seq<Notification>
  {
    if HourOf(clock, p.time) == 23 && daily.Success?
    then ResumeNotes(webhook, name, Matches(daily.points, prevDayStart)) else []
  }

  /** The daily resumes sent during the scan, in scan order. */
  function ResumesDuring(acc: seq<Point>, clock: Clock, daily: Response, prevDayStart: int,
                         webhook: string, name: string): seq<Notification>
  {
    if acc == [] then []
    else
      ResumesDuring(acc[..|acc| - 1], clock, daily, prevDayStart, webhook, name) +
      ResumesFor(acc[|acc| - 1], clock, daily, prevDayStart, webhook, name)
  }

  // ---------------------------------------------------------------------------------
  // Today's row

  /** The first row of the coin stamped `ts`, in store order (the query's `.first()`). */
  function FirstRow(rows: seq<DailyCandle>, coinId: int, ts: int): (i: Option<nat>)
    ensures i.Some? ==> i.value < |rows| && rows[i.value].coinId == coinId && rows[i.value].timestamp == ts
    ensures i.Some? ==> forall j :: 0 <= j < i.value ==> !(rows[j].coinId == coinId && rows[j].timestamp == ts)
    ensures i.None? ==> forall j :: 0 <= j < |rows| ==> !(rows[j].coinId == coinId && rows[j].timestamp == ts)
  {
    if rows == [] then None
    else if rows[0].coinId == coinId && rows[0].timestamp == ts then Some(0)
    else
      match FirstRow(rows[1..], coinId, ts)
      case Some(k) => Some(k + 1)
      case None => None
  }

  /** The all-zero row the top-up starts when today has no row with hours yet. */
  function Placeholder(coinId: int, clock: Clock): DailyCandle
  {
    DailyCandle(coinId, clock.todayStart, Blank, [])
  }

  /** The row being topped up and where it lives: an existing row with hours, or a fresh
      placeholder that is not stored yet. */
  datatype Base = Base(at: Option<nat>, row: DailyCandle)

  function BaseFor(rows: seq<DailyCandle>, coinId: int, clock: Clock): (b: Base)
    ensures b.at.Some? ==> b.at.value < |rows| && rows[b.at.value] == b.row && b.row.hourly != []
    ensures b.at.Some? <==>
      (FirstRow(rows, coinId, clock.todayStart).Some? &&
       rows[FirstRow(rows, coinId, clock.todayStart).value].hourly != [])
    ensures b.at.None? ==> b.row == Placeholder(coinId, clock)
    ensures b.row.coinId == coinId && b.row.timestamp == clock.todayStart
  {
    match FirstRow(rows, coinId, clock.todayStart)
    case Some(i) => if rows[i].hourly != [] then Base(Some(i), rows[i]) else Base(None, Placeholder(coinId, clock))
    case None => Base(None, Placeholder(coinId, clock))
  }

  /** What a top-up leaves behind: the rows and the notifications it sent. */
  datatype Outcome = Outcome(rows: seq<DailyCandle>, notes: seq<Notification>)

  /** The hour the hourly update names: the last accepted entry's hour for a red or green
      update, but the hour of the last point scanned for a yellow one. */
  function NoteHour(last: HourEntry, sorted: seq<Point>, clock: Clock): (h: int)
    requires |sorted| > 0
    ensures last.ohlc.open != last.ohlc.close ==> h == last.hour
    ensures last.ohlc.open == last.ohlc.close ==> h == HourOf(clock, sorted[|sorted| - 1].time)
  {
    if Colour(last.ohlc) == "yellow" then HourOf(clock, sorted[|sorted| - 1].time) else last.hour
  }

  /** One hourly top-up of the coin, as a function of the rows before it. */
  function TopUp(rows: seq<DailyCandle>, coinId: int, webhook: string, name: string,
                 up: Upstream, clock: Clock): Outcome
  {
    if up.hourly.Failure? then Outcome(rows, [])
    else
      var base := BaseFor(rows, coinId, clock);
      var sorted := SortByTime(up.hourly.points, false);
      var acc := Accepted(sorted, WindowFor(base.row.hourly, clock), clock);
      if acc == [] then Outcome(rows, [])
      else
        var entries := EntriesOf(acc, clock, up.recentDaily);
        var last := entries[|entries| - 1];
        var row := base.row.(ohlc := OhlcAfter(acc, clock, up.recentDaily, clock.prevDayStart, base.row.ohlc),
                             hourly := base.row.hourly + entries);
        Outcome(if base.at.Some? then rows[base.at.value := row] else rows + [row],
                ResumesDuring(acc, clock, up.recentDaily, clock.prevDayStart, webhook, name) +
                [HourlyNote(webhook, name, last.ohlc, NoteHour(last, sorted, clock))])
  }

  /** The points the scan has accepted after looking at the first `i` points. */
  ghost function AcceptedUpTo(ps: seq<Point>, i: nat, w: Window, clock: Clock): seq<Point>
    requires i <= |ps|
  {
    if i == 0 then [] else AcceptedUpTo(ps, i - 1, w, clock) + (if Accepts(ps[i - 1], w, clock) then [ps[i - 1]] else [])
  }

  /** The scan's accepted points are the prefix's accepted points. */
  lemma {:induction false} AcceptedUpToPrefix(ps: seq<Point>, i: nat, w: Window, clock: Clock)
    requires i <= |ps|
    ensures AcceptedUpTo(ps, i, w, clock) == Accepted(ps[..i], w, clock)
  {
    if i > 0 {
      AcceptedUpToPrefix(ps, i - 1, w, clock);
      assert ps[..i][..i - 1] == ps[..i - 1];
    }
  }

  /** Taking one more point adds its entry and its resumes at the end. */
  lemma TakeSnoc(acc: seq<Point>, p: Point, clock: Clock, daily: Response, prevDayStart: int,
                 webhook: string, name: string)
    ensures EntriesOf(acc + [p], clock, daily) == EntriesOf(acc, clock, daily) + [EntryOf(p, clock, daily)]
    ensures ResumesDuring(acc + [p], clock, daily, prevDayStart, webhook, name) ==
      ResumesDuring(acc, clock, daily, prevDayStart, webhook, name) + ResumesFor(p, clock, daily, prevDayStart, webhook, name)
  {
    assert (acc + [p])[..|acc|] == acc;
  }

  /** Takes one accepted point: at hour 23 with the daily page fetched it runs the resume
      loop, and the point becomes the ledger entry `EntryOf` describes. */
  method TakeAccepted(store: Store, coin: Coin, p: Point, clock: Clock, daily: Response,
                      ghost acc: seq<Point>, ohlc0: Ohlc, ohlc: Ohlc)
    returns (entry: HourEntry, next: Ohlc)
    requires ohlc == OhlcAfter(acc, clock, daily, clock.prevDayStart, ohlc0)
    modifies store
    ensures entry == EntryOf(p, clock, daily)
    ensures next == OhlcAfter(acc + [p], clock, daily, clock.prevDayStart, ohlc0)
    ensures store.rows == old(store.rows)
    ensures store.outbox == old(store.outbox) + ResumesFor(p, clock, daily, clock.prevDayStart, coin.webhook, coin.name)
  {
    var hour := HourOf(clock, p.time);
    var entryOhlc := p.ohlc;
    next := ohlc;
    if hour == 23 {
      if daily.Success? {
        var data := daily.points;
        ResumedTwice(data, clock.prevDayStart, ohlc0);
        next := ApplyDailyResume(store, coin, data, clock.prevDayStart, ohlc);
        if data != [] {
          entryOhlc := data[|data| - 1].ohlc;
        }
      }
      assert (acc + [p])[|acc|] == p;
    } else {
      assert AnyAtHour23(acc + [p], clock) <==> AnyAtHour23(acc, clock) by {
        assert forall k :: 0 <= k < |acc| ==> (acc + [p])[k] == acc[k];
      }
    }
    entry := HourEntry(hour, entryOhlc);
  }

  /** One step of the scan: the point is taken when the window accepts it. `acc` holds the
      points taken so far and `before` the notifications sent before the scan. */
  method ScanStep(store: Store, coin: Coin, p: Point, w: Window, clock: Clock, daily: Response, ohlc0: Ohlc,
                  ghost acc: seq<Point>, ghost before: seq<Notification>,
                  entries: seq<HourEntry>, ohlc: Ohlc, lastEntryHour: int)
    returns (entries': seq<HourEntry>, ohlc': Ohlc, lastEntryHour': int, ghost acc': seq<Point>)
    requires entries == EntriesOf(acc, clock, daily)
    requires ohlc == OhlcAfter(acc, clock, daily, clock.prevDayStart, ohlc0)
    requires entries != [] ==> lastEntryHour == entries[|entries| - 1].hour
    requires store.outbox == before + ResumesDuring(acc, clock, daily, clock.prevDayStart, coin.webhook, coin.name)
    modifies store
    ensures acc' == acc + (if Accepts(p, w, clock) then [p] else [])
    ensures entries' == EntriesOf(acc', clock, daily)
    ensures ohlc' == OhlcAfter(acc', clock, daily, clock.prevDayStart, ohlc0)
    ensures entries' != [] ==> lastEntryHour' == entries'[|entries'| - 1].hour
    ensures store.rows == old(store.rows)
    ensures store.outbox == before + ResumesDuring(acc', clock, daily, clock.prevDayStart, coin.webhook, coin.name)
  {
    var hour := HourOf(clock, p.time);
    if w.startFrom <= p.time && p.time < w.limitHour && (w.lastHour.None? || hour != w.lastHour.value) {
      TakeSnoc(acc, p, clock, daily, clock.prevDayStart, coin.webhook, coin.name);
      AppendAssoc(before, ResumesDuring(acc, clock, daily, clock.prevDayStart, coin.webhook, coin.name),
                  ResumesFor(p, clock, daily, clock.prevDayStart, coin.webhook, coin.name));
      var entry;
      entry, ohlc' := TakeAccepted(store, coin, p, clock, daily, acc, ohlc0, ohlc);
      entries', lastEntryHour', acc' := entries + [entry], hour, acc + [p];
    } else {
      entries', ohlc', lastEntryHour', acc' := entries, ohlc, lastEntryHour, acc;
      assert acc + [] == acc;
    }
  }

  /** The scan of the sorted hourly page: every accepted point becomes a ledger entry, in
      scan order. */
  method ScanHours(store: Store, coin: Coin, sorted: seq<Point>, w: Window, clock: Clock,
                   daily: Response, ohlc0: Ohlc)
    returns (entries: seq<HourEntry>, ohlc: Ohlc, lastEntryHour: int)
    modifies store
    ensures entries == EntriesOf(Accepted(sorted, w, clock), clock, daily)
    ensures ohlc == OhlcAfter(Accepted(sorted, w, clock), clock, daily, clock.prevDayStart, ohlc0)
    ensures entries != [] ==> lastEntryHour == entries[|entries| - 1].hour
    ensures store.rows == old(store.rows)
    ensures store.outbox == old(store.outbox) +
      ResumesDuring(Accepted(sorted, w, clock), clock, daily, clock.prevDayStart, coin.webhook, coin.name)
  {
    entries, ohlc, lastEntryHour := [], ohlc0, 0;
    ghost var acc: seq<Point> := [];
    for i := 0 to |sorted|
      invariant acc == AcceptedUpTo(sorted, i, w, clock)
      invariant entries == EntriesOf(acc, clock, daily)
      invariant ohlc == OhlcAfter(acc, clock, daily, clock.prevDayStart, ohlc0)
      invariant entries != [] ==> lastEntryHour == entries[|entries| - 1].hour
      invariant store.rows == old(store.rows)
      invariant store.outbox == old(store.outbox) + ResumesDuring(acc, clock, daily, clock.prevDayStart, coin.webhook, coin.name)
    {
      entries, ohlc, lastEntryHour, acc :=
        ScanStep(store, coin, sorted[i], w, clock, daily, ohlc0, acc, old(store.outbox), entries, ohlc, lastEntryHour);
    }
    AcceptedUpToPrefix(sorted, |sorted|, w, clock);
    assert sorted[..|sorted|] == sorted;
  }

  /** What `TopUp` is once the scan has taken some entries: the base row, updated with the
      resumed candle and the extended ledger, goes back to its place or is added at the end,
      and the hourly update follows the resumes. */
  lemma TopUpTaken(rows: seq<DailyCandle>, coinId: int, webhook: string, name: string, up: Upstream,
                   clock: Clock, base: Base, w: Window, sorted: seq<Point>,
                   entries: seq<HourEntry>, ohlc: Ohlc, lastEntryHour: int)
    requires up.hourly.Success?
    requires base == BaseFor(rows, coinId, clock) && w == WindowFor(base.row.hourly, clock)
    requires sorted == SortByTime(up.hourly.points, false)
    requires entries == EntriesOf(Accepted(sorted, w, clock), clock, up.recentDaily) && entries != []
    requires ohlc == OhlcAfter(Accepted(sorted, w, clock), clock, up.recentDaily, clock.prevDayStart, base.row.ohlc)
    requires lastEntryHour == entries[|entries| - 1].hour
    ensures var last := entries[|entries| - 1];
      var row := base.row.(ohlc := ohlc, hourly := base.row.hourly + entries);
      var hour := if last.ohlc.open > last.ohlc.close || last.ohlc.open < last.ohlc.close
                  then lastEntryHour else HourOf(clock, sorted[|sorted| - 1].time);
      TopUp(rows, coinId, webhook, name, up, clock)
        == Outcome(if base.at.Some? then rows[base.at.value := row] else rows + [row],
                   ResumesDuring(Accepted(sorted, w, clock), clock, up.recentDaily, clock.prevDayStart, webhook, name) +
                   [HourlyNote(webhook, name, last.ohlc, hour)])
  {
    var acc := Accepted(sorted, w, clock);
    var last := entries[|entries| - 1];
    assert |sorted| >= |acc| > 0;
    assert NoteHour(last, sorted, clock) == if last.ohlc.open > last.ohlc.close || last.ohlc.open < last.ohlc.close
                                            then lastEntryHour else HourOf(clock, sorted[|sorted| - 1].time);
  }

  /** A top-up sends a message exactly when it changes the rows, the hourly update comes
      last, and a failed hourly request does neither. */
  lemma TopUpSendsIffChanges(rows: seq<DailyCandle>, coinId: int, webhook: string, name: string,
                             up: Upstream, clock: Clock)
    ensures var out := TopUp(rows, coinId, webhook, name, up, clock);
      (up.hourly.Failure? ==> out == Outcome(rows, [])) &&
      (out.notes == [] <==> out.rows == rows) &&
      (out.notes != [] ==> !out.notes[|out.notes| - 1].daily)
  {
    if up.hourly.Success? {
      var base := BaseFor(rows, coinId, clock);
      var acc := Accepted(SortByTime(up.hourly.points, false), WindowFor(base.row.hourly, clock), clock);
      if acc != [] {
        var entries := EntriesOf(acc, clock, up.recentDaily);
        assert |base.row.hourly + entries| > |base.row.hourly|;
      }
    }
  }

  /** A top-up that takes no entry, or whose hourly request failed, changes nothing. */
  lemma TopUpUntouched(rows: seq<DailyCandle>, coinId: int, webhook: string, name: string, up: Upstream,
                       clock: Clock, base: Base, w: Window, sorted: seq<Point>, entries: seq<HourEntry>)
    requires up.hourly.Success? ==>
      base == BaseFor(rows, coinId, clock) && w == WindowFor(base.row.hourly, clock) &&
      sorted == SortByTime(up.hourly.points, false) &&
      entries == EntriesOf(Accepted(sorted, w, clock), clock, up.recentDaily) && entries == []
    ensures TopUp(rows, coinId, webhook, name, up, clock) == Outcome(rows, [])
  {
  }

  /** The top-up of one coin. The store ends as `TopUp` describes: today's row (the
      existing one or a new placeholder) gains the accepted entries and the notifications
      are sent in scan order, the hourly update last. */
  method FetchPaginatedHistoricHourly(store: Store, coin: Coin, up: Upstream, clock: Clock)
    modifies store
    ensures var out := TopUp(old(store.rows), coin.id, coin.webhook, coin.name, up, clock);
      store.rows == out.rows && store.outbox == old(store.outbox) + out.notes
  {
    var found := FirstRow(store.rows, coin.id, clock.todayStart);
    var row: DailyCandle;
    var at: Option<nat>;
    var lastHour: Option<int>;
    if found.Some? && store.rows[found.value].hourly != [] {
      row, at := store.rows[found.value], found;
      lastHour := Some(Largest(Hours(row.hourly)));
    } else {
      row, at, lastHour := Placeholder(coin.id, clock), None, None;
    }
    var startFrom := if lastHour.Some? then HourAfter(clock, lastHour.value) else clock.todayStart;
    var w := Window(startFrom, clock.limitHour, lastHour);
    assert Base(at, row) == BaseFor(store.rows, coin.id, clock);
    if up.hourly.Success? {
      var sorted := SortByTime(up.hourly.points, false);
      var entries, ohlc, lastEntryHour := ScanHours(store, coin, sorted, w, clock, up.recentDaily, row.ohlc);
      if entries == [] {
        TopUpUntouched(old(store.rows), coin.id, coin.webhook, coin.name, up, clock, Base(at, row), w, sorted, entries);
        assert store.outbox == old(store.outbox) + [];
      } else {
        var last := entries[|entries| - 1];
        var noteHour := if last.ohlc.open > last.ohlc.close || last.ohlc.open < last.ohlc.close
                        then lastEntryHour else HourOf(clock, sorted[|sorted| - 1].time);
        TopUpTaken(old(store.rows), coin.id, coin.webhook, coin.name, up, clock, Base(at, row), w, sorted,
                   entries, ohlc, lastEntryHour);
        AppendAssoc(old(store.outbox),
          ResumesDuring(Accepted(sorted, w, clock), clock, up.recentDaily, clock.prevDayStart, coin.webhook, coin.name),
          [HourlyNote(coin.webhook, coin.name, last.ohlc, noteHour)]);
        store.outbox := store.outbox + [HourlyNote(coin.webhook, coin.name, last.ohlc, noteHour)];
        var updated := row.(ohlc := ohlc, hourly := row.hourly + entries);
        if at.Some? {
          store.rows := store.rows[at.value := updated];
        } else {
          store.rows := store.rows + [updated];
        }
      }
    } else {
      TopUpUntouched(old(store.rows), coin.id, coin.webhook, coin.name, up, clock, Base(at, row), w, [], []);
      assert store.outbox == old(store.outbox) + [];
    }
  }

  // ---------------------------------------------------------------------------------
  // What a top-up guarantees

  /** A top-up touches only the coin's row stamped today: every other row keeps its place
      and value, the row it updates keeps its coin, its stamp and the start of its ledger,
      and a new row is the coin's row for today. Other coins' timestamps are unchanged. */
  lemma TopUpFrame(rows: seq<DailyCandle>, coinId: int, webhook: string, name: string, up: Upstream, clock: Clock)
    ensures var out := TopUp(rows, coinId, webhook, name, up, clock);
      (|out.rows| == |rows| ||
       (|out.rows| == |rows| + 1 && out.rows[|rows|].coinId == coinId &&
        out.rows[|rows|].timestamp == clock.todayStart && out.rows[|rows|].hourly != [])) &&
      (forall j :: 0 <= j < |rows| ==>
         out.rows[j] == rows[j] ||
         (rows[j].coinId == coinId && rows[j].timestamp == clock.todayStart &&
          out.rows[j].coinId == coinId && out.rows[j].timestamp == clock.todayStart &&
          rows[j].hourly < out.rows[j].hourly)) &&
      (forall id :: id != coinId ==> TimesOf(out.rows, id) == TimesOf(rows, id))
  {
    var out := TopUp(rows, coinId, webhook, name, up, clock);
    if up.hourly.Success? {
      var base := BaseFor(rows, coinId, clock);
      var acc := Accepted(SortByTime(up.hourly.points, false), WindowFor(base.row.hourly, clock), clock);
      if acc != [] {
        var entries := EntriesOf(acc, clock, up.recentDaily);
        var row := base.row.(ohlc := OhlcAfter(acc, clock, up.recentDaily, clock.prevDayStart, base.row.ohlc),
                             hourly := base.row.hourly + entries);
        assert base.row.hourly < row.hourly;
        forall id | id != coinId
          ensures TimesOf(out.rows, id) == TimesOf(rows, id)
        {
          if base.at.Some? {
            TimesOfReplace(rows, base.at.value, row, id);
          } else {
            TimesOfAppend(rows, [row], id);
            TimesOfOthers([row], id);
            assert rows + [] == rows;
          }
        }
      }
    }
  }

  /** The earliest point accepted from a page comes first: the accepted points are in
      ascending time order, lie in the window, and each is a point of the page. */
  lemma AcceptedFromPage(page: seq<Point>, w: Window, clock: Clock)
    ensures var acc := Accepted(SortByTime(page, false), w, clock);
      Ordered(acc, false) &&
      (forall x :: x in acc ==> x in page && w.startFrom <= x.time < w.limitHour) &&
      (forall k :: 0 <= k < |acc| && w.lastHour.Some? ==> HourOf(clock, acc[k].time) != w.lastHour.value)
  {
    var sorted := SortByTime(page, false);
    SortOrdered(page, false);
    SortPermutes(page, false);
    AcceptedOrdered(sorted, w, clock);
    var acc := Accepted(sorted, w, clock);
    forall x | x in acc ensures x in page {
      assert x in multiset(sorted);
    }
    forall k | 0 <= k < |acc| && w.lastHour.Some? ensures HourOf(clock, acc[k].time) != w.lastHour.value {
      assert acc[k] in acc;
    }
  }

  /** The new ledger entries never repeat the last saved hour. */
  lemma EntriesSkipLastHour(acc: seq<Point>, w: Window, clock: Clock, daily: Response)
    requires forall k :: 0 <= k < |acc| ==> Accepts(acc[k], w, clock)
    requires w.lastHour.Some?
    ensures forall e :: e in EntriesOf(acc, clock, daily) ==> e.hour != w.lastHour.value
  {
    var es := EntriesOf(acc, clock, daily);
    forall e | e in es ensures e.hour != w.lastHour.value {
      var k :| 0 <= k < |es| && es[k] == e;
      assert Accepts(acc[k], w, clock);
    }
  }

  /** A page none of whose points lies in the window yields no entries. */
  lemma {:induction false} NoneAccepted(ps: seq<Point>, w: Window, clock: Clock)
    requires forall x :: x in ps ==> !Accepts(x, w, clock)
    ensures Accepted(ps, w, clock) == []
    decreases |ps|
  {
    if ps != [] {
      var init := ps[..|ps| - 1];
      assert forall x :: x in init ==> x in ps;
      NoneAccepted(init, w, clock);
    }
  }

  /** What the top-up assumes of the clock's local hours, which holds for a clock that
      reads today's hours in one timezone: a time of today before the current hour lies
      before the end of its own hour, later hours end later, and every hour of today ends
      after today's start. */
  ghost predicate HoursConsistent(clock: Clock)
  {
    (forall t, h :: clock.todayStart <= t < clock.limitHour && HourOf(clock, t) <= h ==> t < HourAfter(clock, h)) &&
    (forall h, h' :: h <= h' ==> HourAfter(clock, h) <= HourAfter(clock, h')) &&
    (forall h :: clock.todayStart <= HourAfter(clock, h))
  }

  /** Once the accepted entries are saved, the same page offers nothing more: no point
      lies in the window the extended ledger opens. */
  lemma {:induction false} RescanAcceptsNothing(ps: seq<Point>, ledger: seq<HourEntry>, clock: Clock, daily: Response)
    requires HoursConsistent(clock)
    ensures var acc := Accepted(ps, WindowFor(ledger, clock), clock);
      Accepted(ps, WindowFor(ledger + EntriesOf(acc, clock, daily), clock), clock) == []
  {
    var w1 := WindowFor(ledger, clock);
    var acc := Accepted(ps, w1, clock);
    var ledger2 := ledger + EntriesOf(acc, clock, daily);
    var w2 := WindowFor(ledger2, clock);
    if acc == [] {
      assert ledger2 == ledger;
    } else {
      var h2 := w2.lastHour.value;
      if w1.lastHour.Some? {
        var k1 :| 0 <= k1 < |ledger| && ledger[k1].hour == w1.lastHour.value;
        assert ledger2[k1] == ledger[k1];
      }
      forall x | x in ps ensures !Accepts(x, w2, clock) {
        if Accepts(x, w1, clock) {
          AcceptedUnderNewLast(x, ps, ledger, clock, daily);
        }
        OutsideRescanWindow(x, w1, h2, clock);
      }
      NoneAccepted(ps, w2, clock);
    }
  }

  /** An accepted point's hour is held by the extended ledger, so it is no later than that
      ledger's last hour. */
  lemma AcceptedUnderNewLast(x: Point, ps: seq<Point>, ledger: seq<HourEntry>, clock: Clock, daily: Response)
    requires x in Accepted(ps, WindowFor(ledger, clock), clock)
    ensures var ledger2 := ledger + EntriesOf(Accepted(ps, WindowFor(ledger, clock), clock), clock, daily);
      HourOf(clock, x.time) <= WindowFor(ledger2, clock).lastHour.value
  {
    var acc := Accepted(ps, WindowFor(ledger, clock), clock);
    var entries := EntriesOf(acc, clock, daily);
    var ledger2 := ledger + entries;
    var k :| 0 <= k < |acc| && acc[k] == x;
    assert ledger2[|ledger| + k] == entries[k] && entries[k].hour == HourOf(clock, x.time);
    var last := LastHour(ledger2);
    assert ledger2[|ledger| + k].hour <= last.value;
  }

  /** The per-point step of the rescan argument: a point the first window accepts lies in
      an hour up to `h2` and so before the hour after `h2`; a point it refuses lies before
      the first window's start, which is no later, or at or after the current hour. */
  lemma OutsideRescanWindow(x: Point, w1: Window, h2: int, clock: Clock)
    requires HoursConsistent(clock)
    requires w1.limitHour == clock.limitHour
    requires w1.lastHour.Some? ==> w1.startFrom == HourAfter(clock, w1.lastHour.value) && w1.lastHour.value <= h2
    requires w1.lastHour.None? ==> w1.startFrom == clock.todayStart
    requires Accepts(x, w1, clock) ==> HourOf(clock, x.time) <= h2
    ensures !Accepts(x, Window(HourAfter(clock, h2), clock.limitHour, Some(h2)), clock)
  {
    assert clock.todayStart <= w1.startFrom;
    assert w1.startFrom <= HourAfter(clock, h2);
  }

  // ---------------------------------------------------------------------------------
  // The shape of a ledger

  /** A ledger whose hours strictly rise: no hour is held twice. */
  ghost predicate RisingHours(ledger: seq<HourEntry>)
  {
    forall j, k :: 0 <= j < k < |ledger| ==> ledger[j].hour < ledger[k].hour
  }

  /** What the top-up relies on from the hourly page for its ledger to stay rising: in scan
      order, the page's points of today before the current hour fall in strictly later
      local hours (one point per hour, and no hour read twice across a clock change). */
  ghost predicate OnePerHour(ps: seq<Point>, clock: Clock)
  {
    forall j, k ::
      (0 <= j < k < |ps| &&
       clock.todayStart <= ps[j].time < clock.limitHour && clock.todayStart <= ps[k].time < clock.limitHour) ==>
      HourOf(clock, ps[j].time) < HourOf(clock, ps[k].time)
  }

  /** Points in strictly rising local hours. */
  ghost predicate RisingPoints(ps: seq<Point>, clock: Clock)
  {
    forall j, k :: 0 <= j < k < |ps| ==> HourOf(clock, ps[j].time) < HourOf(clock, ps[k].time)
  }

  /** On such a page the accepted points fall in strictly rising hours. */
  lemma {:induction false} AcceptedRising(ps: seq<Point>, w: Window, clock: Clock)
    requires clock.todayStart <= w.startFrom && w.limitHour == clock.limitHour
    requires OnePerHour(ps, clock)
    ensures RisingPoints(Accepted(ps, w, clock), clock)
    decreases |ps|
  {
    if ps != [] {
      var init, p := ps[..|ps| - 1], ps[|ps| - 1];
      assert forall j :: 0 <= j < |init| ==> init[j] == ps[j];
      AcceptedRising(init, w, clock);
      var accI := Accepted(init, w, clock);
      if Accepts(p, w, clock) {
        var acc := accI + [p];
        assert Accepted(ps, w, clock) == acc;
        forall j, k | 0 <= j < k < |acc| ensures HourOf(clock, acc[j].time) < HourOf(clock, acc[k].time) {
          assert acc[j] == accI[j] && accI[j] in accI;
          if k == |accI| {
            assert acc[k] == p == ps[|ps| - 1];
            assert Accepts(accI[j], w, clock);
            var m :| 0 <= m < |init| && init[m] == accI[j];
            assert ps[m] == accI[j];
            assert clock.todayStart <= ps[m].time < clock.limitHour;
            assert clock.todayStart <= ps[|ps| - 1].time < clock.limitHour;
            assert m < |ps| - 1;
            assert HourOf(clock, ps[m].time) < HourOf(clock, ps[|ps| - 1].time);
          } else {
            assert acc[k] == accI[k];
            assert HourOf(clock, accI[j].time) < HourOf(clock, accI[k].time);
          }
        }
      }
    }
  }

  /** The entries a top-up appends come after every hour the ledger holds and rise among
      themselves, so a rising ledger stays rising. */
  lemma LedgerStaysRising(ledger: seq<HourEntry>, ps: seq<Point>, clock: Clock, daily: Response)
    requires HoursConsistent(clock)
    requires RisingHours(ledger) && OnePerHour(ps, clock)
    ensures RisingHours(ledger + EntriesOf(Accepted(ps, WindowFor(ledger, clock), clock), clock, daily))
  {
    var w := WindowFor(ledger, clock);
    var acc := Accepted(ps, w, clock);
    var entries := EntriesOf(acc, clock, daily);
    AcceptedRising(ps, w, clock);
    EntriesRising(acc, clock, daily);
    if ledger != [] {
      forall k | 0 <= k < |entries| ensures w.lastHour.value < entries[k].hour {
        assert acc[k] in acc;
        AfterLastHour(acc[k], w, clock);
      }
    }
    RisingAppend(ledger, entries);
  }

  /** Entries of points in rising hours rise. */
  lemma EntriesRising(acc: seq<Point>, clock: Clock, daily: Response)
    requires RisingPoints(acc, clock)
    ensures RisingHours(EntriesOf(acc, clock, daily))
  {
  }

  /** A point accepted after a last saved hour lies in a later hour. */
  lemma AfterLastHour(p: Point, w: Window, clock: Clock)
    requires HoursConsistent(clock)
    requires w.lastHour.Some? && w.startFrom == HourAfter(clock, w.lastHour.value) && w.limitHour == clock.limitHour
    requires Accepts(p, w, clock)
    ensures w.lastHour.value < HourOf(clock, p.time)
  {
    assert clock.todayStart <= w.startFrom;
  }

  /** Two rising ledgers, the second starting after the first ends, rise together. */
  lemma RisingAppend(a: seq<HourEntry>, b: seq<HourEntry>)
    requires RisingHours(a) && RisingHours(b)
    requires a != [] ==> LastHour(a).Some? && forall k :: 0 <= k < |b| ==> LastHour(a).value < b[k].hour
    ensures RisingHours(a + b)
  {
    var ab := a + b;
    forall j, k | 0 <= j < k < |ab| ensures ab[j].hour < ab[k].hour {
      if k < |a| {
        assert ab[j] == a[j] && ab[k] == a[k];
      } else if j < |a| {
        assert ab[j] == a[j] && ab[k] == b[k - |a|];
      } else {
        assert ab[j] == b[j - |a|] && ab[k] == b[k - |a|];
      }
    }
  }

  /** A clock two hours into a day that starts at time 0, reading one-hour wide local hours. */
  function PlainClock(): Clock
  {
    Clock(7200, 0, -86400, -86400, 7200, t => t, t => t / 3600, h => if h < 0 then 0 else (h + 1) * 3600)
  }

  lemma PlainClockConsistent()
    ensures HoursConsistent(PlainClock())
  {
    var clock := PlainClock();
    forall t, h | clock.todayStart <= t < clock.limitHour && HourOf(clock, t) <= h ensures t < HourAfter(clock, h) {
      assert HourOf(clock, t) == t / 3600;
    }
  }

  /** Without one point per hour the ledger can hold an hour twice: a fresh ledger and a
      page that repeats a point of today before the current hour give two entries for that
      point's hour, whatever the clock (`PlainClock` is one that reads hours consistently). */
  lemma RepeatedTimeRepeatsHour(p: Point, clock: Clock, daily: Response)
    requires clock.todayStart <= p.time < clock.limitHour
    ensures var es := EntriesOf(Accepted([p, p], WindowFor([], clock), clock), clock, daily);
      |es| == 2 && es[0].hour == es[1].hour == HourOf(clock, p.time)
  {
    var w := WindowFor([], clock);
    assert Accepts(p, w, clock);
    assert [p, p][..1] == [p];
    assert Accepted([p, p], w, clock) == [p, p];
  }

  /** A rising ledger of hours of the day holds at most 24 entries. */
  lemma {:induction false} RisingBounded(ledger: seq<HourEntry>, lo: int, hi: int)
    requires RisingHours(ledger)
    requires forall k :: 0 <= k < |ledger| ==> lo <= ledger[k].hour < hi
    ensures |ledger| <= if lo <= hi then hi - lo else 0
    decreases |ledger|
  {
    if ledger != [] {
      RisingBounded(ledger[1..], ledger[0].hour + 1, hi);
    }
  }

  /** The ledger a top-up writes: when today's row already holds a rising ledger of hours of
      the day and the page holds one point per hour, the row the top-up changes or adds
      holds a rising ledger of at most 24 entries. */
  lemma TopUpLedger(rows: seq<DailyCandle>, coinId: int, webhook: string, name: string, up: Upstream, clock: Clock)
    requires HoursConsistent(clock)
    requires forall t :: 0 <= HourOf(clock, t) < 24
    requires var ledger := BaseFor(rows, coinId, clock).row.hourly;
      RisingHours(ledger) && forall k :: 0 <= k < |ledger| ==> 0 <= ledger[k].hour < 24
    requires up.hourly.Success? ==> OnePerHour(SortByTime(up.hourly.points, false), clock)
    ensures var out := TopUp(rows, coinId, webhook, name, up, clock);
      forall j :: 0 <= j < |out.rows| && (j >= |rows| || out.rows[j] != rows[j]) ==>
        RisingHours(out.rows[j].hourly) && |out.rows[j].hourly| <= 24
  {
    if up.hourly.Success? {
      var ledger := BaseFor(rows, coinId, clock).row.hourly;
      var sorted := SortByTime(up.hourly.points, false);
      TopUpWrites(rows, coinId, webhook, name, up, clock);
      ExtendedLedger(ledger, sorted, clock, up.recentDaily);
    }
  }

  /** Every row a successful top-up changes or adds holds today's ledger extended by the
      entries of the accepted points. */
  lemma TopUpWrites(rows: seq<DailyCandle>, coinId: int, webhook: string, name: string, up: Upstream, clock: Clock)
    requires up.hourly.Success?
    ensures var out := TopUp(rows, coinId, webhook, name, up, clock);
      var ledger := BaseFor(rows, coinId, clock).row.hourly;
      var acc := Accepted(SortByTime(up.hourly.points, false), WindowFor(ledger, clock), clock);
      forall j :: 0 <= j < |out.rows| && (j >= |rows| || out.rows[j] != rows[j]) ==>
        out.rows[j].hourly == ledger + EntriesOf(acc, clock, up.recentDaily)
  {
    var base := BaseFor(rows, coinId, clock);
    var acc := Accepted(SortByTime(up.hourly.points, false), WindowFor(base.row.hourly, clock), clock);
    if acc != [] {
      var row := base.row.(ohlc := OhlcAfter(acc, clock, up.recentDaily, clock.prevDayStart, base.row.ohlc),
                           hourly := base.row.hourly + EntriesOf(acc, clock, up.recentDaily));
      var written := if base.at.Some? then rows[base.at.value := row] else rows + [row];
      assert TopUp(rows, coinId, webhook, name, up, clock).rows == written;
      assert forall j :: 0 <= j < |written| && (j >= |rows| || written[j] != rows[j]) ==> written[j] == row;
    }
  }

  /** The ledger a top-up writes, on its own: a rising ledger of hours of the day, extended
      by the entries of a page with one point per hour, is rising and holds at most 24
      entries. */
  lemma ExtendedLedger(ledger: seq<HourEntry>, sorted: seq<Point>, clock: Clock, daily: Response)
    requires HoursConsistent(clock)
    requires forall t :: 0 <= HourOf(clock, t) < 24
    requires RisingHours(ledger) && forall k :: 0 <= k < |ledger| ==> 0 <= ledger[k].hour < 24
    requires OnePerHour(sorted, clock)
    ensures var extended := ledger + EntriesOf(Accepted(sorted, WindowFor(ledger, clock), clock), clock, daily);
      RisingHours(extended) && |extended| <= 24
  {
    var extended := ledger + EntriesOf(Accepted(sorted, WindowFor(ledger, clock), clock), clock, daily);
    LedgerStaysRising(ledger, sorted, clock, daily);
    assert forall k :: 0 <= k < |extended| ==> 0 <= extended[k].hour < 24;
    RisingBounded(extended, 0, 24);
  }

  /** `FirstRow` is the first index whose row matches. */
  lemma {:induction false} FirstRowIs(rows: seq<DailyCandle>, coinId: int, ts: int, i: nat)
    requires i < |rows| && rows[i].coinId == coinId && rows[i].timestamp == ts
    requires forall j :: 0 <= j < i ==> !(rows[j].coinId == coinId && rows[j].timestamp == ts)
    ensures FirstRow(rows, coinId, ts) == Some(i)
    decreases i
  {
    if i > 0 {
      FirstRowIs(rows[1..], coinId, ts, i - 1);
    }
  }

  /** Running the top-up again with the same pages and clock changes nothing and sends
      nothing, provided today's row, if the coin has one, already holds hours (otherwise
      the first run stores a second row for today and the rerun starts from a new
      placeholder again). */
  lemma TopUpRerun(rows: seq<DailyCandle>, coinId: int, webhook: string, name: string, up: Upstream, clock: Clock)
    requires HoursConsistent(clock)
    requires FirstRow(rows, coinId, clock.todayStart).None? ||
             rows[FirstRow(rows, coinId, clock.todayStart).value].hourly != []
    ensures var out := TopUp(rows, coinId, webhook, name, up, clock);
      TopUp(out.rows, coinId, webhook, name, up, clock) == Outcome(out.rows, [])
  {
    var out := TopUp(rows, coinId, webhook, name, up, clock);
    if up.hourly.Success? {
      var base := BaseFor(rows, coinId, clock);
      var sorted := SortByTime(up.hourly.points, false);
      var acc := Accepted(sorted, WindowFor(base.row.hourly, clock), clock);
      if acc != [] {
        var entries := EntriesOf(acc, clock, up.recentDaily);
        var row := base.row.(ohlc := OhlcAfter(acc, clock, up.recentDaily, clock.prevDayStart, base.row.ohlc),
                             hourly := base.row.hourly + entries);
        var at := if base.at.Some? then base.at.value else |rows|;
        assert out.rows == if base.at.Some? then rows[at := row] else rows + [row];
        FirstRowIs(out.rows, coinId, clock.todayStart, at);
        assert BaseFor(out.rows, coinId, clock) == Base(Some(at), row);
        RescanAcceptsNothing(sorted, base.row.hourly, clock, up.recentDaily);
      }
    }
  }
}
