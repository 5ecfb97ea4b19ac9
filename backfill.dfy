/** The full daily backfill: walk backwards from now in pages of at most `limit`
    days, save every closed day with real data as one row, stop at the first
    all-zero sentinel or upstream failure, and then mark the coin as backfilled. */
module Backfill {
  import opened Candles
  import opened TimeOrder

  /** The upstream's all-zero placeholder for a day without data. */
  predicate IsSentinel(o: Ohlc)
  {
    o.high == 0.0 && o.low == 0.0 && o.open == 0.0 && o.close == 0.0
  }

  /** The point stamped with today's day, which is not closed yet. */
  predicate IsToday(p: Point, clock: Clock)
  {
    DayStamp(clock, p.time) == clock.todayStart
  }

  /** A point the backfill saves: a closed day with real data. */
  predicate Keeps(p: Point, clock: Clock)
  {
    !IsToday(p, clock) && !IsSentinel(p.ohlc)
  }

  /** A point that ends the backfill: a closed day carrying the sentinel. */
  predicate Halts(p: Point, clock: Clock)
  {
    !IsToday(p, clock) && IsSentinel(p.ohlc)
  }

  /** The points of a page the backfill saves, in page order. */
  function ValidOf(page: seq<Point>, clock: Clock): (v: seq<Point>)
    ensures |v| <= |page|
    ensures forall x :: x in v <==> x in page && Keeps(x, clock)
  {
    if page == [] then []
    else
      var init, p := page[..|page| - 1], page[|page| - 1];
      assert page == init + [p];
      ValidOf(init, clock) + (if Keeps(p, clock) then [p] else [])
  }

  /** How many sentinel points of a page lie on closed days. */
  function InvalidCount(page: seq<Point>, clock: Clock): (n: nat)
    ensures n > 0 <==> exists i :: 0 <= i < |page| && Halts(page[i], clock)
    ensures n + |ValidOf(page, clock)| <= |page|
  {
    if page == [] then 0
    else
      var init, p := page[..|page| - 1], page[|page| - 1];
      assert forall i :: 0 <= i < |init| ==> init[i] == page[i];
      InvalidCount(init, clock) + (if Halts(p, clock) then 1 else 0)
  }

  /** The saved points of a newest-first page are newest first too. */
  lemma {:induction false} ValidOfOrdered(page: seq<Point>, clock: Clock)
    requires Ordered(page, true)
    ensures Ordered(ValidOf(page, clock), true)
    decreases |page|
  {
    if page != [] {
      var init, p := page[..|page| - 1], page[|page| - 1];
      ValidOfOrdered(init, clock);
      var v := ValidOf(init, clock);
      forall x | x in v ensures InOrder(x, p, true) {
        var k :| 0 <= k < |init| && init[k] == x;
        assert page[k] == x;
      }
    }
  }

  /** The scan of one sorted page: the points to save and the number of sentinels met.
      A sentinel does not stop the scan of its own page. */
  method ScanPage(page: seq<Point>, clock: Clock) returns (valid: seq<Point>, invalid: nat)
    ensures valid == ValidOf(page, clock)
    ensures invalid == InvalidCount(page, clock)
  {
    valid, invalid := [], 0;
    for i := 0 to |page|
      invariant valid == ValidOf(page[..i], clock)
      invariant invalid == InvalidCount(page[..i], clock)
    {
      var p := page[i];
      assert page[..i + 1][..i] == page[..i];
      if !IsToday(p, clock) {
        if IsSentinel(p.ohlc) {
          invalid := invalid + 1;
        } else {
          valid := valid + [p];
        }
      }
    }
    assert page[..|page|] == page;
  }

  /** The daily price API answering one request. */
  function Fetch(api: Request -> Response, request: Request): Response
  {
    api(request)
  }

  /** The loop state of the backfill: days still to fetch, the paging cursor, the
      two counters, and (for the proofs) the points saved and the requests sent. */
  datatype Progress = Progress(
    totalDays: int, toTs: int, validCount: nat, invalid: nat,
    saved: seq<Point>, requests: seq<Request>, failed: bool)

  function Start(totalDays: int, now: int): Progress
  {
    Progress(totalDays, now, 0, 0, [], [], false)
  }

  /** The loop goes on while days remain, no sentinel was met and no request failed. */
  predicate Running(s: Progress)
  {
    s.totalDays > 0 && s.invalid == 0 && !s.failed
  }

  function Min(a: int, b: int): int
  {
    if a <= b then a else b
  }

  /** One page: ask for min(limit, totalDays) days ending at the cursor. A failure
      stops the loop and leaves the days and the cursor as they were; a success saves
      the page's valid points, consumes the days asked for and moves the cursor to the
      page's earliest time. */
  function Step(s: Progress, limit: int, api: Request -> Response, clock: Clock): (t: Progress)
    requires limit >= 1 && Running(s)
    ensures t.requests == s.requests + [Request(Min(limit, s.totalDays) - 1, s.toTs)]
    ensures t.failed <==> api(Request(Min(limit, s.totalDays) - 1, s.toTs)).Failure?
    ensures t.failed ==> t.totalDays == s.totalDays && t.toTs == s.toTs && t.saved == s.saved
    ensures !t.failed ==> 0 <= t.totalDays == s.totalDays - Min(limit, s.totalDays) < s.totalDays
    ensures !t.failed ==> t.toTs == api(Request(Min(limit, s.totalDays) - 1, s.toTs)).timeFrom
    ensures |s.saved| <= |t.saved| && t.saved[..|s.saved|] == s.saved
    ensures t.validCount - |t.saved| == s.validCount - |s.saved|
  {
    var days := Min(limit, s.totalDays);
    var request := Request(days - 1, s.toTs);
    match api(request)
    case Failure(_) =>
      s.(requests := s.requests + [request], failed := true)
    case Success(points, timeFrom) =>
      var page := SortByTime(points, true);
      var valid := ValidOf(page, clock);
      assert (s.saved + valid)[..|s.saved|] == s.saved;
      Progress(s.totalDays - days, timeFrom, s.validCount + |valid|,
               s.invalid + InvalidCount(page, clock), s.saved + valid,
               s.requests + [request], false)
  }

  /** A successful page, spelled out in terms of the page's valid points and its count of
      sentinel days. */
  lemma StepSuccess(s: Progress, limit: int, api: Request -> Response, clock: Clock,
                    request: Request, response: Response, valid: seq<Point>, bad: nat)
    requires limit >= 1 && Running(s)
    requires request == Request(Min(limit, s.totalDays) - 1, s.toTs)
    requires response == api(request) && response.Success?
    requires valid == ValidOf(SortByTime(response.points, true), clock)
    requires bad == InvalidCount(SortByTime(response.points, true), clock)
    ensures Step(s, limit, api, clock) ==
      Progress(s.totalDays - (request.limit + 1), response.timeFrom, s.validCount + |valid|,
               s.invalid + bad, s.saved + valid, s.requests + [request], false)
  {
  }

  /** The state the backfill loop ends in. */
  function Final(s: Progress, limit: int, api: Request -> Response, clock: Clock): (f: Progress)
    requires limit >= 1
    ensures !Running(f)
    ensures |s.requests| <= |f.requests| && f.requests[..|s.requests|] == s.requests
    ensures |s.saved| <= |f.saved| && f.saved[..|s.saved|] == s.saved
    decreases if Running(s) then s.totalDays else 0
  {
    if Running(s) then
      var t := Step(s, limit, api, clock);
      var f := Final(t, limit, api, clock);
      assert f.requests[..|t.requests|][..|s.requests|] == f.requests[..|s.requests|];
      assert f.saved[..|t.saved|][..|s.saved|] == f.saved[..|s.saved|];
      f
    else s
  }

  lemma FinalUnfold(s: Progress, limit: int, api: Request -> Response, clock: Clock)
    requires limit >= 1 && Running(s)
    ensures Final(s, limit, api, clock) == Final(Step(s, limit, api, clock), limit, api, clock)
  {
  }

  /** The days a run of requests asked for (each asks for limit + 1 points). */
  function DaysAsked(requests: seq<Request>): int
  {
    if requests == [] then 0
    else DaysAsked(requests[..|requests| - 1]) + requests[|requests| - 1].limit + 1
  }

  lemma {:induction false} DaysAskedAppend(a: seq<Request>, b: seq<Request>)
    ensures DaysAsked(a + b) == DaysAsked(a) + DaysAsked(b)
    decreases |b|
  {
    if b == [] {
      assert a + b == a;
    } else {
      var init := b[..|b| - 1];
      assert (a + b)[..|a + b| - 1] == a + init;
      DaysAskedAppend(a, init);
    }
  }

  /** The requests a run sent after state `s`. */
  function Asked(s: Progress, limit: int, api: Request -> Response, clock: Clock): seq<Request>
    requires limit >= 1
  {
    Final(s, limit, api, clock).requests[|s.requests|..]
  }

  lemma AskedStep(s: Progress, limit: int, api: Request -> Response, clock: Clock)
    requires limit >= 1 && Running(s)
    ensures Asked(s, limit, api, clock) ==
      [Request(Min(limit, s.totalDays) - 1, s.toTs)] + Asked(Step(s, limit, api, clock), limit, api, clock)
  {
    FinalUnfold(s, limit, api, clock);
    var t := Step(s, limit, api, clock);
    DropPrefix(Final(t, limit, api, clock).requests, s.requests, Request(Min(limit, s.totalDays) - 1, s.toTs));
  }

  /** A sequence that starts with `p + [e]`, seen from position |p|. */
  lemma DropPrefix<T>(x: seq<T>, p: seq<T>, e: T)
    requires |p| < |x| && x[..|p| + 1] == p + [e]
    ensures x[|p|..] == [e] + x[|p| + 1..]
  {
    assert x[|p|] == (p + [e])[|p|];
  }

  /** What the backfill saves: every saved point is a closed day with real data, and
      the valid counter equals the number of points handed to the save. */
  lemma {:induction false} FinalSaved(s: Progress, limit: int, api: Request -> Response, clock: Clock)
    requires limit >= 1
    requires s.validCount == |s.saved|
    requires forall i :: 0 <= i < |s.saved| ==> Keeps(s.saved[i], clock)
    ensures var f := Final(s, limit, api, clock);
      f.validCount == |f.saved| && forall i :: 0 <= i < |f.saved| ==> Keeps(f.saved[i], clock)
    decreases if Running(s) then s.totalDays else 0
  {
    if Running(s) {
      var t := Step(s, limit, api, clock);
      forall i | 0 <= i < |t.saved| ensures Keeps(t.saved[i], clock) {
        if i >= |s.saved| {
          var page := SortByTime(api(Request(Min(limit, s.totalDays) - 1, s.toTs)).points, true);
          assert t.saved == s.saved + ValidOf(page, clock);
          assert t.saved[i] in ValidOf(page, clock);
        } else {
          assert t.saved[i] == t.saved[..|s.saved|][i];
        }
      }
      FinalSaved(t, limit, api, clock);
    }
  }

  /** Every request asks for between 1 and `limit` days and never more than remain, so
      a backfill that starts with days to fetch never ends below zero. */
  lemma {:induction false} FinalPageSizes(s: Progress, limit: int, api: Request -> Response, clock: Clock)
    requires limit >= 1
    ensures forall r :: r in Asked(s, limit, api, clock) ==> 0 <= r.limit < limit
    ensures s.totalDays > 0 ==> Final(s, limit, api, clock).totalDays >= 0
    decreases if Running(s) then s.totalDays else 0
  {
    if Running(s) {
      AskedStep(s, limit, api, clock);
      FinalPageSizes(Step(s, limit, api, clock), limit, api, clock);
    }
  }

  /** Successful pages consume exactly the days they asked for; a failed request is
      the last one and leaves the remaining days and the cursor as they were before it:
      it asked for min(limit, days left) days ending at the final cursor. */
  lemma {:induction false} FinalDays(s: Progress, limit: int, api: Request -> Response, clock: Clock)
    requires limit >= 1 && !s.failed
    ensures var f, asked := Final(s, limit, api, clock), Asked(s, limit, api, clock);
      !f.failed ==> DaysAsked(asked) == s.totalDays - f.totalDays
    ensures var f, asked := Final(s, limit, api, clock), Asked(s, limit, api, clock);
      f.failed ==>
        && |asked| > 0
        && DaysAsked(asked[..|asked| - 1]) == s.totalDays - f.totalDays
        && asked[|asked| - 1] == Request(Min(limit, f.totalDays) - 1, f.toTs)
    decreases if Running(s) then s.totalDays else 0
  {
    if Running(s) {
      var t := Step(s, limit, api, clock);
      var request := Request(Min(limit, s.totalDays) - 1, s.toTs);
      var f := Final(s, limit, api, clock);
      AskedStep(s, limit, api, clock);
      var askedT := Asked(t, limit, api, clock);
      assert DaysAsked([request]) == request.limit + 1 by {
        assert [request][..0] == [];
      }
      if t.failed {
        assert f == t && askedT == [];
        assert [request] + askedT == [request];
      } else {
        FinalDays(t, limit, api, clock);
        DaysAskedAppend([request], askedT);
        if f.failed {
          var asked := [request] + askedT;
          assert asked[..|asked| - 1] == [request] + askedT[..|askedT| - 1];
          DaysAskedAppend([request], askedT[..|askedT| - 1]);
        }
      }
    } else {
      assert Asked(s, limit, api, clock) == [];
    }
  }

  /** How the cursor moves: the first request ends at the starting cursor, and each
      later request ends at the earliest time of the page before it, which succeeded. */
  lemma {:induction false} FinalCursor(s: Progress, limit: int, api: Request -> Response, clock: Clock)
    requires limit >= 1
    ensures var asked := Asked(s, limit, api, clock);
      |asked| > 0 ==> asked[0].toTs == s.toTs
    ensures var asked := Asked(s, limit, api, clock);
      forall k :: 0 <= k < |asked| - 1 ==>
        api(asked[k]).Success? && asked[k + 1].toTs == api(asked[k]).timeFrom
    decreases if Running(s) then s.totalDays else 0
  {
    if Running(s) {
      var t := Step(s, limit, api, clock);
      AskedStep(s, limit, api, clock);
      FinalCursor(t, limit, api, clock);
      if t.failed {
        assert Asked(t, limit, api, clock) == [];
      }
    } else {
      assert Asked(s, limit, api, clock) == [];
    }
  }

  /** The loop goes on only past clean pages: every request but the last came back as a
      page without a sentinel day. */
  lemma {:induction false} FinalStops(s: Progress, limit: int, api: Request -> Response, clock: Clock)
    requires limit >= 1
    ensures var asked := Asked(s, limit, api, clock);
      forall k :: 0 <= k < |asked| - 1 ==>
        api(asked[k]).Success? && InvalidCount(SortByTime(api(asked[k]).points, true), clock) == 0
    decreases if Running(s) then s.totalDays else 0
  {
    if Running(s) {
      var t := Step(s, limit, api, clock);
      AskedStep(s, limit, api, clock);
      FinalStops(t, limit, api, clock);
      if !Running(t) {
        assert Asked(t, limit, api, clock) == [];
      }
    } else {
      assert Asked(s, limit, api, clock) == [];
    }
  }

  /** A run that met a sentinel day met it on its last page. */
  lemma {:induction false} FinalStopsOnSentinel(s: Progress, limit: int, api: Request -> Response, clock: Clock)
    requires limit >= 1
    ensures var f, asked := Final(s, limit, api, clock), Asked(s, limit, api, clock);
      s.invalid == 0 && f.invalid > 0 ==>
        && |asked| > 0
        && api(asked[|asked| - 1]).Success?
        && InvalidCount(SortByTime(api(asked[|asked| - 1]).points, true), clock) > 0
    decreases if Running(s) then s.totalDays else 0
  {
    if Running(s) {
      var t := Step(s, limit, api, clock);
      AskedStep(s, limit, api, clock);
      FinalStopsOnSentinel(t, limit, api, clock);
      if !Running(t) {
        assert Asked(t, limit, api, clock) == [];
      }
    } else {
      assert Asked(s, limit, api, clock) == [];
    }
  }

  /** A run whose request failed stopped at that request. */
  lemma {:induction false} FinalStopsOnFailure(s: Progress, limit: int, api: Request -> Response, clock: Clock)
    requires limit >= 1
    ensures var f, asked := Final(s, limit, api, clock), Asked(s, limit, api, clock);
      !s.failed && f.failed ==> |asked| > 0 && api(asked[|asked| - 1]).Failure?
    decreases if Running(s) then s.totalDays else 0
  {
    if Running(s) {
      var t := Step(s, limit, api, clock);
      AskedStep(s, limit, api, clock);
      FinalStopsOnFailure(t, limit, api, clock);
      if !Running(t) {
        assert Asked(t, limit, api, clock) == [];
      }
    } else {
      assert Asked(s, limit, api, clock) == [];
    }
  }

  /** The row a saved point becomes: stamped with its day, carrying its candle, with no hours. */
  function RowOf(coinId: int, p: Point, clock: Clock): DailyCandle
  {
    DailyCandle(coinId, DayStamp(clock, p.time), p.ohlc, [])
  }

  /** The rows a sequence of saved points becomes, in the same order. */
  function RowsOf(coinId: int, points: seq<Point>, clock: Clock): (rs: seq<DailyCandle>)
    ensures |rs| == |points|
    ensures forall i :: 0 <= i < |points| ==> rs[i] == RowOf(coinId, points[i], clock)
  {
    if points == [] then []
    else RowsOf(coinId, points[..|points| - 1], clock) + [RowOf(coinId, points[|points| - 1], clock)]
  }

  /** The success notice of a completed backfill. */
  function InsertedNote(webhook: string, name: string): Notification
  {
    Notification(webhook, HistoricInserted(name), name, "historic", false, "", 0, false)
  }

  /** Nothing keeps a day from being stored twice: a page that holds a kept day twice
      becomes two rows of the coin with the same stamp. */
  lemma PageRepeatsDay(coinId: int, p: Point, clock: Clock)
    requires Keeps(p, clock)
    ensures var rs := RowsOf(coinId, ValidOf([p, p], clock), clock);
      |rs| == 2 && rs[0].coinId == rs[1].coinId == coinId && rs[0].timestamp == rs[1].timestamp
  {
    assert [p, p][..1] == [p];
  }

  lemma {:induction false} RowsOfAppend(coinId: int, a: seq<Point>, b: seq<Point>, clock: Clock)
    ensures RowsOf(coinId, a + b, clock) == RowsOf(coinId, a, clock) + RowsOf(coinId, b, clock)
  {
    var l, r := RowsOf(coinId, a + b, clock), RowsOf(coinId, a, clock) + RowsOf(coinId, b, clock);
    assert |l| == |r|;
    forall i | 0 <= i < |l|
      ensures l[i] == r[i]
    {
      if i < |a| {
        assert (a + b)[i] == a[i];
      } else {
        assert (a + b)[i] == b[i - |a|];
      }
    }
  }

  /** Every saved point becomes a row of the coin. */
  lemma {:induction false} CountRowsOf(coinId: int, points: seq<Point>, clock: Clock)
    ensures CountFor(RowsOf(coinId, points, clock), coinId) == |points|
    decreases |points|
  {
    if points != [] {
      var init := points[..|points| - 1];
      CountRowsOf(coinId, init, clock);
      assert RowsOf(coinId, points, clock)[..|points| - 1] == RowsOf(coinId, init, clock);
    }
  }

  /** Saves each entry as one new row of the coin, in the given order. */
  method SaveHistoricData(store: Store, coinId: int, entries: seq<Point>, clock: Clock)
    modifies store
    ensures store.rows == old(store.rows) + RowsOf(coinId, entries, clock)
    ensures store.outbox == old(store.outbox)
  {
    for i := 0 to |entries|
      invariant store.rows == old(store.rows) + RowsOf(coinId, entries[..i], clock)
      invariant store.outbox == old(store.outbox)
    {
      var row := DailyCandle(coinId, DayStamp(clock, entries[i].time), entries[i].ohlc, []);
      assert entries[..i + 1][..i] == entries[..i];
      AppendAssoc(old(store.rows), RowsOf(coinId, entries[..i], clock), [row]);
      store.rows := store.rows + [row];
    }
    assert entries[..|entries|] == entries;
  }

  /** The paging loop of the backfill: walks back from now page by page and saves each
      page's valid points as rows of the coin, until the days run out, a sentinel day
      appears or a request fails. */
  method PageBackwards(store: Store, coinId: int, limit: int, totalDays: int,
                       api: Request -> Response, clock: Clock) returns (validCount: nat)
    requires limit >= 1
    modifies store
    ensures var run := Final(Start(totalDays, clock.now), limit, api, clock);
      validCount == |run.saved| && store.rows == old(store.rows) + RowsOf(coinId, run.saved, clock)
    ensures CountFor(store.rows, coinId) == old(CountFor(store.rows, coinId)) + validCount
    ensures store.outbox == old(store.outbox)
  {
    var toTs := clock.now;
    var total := totalDays;
    validCount := 0;
    var invalid: nat := 0;
    ghost var cur := Start(totalDays, clock.now);
    while total > 0 && invalid == 0
      invariant cur.totalDays == total && cur.toTs == toTs && !cur.failed
      invariant cur.validCount == validCount && cur.invalid == invalid
      invariant Final(cur, limit, api, clock) == Final(Start(totalDays, clock.now), limit, api, clock)
      invariant validCount == |cur.saved|
      invariant store.rows == old(store.rows) + RowsOf(coinId, cur.saved, clock)
      invariant store.outbox == old(store.outbox)
      decreases total
    {
      var days := Min(limit, total);
      var request := Request(days - 1, toTs);
      var result := Fetch(api, request);
      FinalUnfold(cur, limit, api, clock);
      if result.Success? {
        var page := SortByTime(result.points, true);
        var valid, bad := ScanPage(page, clock);
        StepSuccess(cur, limit, api, clock, request, result, valid, bad);
        ghost var next := Step(cur, limit, api, clock);
        RowsOfAppend(coinId, cur.saved, valid, clock);
        AppendAssoc(old(store.rows), RowsOf(coinId, cur.saved, clock), RowsOf(coinId, valid, clock));
        SaveHistoricData(store, coinId, valid, clock);
        invalid := invalid + bad;
        validCount := validCount + |valid|;
        total := total - days;
        toTs := result.timeFrom;
        cur := next;
      } else {
        cur := Step(cur, limit, api, clock);
        break;
      }
    }
    assert Final(Start(totalDays, clock.now), limit, api, clock) == cur;
    TimesOfAppend(old(store.rows), RowsOf(coinId, cur.saved, clock), coinId);
    CountRowsOf(coinId, cur.saved, clock);
  }

  /** The full backfill of one coin. The coin's rows grow by exactly the points the
      paging saves, newest first within each page; the completion test (the coin's row
      count against the valid count) always passes, so the coin ends marked as
      backfilled up to today with a success notice, even when a request failed. */
  method FetchPaginatedHistoric(store: Store, coin: Coin, limit: int, totalDays: int,
                                api: Request -> Response, clock: Clock)
    requires limit >= 1
    modifies store, coin
    ensures var run := Final(Start(totalDays, clock.now), limit, api, clock);
      store.rows == old(store.rows) + RowsOf(coin.id, run.saved, clock)
    ensures coin.historyCheck == Some(true) && coin.lastTimeTracked == clock.todayStart
    ensures store.outbox == old(store.outbox) + [InsertedNote(coin.webhook, coin.name)]
  {
    var validCount := PageBackwards(store, coin.id, limit, totalDays, api, clock);
    var countInserted := CountFor(store.rows, coin.id);
    if countInserted >= validCount {
      coin.historyCheck := Some(true);
      coin.lastTimeTracked := clock.todayStart;
      store.outbox := store.outbox + [InsertedNote(coin.webhook, coin.name)];
    }
  }
}
