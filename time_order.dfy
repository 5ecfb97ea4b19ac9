/** Ordering upstream points by time, as the sync engine does before scanning a page:
    newest first for the daily backfill, oldest first for the hourly top-up. The sort is
    stable, like Python's: points with equal times keep their upstream order. */
module TimeOrder {
  import opened Candles

  /** `a` may stand before `b`: by descending time when `desc`, by ascending time otherwise. */
  predicate InOrder(a: Point, b: Point, desc: bool)
  {
    if desc then a.time >= b.time else a.time <= b.time
  }

  predicate Ordered(s: seq<Point>, desc: bool)
  {
    forall i, j :: 0 <= i < j < |s| ==> InOrder(s[i], s[j], desc)
  }

  /** Puts `p` in front of the first point it may precede. */
  function Insert(p: Point, s: seq<Point>, desc: bool): (r: seq<Point>)
    ensures |r| == |s| + 1
  {
    if s == [] || InOrder(p, s[0], desc) then [p] + s
    else [s[0]] + Insert(p, s[1..], desc)
  }

  lemma {:induction false} InsertOrdered(p: Point, s: seq<Point>, desc: bool)
    requires Ordered(s, desc)
    ensures Ordered(Insert(p, s, desc), desc)
    ensures Insert(p, s, desc)[0] == p || (|s| > 0 && Insert(p, s, desc)[0] == s[0])
    decreases |s|
  {
    if s != [] && !InOrder(p, s[0], desc) {
      var rest := Insert(p, s[1..], desc);
      InsertOrdered(p, s[1..], desc);
      assert InOrder(s[0], rest[0], desc);
      assert forall j :: 0 <= j < |rest| ==> InOrder(s[0], rest[j], desc);
    }
  }

  lemma {:induction false} InsertPermutes(p: Point, s: seq<Point>, desc: bool)
    ensures multiset(Insert(p, s, desc)) == multiset(s) + multiset{p}
    decreases |s|
  {
    if s != [] && !InOrder(p, s[0], desc) {
      InsertPermutes(p, s[1..], desc);
      assert s == [s[0]] + s[1..];
    }
  }

  /** Python's `sorted(points, key=time, reverse=desc)`. */
  function SortByTime(s: seq<Point>, desc: bool): (r: seq<Point>)
    ensures |r| == |s|
  {
    if s == [] then []
    else Insert(s[0], SortByTime(s[1..], desc), desc)
  }

  /** The sort orders the points by time. */
  lemma {:induction false} SortOrdered(s: seq<Point>, desc: bool)
    ensures Ordered(SortByTime(s, desc), desc)
    decreases |s|
  {
    if s != [] {
      SortOrdered(s[1..], desc);
      InsertOrdered(s[0], SortByTime(s[1..], desc), desc);
    }
  }

  /** The sort keeps every point, as many times as it occurs. */
  lemma {:induction false} SortPermutes(s: seq<Point>, desc: bool)
    ensures multiset(SortByTime(s, desc)) == multiset(s)
    decreases |s|
  {
    if s != [] {
      SortPermutes(s[1..], desc);
      InsertPermutes(s[0], SortByTime(s[1..], desc), desc);
      assert s == [s[0]] + s[1..];
    }
  }
}
