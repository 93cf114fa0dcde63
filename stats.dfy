/**
 * The journal's derived views: the day view (the selected day's trades, newest first), the
 * daily figures shown on the dashboard, the win rate and the all-time point total. All are
 * recomputed from the trade list on every read.
 */
module Stats {
  import opened Types

  /** `t.pnlPoints || 0`: a missing pnl counts as zero. */
  function PnlOrZero(t: Trade): (r: int)
    ensures t.pnlPoints.Some? ==> r == t.pnlPoints.value
    ensures t.pnlPoints.None? ==> r == 0
  {
    t.pnlPoints.GetOr(0)
  }

  /** `Array.prototype.filter`: the entries satisfying `p`, in order. */
  function Filter(s: seq<Trade>, p: Trade -> bool): (r: seq<Trade>)
    ensures |r| <= |s|
    ensures forall i :: 0 <= i < |r| ==> p(r[i])
    ensures (forall i :: 0 <= i < |s| ==> p(s[i])) ==> r == s
  {
    if s == [] then [] else (if p(s[0]) then [s[0]] else []) + Filter(s[1..], p)
  }

  /** The filter keeps exactly the entries satisfying `p`. */
  lemma {:induction false} FilterMembers(s: seq<Trade>, p: Trade -> bool)
    ensures forall t :: t in Filter(s, p) <==> t in s && p(t)
  {
    if s != [] {
      FilterMembers(s[1..], p);
      assert s == [s[0]] + s[1..];
    }
  }

  /** `t.status === TradeStatus.CLOSED`: with two statuses, exactly the trades not OPEN. */
  predicate IsClosed(t: Trade)
    ensures IsClosed(t) <==> t.status != Open
  {
    t.status == Closed
  }

  /** `(t.pnlPoints || 0) > 0`: a trade without a pnl is never a win. */
  predicate IsWin(t: Trade)
    ensures IsWin(t) <==> t.pnlPoints.Some? && t.pnlPoints.value > 0
  {
    PnlOrZero(t) > 0
  }

  /** `(t.pnlPoints || 0) < 0`: a trade without a pnl is never a loss, and no win is a loss. */
  predicate IsLoss(t: Trade)
    ensures IsLoss(t) <==> t.pnlPoints.Some? && t.pnlPoints.value < 0
    ensures IsLoss(t) ==> !IsWin(t)
  {
    PnlOrZero(t) < 0
  }

  /** `t => t.date === selectedDate`. */
  function OnDay(d: string): (p: Trade -> bool)
    ensures forall t: Trade :: p(t) <==> t.date == d
  {
    (t: Trade) => t.date == d
  }

  /** The complement of `OnDay(d)`: the trades of every other date. */
  function OffDay(d: string): (p: Trade -> bool)
    ensures forall t: Trade :: p(t) <==> !OnDay(d)(t)
  {
    (t: Trade) => t.date != d
  }

  /** `reduce((acc, t) => acc + (t.pnlPoints || 0), 0)`. */
  function SumPnl(s: seq<Trade>): (r: int)
    ensures (forall i :: 0 <= i < |s| ==> PnlOrZero(s[i]) >= 0) ==> r >= 0
    ensures (forall i :: 0 <= i < |s| ==> PnlOrZero(s[i]) <= 0) ==> r <= 0
  {
    if s == [] then 0 else PnlOrZero(s[0]) + SumPnl(s[1..])
  }

  /** Newest first: timestamps never increase along the list. */
  predicate SortedDesc(s: seq<Trade>) {
    forall i, j :: 0 <= i < j < |s| ==> s[i].timestamp >= s[j].timestamp
  }

  /** Places `t` before the first entry that is not newer than it (so ties keep input order). */
  function InsertDesc(t: Trade, s: seq<Trade>): (r: seq<Trade>)
    requires SortedDesc(s)
    ensures SortedDesc(r)
    ensures |r| == |s| + 1
    ensures r[0] == (if s == [] || s[0].timestamp <= t.timestamp then t else s[0])
  {
    if s == [] then [t]
    else if s[0].timestamp <= t.timestamp then [t] + s
    else
      var rest := InsertDesc(t, s[1..]);
      assert s[0].timestamp >= rest[0].timestamp;
      [s[0]] + rest
  }

  /** Insertion adds exactly the one trade. */
  lemma {:induction false} InsertMultiset(t: Trade, s: seq<Trade>)
    requires SortedDesc(s)
    ensures multiset(InsertDesc(t, s)) == multiset(s) + multiset{t}
  {
    if s != [] && s[0].timestamp > t.timestamp {
      InsertMultiset(t, s[1..]);
      assert s == [s[0]] + s[1..];
    }
  }

  /** `sort((a, b) => b.timestamp - a.timestamp)`, a stable sort, newest first. */
  function SortDesc(s: seq<Trade>): (r: seq<Trade>)
    ensures SortedDesc(r)
    ensures multiset(r) == multiset(s)
  {
    if s == [] then []
    else
      assert s == [s[0]] + s[1..];
      var sorted := SortDesc(s[1..]);
      InsertMultiset(s[0], sorted);
      InsertDesc(s[0], sorted)
  }

  /** The day view: exactly the trades dated `d`, newest first. */
  function DayView(ts: seq<Trade>, d: string): (r: seq<Trade>)
    ensures SortedDesc(r)
    ensures multiset(r) == multiset(Filter(ts, OnDay(d)))
    ensures forall t :: t in r <==> t in ts && t.date == d
  {
    var f := Filter(ts, OnDay(d));
    var r := SortDesc(f);
    FilterMembers(ts, OnDay(d));
    forall t ensures t in r <==> t in f {
      assert t in r <==> t in multiset(r);
      assert t in f <==> t in multiset(f);
    }
    r
  }

  datatype DailyStats = DailyStats(total: nat, closedCount: nat, points: int, wins: nat, losses: nat)

  /** The dashboard figures for one day view. */
  function DailyStatsOf(view: seq<Trade>): (r: DailyStats)
    ensures r.total == |view|
    ensures r.closedCount == |Filter(view, IsClosed)|
    ensures r.points == SumPnl(Filter(view, IsClosed))
    ensures r.wins == |Filter(Filter(view, IsClosed), IsWin)|
    ensures r.losses == |Filter(Filter(view, IsClosed), IsLoss)|
    ensures r.wins + r.losses <= r.closedCount <= r.total
  {
    var closed := Filter(view, IsClosed);
    WinsLossesBound(closed);
    DailyStats(|view|, |closed|, SumPnl(closed), |Filter(closed, IsWin)|, |Filter(closed, IsLoss)|)
  }

  /** A trade is never both a win and a loss, so the two counts together fit in the list. */
  lemma {:induction false} WinsLossesBound(s: seq<Trade>)
    ensures |Filter(s, IsWin)| + |Filter(s, IsLoss)| <= |s|
  {
    if s != [] {
      WinsLossesBound(s[1..]);
    }
  }

  /** The header figure: the point total of every closed trade, whatever the selected date. */
  function AllTimePoints(ts: seq<Trade>): (r: int)
    ensures (forall i :: 0 <= i < |ts| ==> ts[i].status == Open) ==> r == 0
  {
    NoneClosedFiltersEmpty(ts);
    SumPnl(Filter(ts, IsClosed))
  }

  lemma {:induction false} NoneClosedFiltersEmpty(ts: seq<Trade>)
    ensures (forall i :: 0 <= i < |ts| ==> ts[i].status == Open) ==> Filter(ts, IsClosed) == []
  {
    if ts != [] {
      NoneClosedFiltersEmpty(ts[1..]);
      if forall i :: 0 <= i < |ts| ==> ts[i].status == Open {
        assert forall i :: 0 <= i < |ts[1..]| ==> ts[1..][i].status == Open by {
          forall i | 0 <= i < |ts[1..]| ensures ts[1..][i].status == Open {
            assert ts[1..][i] == ts[i + 1];
          }
        }
      }
    }
  }

  /** A newly saved trade adds its pnl to the all-time total if it is closed, and nothing if open. */
  lemma AllTimePrepend(t: Trade, ts: seq<Trade>)
    ensures AllTimePoints([t] + ts) == (if t.status == Closed then PnlOrZero(t) else 0) + AllTimePoints(ts)
  {
    FilterCons(t, ts, IsClosed);
    SumPnlConcat(if IsClosed(t) then [t] else [], Filter(ts, IsClosed));
  }

  /** The filter keeps the order of the list: filtering a concatenation concatenates the filters. */
  lemma {:induction false} FilterConcat(a: seq<Trade>, b: seq<Trade>, p: Trade -> bool)
    ensures Filter(a + b, p) == Filter(a, p) + Filter(b, p)
  {
    if a == [] {
      assert a + b == b;
    } else {
      var ab := a + b;
      assert ab[0] == a[0];
      assert ab[1..] == a[1..] + b;
      FilterConcat(a[1..], b, p);
      var head := if p(a[0]) then [a[0]] else [];
      var x, y := Filter(a[1..], p), Filter(b, p);
      calc {
        Filter(ab, p);
        head + Filter(a[1..] + b, p);
        head + (x + y);
        (head + x) + y;
      }
    }
  }

  /** `Math.round(wins / closedCount * 100)`, or 0 with no closed trade. */
  function WinRate(s: DailyStats): (r: int)
    ensures s.closedCount == 0 ==> r == 0
    ensures s.closedCount > 0 ==>
      2 * r * s.closedCount <= 200 * s.wins + s.closedCount < 2 * (r + 1) * s.closedCount
    ensures s.wins <= s.closedCount ==> 0 <= r <= 100
  {
    if s.closedCount == 0 then 0
    else
      RoundedPercent(s.wins, s.closedCount);
      (200 * s.wins + s.closedCount) / (2 * s.closedCount)
  }

  /** `Math.round(w / c * 100)` is floor((200 w + c) / 2c): the nearest percentage, halves up. */
  lemma RoundedPercent(w: nat, c: nat)
    requires c > 0
    ensures var r := (200 * w + c) / (2 * c);
      2 * r * c <= 200 * w + c < 2 * (r + 1) * c &&
      (w <= c ==> 0 <= r <= 100)
  {
    var n, d := 200 * w + c, 2 * c;
    var r := n / d;
    FloorDivBounds(n, d);
    assert 2 * r * c == d * r && 2 * (r + 1) * c == d * (r + 1);
    if w <= c {
      assert n < d * 101;
      if r >= 101 {
        MulMonotone(d, 101, r);
      }
      if r < 0 {
        MulMonotone(d, r, -1);
      }
    }
  }

  lemma FloorDivBounds(n: int, d: int)
    requires d > 0
    ensures d * (n / d) <= n < d * (n / d + 1)
  {
    var q, m := n / d, n % d;
    assert n == d * q + m;
    assert d * (q + 1) == d * q + d;
  }

  lemma MulMonotone(d: int, x: int, y: int)
    requires d > 0 && x <= y
    ensures d * x <= d * y
  {
    assert d * y - d * x == d * (y - x);
  }

  // ----- the sum and the counts do not depend on the order of the list -----

  lemma FilterCons(x: Trade, s: seq<Trade>, p: Trade -> bool)
    ensures Filter([x] + s, p) == (if p(x) then [x] else []) + Filter(s, p)
  {
    assert ([x] + s)[0] == x && ([x] + s)[1..] == s;
  }

  lemma {:induction false} SumPnlConcat(a: seq<Trade>, b: seq<Trade>)
    ensures SumPnl(a + b) == SumPnl(a) + SumPnl(b)
  {
    if a == [] {
      assert a + b == b;
    } else {
      assert (a + b)[0] == a[0] && (a + b)[1..] == a[1..] + b;
      SumPnlConcat(a[1..], b);
    }
  }

  /** What one trade adds to the pnl sum of a filter. */
  function Share(t: Trade, p: Trade -> bool): int {
    if p(t) then PnlOrZero(t) else 0
  }

  lemma SumFilterHead(s: seq<Trade>, p: Trade -> bool)
    requires s != []
    ensures SumPnl(Filter(s, p)) == Share(s[0], p) + SumPnl(Filter(s[1..], p))
  {
    SumPnlConcat(if p(s[0]) then [s[0]] else [], Filter(s[1..], p));
  }

  lemma CountFilterHead(s: seq<Trade>, p: Trade -> bool)
    requires s != []
    ensures |Filter(s, p)| == (if p(s[0]) then 1 else 0) + |Filter(s[1..], p)|
  {
  }

  lemma {:induction false} InsertFilterSum(t: Trade, s: seq<Trade>, p: Trade -> bool)
    requires SortedDesc(s)
    ensures SumPnl(Filter(InsertDesc(t, s), p)) == Share(t, p) + SumPnl(Filter(s, p))
  {
    var r := InsertDesc(t, s);
    SumFilterHead(r, p);
    if s == [] {
      assert r[1..] == [];
    } else if s[0].timestamp <= t.timestamp {
      assert r[1..] == s;
    } else {
      assert r[1..] == InsertDesc(t, s[1..]);
      InsertFilterSum(t, s[1..], p);
      SumFilterHead(s, p);
    }
  }

  lemma {:induction false} InsertFilterCount(t: Trade, s: seq<Trade>, p: Trade -> bool)
    requires SortedDesc(s)
    ensures |Filter(InsertDesc(t, s), p)| == (if p(t) then 1 else 0) + |Filter(s, p)|
  {
    var r := InsertDesc(t, s);
    CountFilterHead(r, p);
    if s == [] {
      assert r[1..] == [];
    } else if s[0].timestamp <= t.timestamp {
      assert r[1..] == s;
    } else {
      assert r[1..] == InsertDesc(t, s[1..]);
      InsertFilterCount(t, s[1..], p);
      CountFilterHead(s, p);
    }
  }

  /** Sorting the day view changes neither the point sum nor the count of any filter of it. */
  lemma {:induction false} SortFilterSum(s: seq<Trade>, p: Trade -> bool)
    ensures SumPnl(Filter(SortDesc(s), p)) == SumPnl(Filter(s, p))
  {
    if s != [] {
      var sorted := SortDesc(s[1..]);
      assert SortDesc(s) == InsertDesc(s[0], sorted);
      SortFilterSum(s[1..], p);
      InsertFilterSum(s[0], sorted, p);
      SumFilterHead(s, p);
    }
  }

  lemma {:induction false} SortFilterCount(s: seq<Trade>, p: Trade -> bool)
    ensures |Filter(SortDesc(s), p)| == |Filter(s, p)|
  {
    if s != [] {
      var sorted := SortDesc(s[1..]);
      assert SortDesc(s) == InsertDesc(s[0], sorted);
      SortFilterCount(s[1..], p);
      InsertFilterCount(s[0], sorted, p);
      CountFilterHead(s, p);
    }
  }

  /** The closed trades of one day and those of all other days together make up the all-time sum. */
  lemma {:induction false} SplitByDay(ts: seq<Trade>, d: string)
    ensures SumPnl(Filter(Filter(ts, OnDay(d)), IsClosed)) + SumPnl(Filter(Filter(ts, OffDay(d)), IsClosed))
         == SumPnl(Filter(ts, IsClosed))
  {
    if ts != [] {
      var x, rest := ts[0], ts[1..];
      SplitByDay(rest, d);
      assert ts == [x] + rest;
      FilterCons(x, rest, OnDay(d));
      FilterCons(x, rest, OffDay(d));
      FilterCons(x, rest, IsClosed);
      var hc := if IsClosed(x) then [x] else [];
      SumPnlConcat(hc, Filter(rest, IsClosed));
      if x.date == d {
        assert OnDay(d)(x) && !OffDay(d)(x);
        assert Filter(ts, OffDay(d)) == Filter(rest, OffDay(d));
        assert Filter(ts, OnDay(d)) == [x] + Filter(rest, OnDay(d));
        FilterCons(x, Filter(rest, OnDay(d)), IsClosed);
        SumPnlConcat(hc, Filter(Filter(rest, OnDay(d)), IsClosed));
      } else {
        assert !OnDay(d)(x) && OffDay(d)(x);
        assert Filter(ts, OnDay(d)) == Filter(rest, OnDay(d));
        assert Filter(ts, OffDay(d)) == [x] + Filter(rest, OffDay(d));
        FilterCons(x, Filter(rest, OffDay(d)), IsClosed);
        SumPnlConcat(hc, Filter(Filter(rest, OffDay(d)), IsClosed));
      }
    }
  }

  /**
   * The all-time total is the selected day's points plus the all-time total of every other
   * day: choosing a date moves points between the two figures, never in or out of the total.
   */
  lemma AllTimeSplitsAtSelectedDay(ts: seq<Trade>, d: string)
    ensures AllTimePoints(ts) == DailyStatsOf(DayView(ts, d)).points + AllTimePoints(Filter(ts, OffDay(d)))
  {
    SortFilterSum(Filter(ts, OnDay(d)), IsClosed);
    SplitByDay(ts, d);
  }

  /** The day view lists as many trades as carry the date. */
  lemma {:induction false} DayTotalCountsDate(ts: seq<Trade>, d: string)
    ensures DailyStatsOf(DayView(ts, d)).total == |Filter(ts, OnDay(d))|
    ensures DailyStatsOf(DayView(ts, d)).closedCount == |Filter(Filter(ts, OnDay(d)), IsClosed)|
  {
    SortFilterCount(Filter(ts, OnDay(d)), IsClosed);
    var r := DayView(ts, d);
    assert |multiset(r)| == |r|;
    assert |multiset(Filter(ts, OnDay(d)))| == |Filter(ts, OnDay(d))|;
  }
}
