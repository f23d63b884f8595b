/** Fetching a long candle history page by page from a terminal whose history grows while it is being read. */
module Pagination {
  import opened Market

  const MAX_CANDLES_PER_CALL: nat := 5000
  const MAX_PAGES: nat := 5

  datatype Candle = Candle(time: int, data: Bar)

  predicate Ascending(h: seq<Candle>) {
    forall i, j :: 0 <= i < j < |h| ==> h[i].time < h[j].time
  }

  /** What the terminal holds at each call: it only gains candles at the recent end, at most a page at a time. */
  predicate Grows(hs: seq<seq<Candle>>) {
    && |hs| == MAX_PAGES
    && (forall k :: 0 <= k < |hs| ==> Ascending(hs[k]))
    && (forall k :: 0 <= k < |hs| - 1 ==> hs[k] <= hs[k + 1] && |hs[k + 1]| <= |hs[k]| + MAX_CANDLES_PER_CALL)
  }

  function ClipAtZero(x: int): nat { if x < 0 then 0 else x }

  /** One call: up to `count` candles, oldest first, skipping the `start` most recent ones. */
  function Page(h: seq<Candle>, count: nat, start: nat): (page: seq<Candle>)
    ensures |page| <= count
  {
    h[ClipAtZero(|h| - start - count)..ClipAtZero(|h| - start)]
  }

  /** The oldest candle reached after call k. */
  function Reached(hs: seq<seq<Candle>>, k: nat): nat
    requires k < |hs|
  {
    ClipAtZero(|hs[k]| - MAX_CANDLES_PER_CALL * (k + 1))
  }

  lemma {:induction false} PrefixOf(hs: seq<seq<Candle>>, i: nat, j: nat)
    requires Grows(hs) && i <= j < MAX_PAGES
    ensures hs[i] <= hs[j]
  {
    if i < j { PrefixOf(hs, i, j - 1); }
  }

  // ---------- the merge ----------

  /** The times of the candles at indices lo .. hi-1. */
  function Times(h: seq<Candle>, lo: nat, hi: nat): set<int>
    requires lo <= hi <= |h|
    decreases hi - lo
  {
    if lo == hi then {} else Times(h, lo, hi - 1) + {h[hi - 1].time}
  }

  /** The merge holds candles of h, each under its own time, for exactly these times. */
  ghost predicate Holds(merged: map<int, Candle>, h: seq<Candle>, times: set<int>) {
    merged.Keys == times && forall t :: t in merged ==> merged[t].time == t && merged[t] in h
  }

  lemma {:induction false} InTimes(h: seq<Candle>, lo: nat, hi: nat, t: int)
    requires lo <= hi <= |h|
    ensures t in Times(h, lo, hi) <==> exists i :: lo <= i < hi && h[i].time == t
    decreases hi - lo
  {
    if lo < hi {
      InTimes(h, lo, hi - 1, t);
      if t == h[hi - 1].time { assert lo <= hi - 1 < hi; }
    }
  }

  lemma {:induction false} TimesSplit(h: seq<Candle>, lo: nat, mid: nat, hi: nat)
    requires lo <= mid <= hi <= |h|
    ensures Times(h, lo, hi) == Times(h, lo, mid) + Times(h, mid, hi)
    decreases hi - mid
  {
    if mid < hi { TimesSplit(h, lo, mid, hi - 1); }
  }

  lemma TimesOverlap(h: seq<Candle>, lo: nat, mid: nat, mid': nat, hi: nat)
    requires lo <= mid <= mid' <= hi <= |h|
    ensures Times(h, mid, hi) + Times(h, lo, mid') == Times(h, lo, hi)
  {
    hide Times;
    TimesSplit(h, lo, mid, hi);
    TimesSplit(h, lo, mid, mid');
    TimesSplit(h, mid, mid', hi);
  }

  /** A block holds each time once. */
  lemma {:induction false} TimesCount(h: seq<Candle>, lo: nat, hi: nat)
    requires Ascending(h) && lo <= hi <= |h|
    ensures |Times(h, lo, hi)| == hi - lo
    decreases hi - lo
  {
    if lo < hi {
      TimesCount(h, lo, hi - 1);
      InTimes(h, lo, hi - 1, h[hi - 1].time);
    }
  }

  lemma {:induction false} HasLeast(s: set<int>)
    requires s != {}
    ensures exists t :: t in s && forall u :: u in s ==> t <= u
    decreases |s|
  {
    assert (forall x: int :: x !in s) ==> s == {};
    var x :| x in s;
    var rest := s - {x};
    if rest == {} {
      assert forall u :: u in s ==> u == x || u in rest;
    } else {
      HasLeast(rest);
      var t :| t in rest && forall u :: u in rest ==> t <= u;
      assert forall u :: u in s ==> u == x || u in rest;
      var least := if x < t then x else t;
      assert least in s && forall u :: u in s ==> least <= u;
    }
  }

  /** The merged candles in ascending order of time. */
  method SortByTime(merged: map<int, Candle>) returns (bars: seq<Candle>)
    requires forall t :: t in merged ==> merged[t].time == t
    ensures Ascending(bars)
    ensures forall i :: 0 <= i < |bars| ==> bars[i].time in merged && merged[bars[i].time] == bars[i]
    ensures forall t :: t in merged ==> merged[t] in bars
  {
    bars := [];
    var left := merged.Keys;
    while left != {}
      invariant left <= merged.Keys && Ascending(bars)
      invariant forall i :: 0 <= i < |bars| ==> bars[i].time in merged && merged[bars[i].time] == bars[i]
      invariant forall t :: t in merged ==> t in left || merged[t] in bars
      invariant forall i, t :: 0 <= i < |bars| && t in left ==> bars[i].time < t
      decreases |left|
    {
      HasLeast(left);
      var t :| t in left && forall u :: u in left ==> t <= u;
      bars := bars + [merged[t]];
      left := left - {t};
    }
  }

  lemma HasFirst(a: seq<Candle>)
    ensures a == [] || a[0] in a
  {
  }

  /** A sorted sequence is determined by what it contains. */
  lemma {:induction false} SortedUnique(a: seq<Candle>, b: seq<Candle>)
    requires Ascending(a) && Ascending(b)
    requires forall c :: c in a <==> c in b
    ensures a == b
  {
    if a == [] || b == [] {
      HasFirst(a);
      HasFirst(b);
    } else {
      var n, m := |a| - 1, |b| - 1;
      assert a[n] in b && b[m] in a;
      assert a[n] == b[m];
      forall c ensures c in a[..n] <==> c in b[..m] {
        if c in a[..n] { assert c in a && c != a[n]; }
        if c in b[..m] { assert c in b && c != b[m]; }
      }
      SortedUnique(a[..n], b[..m]);
      assert a == a[..n] + [a[n]] && b == b[..m] + [b[m]];
    }
  }

  lemma SortedBlock(bars: seq<Candle>, merged: map<int, Candle>, h: seq<Candle>, lo: nat, hi: nat)
    requires Ascending(h) && lo <= hi <= |h| && Holds(merged, h, Times(h, lo, hi)) && Ascending(bars)
    requires forall i :: 0 <= i < |bars| ==> bars[i].time in merged && merged[bars[i].time] == bars[i]
    requires forall t :: t in merged ==> merged[t] in bars
    ensures bars == h[lo..hi]
  {
    hide Times;
    forall c ensures c in bars <==> c in h[lo..hi] {
      InTimes(h, lo, hi, c.time);
      if c in bars {
        var i :| lo <= i < hi && h[i].time == c.time;
        assert h[lo..hi][i - lo] == c;
      }
      if c in h[lo..hi] {
        var i :| 0 <= i < hi - lo && h[lo..hi][i] == c;
        assert h[lo + i].time == c.time;
        assert merged[c.time] == c;
      }
    }
    SortedUnique(bars, h[lo..hi]);
  }

  // ---------- the calls ----------

  /** After call k, the fetch stops: enough candles, or a page that is not full. */
  predicate Stops(hs: seq<seq<Candle>>, needed: int, k: nat)
    requires k < |hs|
  {
    || |hs[0]| - Reached(hs, k) >= needed
    || |Page(hs[k], MAX_CANDLES_PER_CALL, MAX_CANDLES_PER_CALL * k)| < MAX_CANDLES_PER_CALL
  }

  /** The last call made. */
  function LastCall(hs: seq<seq<Candle>>, needed: int, k: nat): (r: nat)
    requires k < |hs| == MAX_PAGES
    ensures k <= r < MAX_PAGES && (r == MAX_PAGES - 1 || Stops(hs, needed, r))
    decreases MAX_PAGES - k
  {
    if k == MAX_PAGES - 1 || Stops(hs, needed, k) then k else LastCall(hs, needed, k + 1)
  }

  /** Each page starts where the one before it left off, or overlaps it. */
  lemma PagesMeet(hs: seq<seq<Candle>>, k: nat)
    requires Grows(hs) && k < MAX_PAGES
    ensures Reached(hs, k) <= |hs[0]| <= |hs[k]|
    ensures k > 0 ==> Reached(hs, k) <= Reached(hs, k - 1)
    ensures k > 0 ==> ClipAtZero(|hs[k]| - MAX_CANDLES_PER_CALL * k) >= Reached(hs, k - 1)
    ensures ClipAtZero(|hs[k]| - MAX_CANDLES_PER_CALL * k) <= |hs[0]|
  {
    PrefixOf(hs, 0, k);
    GrowthBound(hs, k);
  }

  lemma {:induction false} GrowthBound(hs: seq<seq<Candle>>, k: nat)
    requires Grows(hs) && k < MAX_PAGES
    ensures |hs[k]| <= |hs[0]| + MAX_CANDLES_PER_CALL * k
  {
    if k > 0 { GrowthBound(hs, k - 1); }
  }

  /** `merged` takes over a page, candle by candle. */
  method TakePage(merged: map<int, Candle>, page: seq<Candle>, ghost h: seq<Candle>, ghost lo: nat, ghost hi: nat)
    returns (merged': map<int, Candle>)
    requires lo <= hi <= |h| && page == h[lo..hi] && Holds(merged, h, merged.Keys)
    ensures Holds(merged', h, merged.Keys + Times(h, lo, hi))
  {
    merged' := merged;
    for j := 0 to |page|
      invariant Holds(merged', h, merged.Keys + Times(h, lo, lo + j))
    {
      assert page[j] == h[lo + j];
      merged' := merged'[page[j].time := page[j]];
    }
    assert lo + |page| == hi;
  }

  /** The candles from the oldest one reached up to the newest one of the first call, in order, without gaps or
      duplicates; `hs[k]` is what the terminal holds at call k. */
  method GetCandlesPaginated(hs: seq<seq<Candle>>, needed: int) returns (bars: seq<Candle>)
    requires Grows(hs)
    ensures var r := Reached(hs, LastCall(hs, needed, 0));
            r <= |hs[0]| && bars == hs[0][r..] && Ascending(bars)
  {
    hide Holds, Page, Times, LastCall, Reached, Stops, Grows, Ascending;
    Within(hs);
    ghost var h, n := hs[MAX_PAGES - 1], |hs[0]|;
    var allBars: map<int, Candle> := map[];
    ghost var lo := n;
    EmptyHolds(h, n);
    var k := 0;
    while k < MAX_PAGES
      invariant 0 <= k <= MAX_PAGES == |hs|
      invariant lo == if k == 0 then n else Reached(hs, k - 1)
      invariant lo <= n && Holds(allBars, h, Times(h, lo, n))
      invariant k < MAX_PAGES ==> LastCall(hs, needed, 0) == LastCall(hs, needed, k)
      invariant k == MAX_PAGES ==> LastCall(hs, needed, 0) == MAX_PAGES - 1
      decreases MAX_PAGES - k
    {
      var stop;
      allBars, stop := MergePage(hs, needed, k, allBars, lo);
      lo := Reached(hs, k);
      LastCallStep(hs, needed, k);
      k := k + 1;
      if stop {
        break;
      }
    }
    bars := SortedCandles(allBars, h, lo, n);
    assert h[lo..n] == hs[0][lo..];
  }

  /** The merged block in ascending order of time. */
  method SortedCandles(merged: map<int, Candle>, ghost h: seq<Candle>, ghost lo: nat, ghost hi: nat)
    returns (bars: seq<Candle>)
    requires Ascending(h) && lo <= hi <= |h| && Holds(merged, h, Times(h, lo, hi))
    ensures bars == h[lo..hi] && Ascending(bars)
  {
    hide Holds, Times, Ascending;
    HeldKeys(merged, h, lo, hi);
    bars := SortByTime(merged);
    SortedBlock(bars, merged, h, lo, hi);
  }

  /** One turn of the loop: fetch page k, merge it, and say whether to stop. */
  method MergePage(hs: seq<seq<Candle>>, needed: int, k: nat, allBars: map<int, Candle>, ghost lo: nat)
    returns (allBars': map<int, Candle>, stop: bool)
    requires Grows(hs) && k < |hs| == MAX_PAGES
    requires lo == if k == 0 then |hs[0]| else Reached(hs, k - 1)
    requires lo <= |hs[0]| <= |hs[MAX_PAGES - 1]|
             && Holds(allBars, hs[MAX_PAGES - 1], Times(hs[MAX_PAGES - 1], lo, |hs[0]|))
    ensures Reached(hs, k) <= |hs[0]|
    ensures Holds(allBars', hs[MAX_PAGES - 1], Times(hs[MAX_PAGES - 1], Reached(hs, k), |hs[0]|))
    ensures stop <==> Stops(hs, needed, k)
  {
    hide Holds, Page, Times, Grows, Ascending;
    ghost var h, n := hs[MAX_PAGES - 1], |hs[0]|;
    var startPos := MAX_CANDLES_PER_CALL * k;
    var page := Page(hs[k], MAX_CANDLES_PER_CALL, startPos);
    PagesMeet(hs, k);
    PageIs(hs, k);
    ghost var reach, upper := Reached(hs, k), ClipAtZero(|hs[k]| - MAX_CANDLES_PER_CALL * k);
    HeldKeys(allBars, h, lo, n);
    allBars' := TakePage(allBars, page, h, reach, upper);
    TimesOverlap(h, reach, lo, upper, n);
    HeldKeys(allBars', h, reach, n);
    stop := |allBars'| >= needed || |page| < MAX_CANDLES_PER_CALL;
  }

  lemma Within(hs: seq<seq<Candle>>)
    requires Grows(hs)
    ensures |hs| == MAX_PAGES && |hs[0]| <= |hs[MAX_PAGES - 1]| && hs[0] <= hs[MAX_PAGES - 1]
            && Ascending(hs[MAX_PAGES - 1])
  {
    PrefixOf(hs, 0, MAX_PAGES - 1);
  }

  lemma EmptyHolds(h: seq<Candle>, n: nat)
    requires n <= |h|
    ensures Holds(map[], h, Times(h, n, n))
  {
  }

  /** The merge counts each candle of the block once. */
  lemma HeldKeys(merged: map<int, Candle>, h: seq<Candle>, lo: nat, hi: nat)
    requires Ascending(h) && lo <= hi <= |h| && Holds(merged, h, Times(h, lo, hi))
    ensures |merged| == hi - lo && merged.Keys == Times(h, lo, hi) && Holds(merged, h, merged.Keys)
    ensures forall t :: t in merged ==> merged[t].time == t
  {
    TimesCount(h, lo, hi);
    assert |merged| == |merged.Keys|;
  }

  lemma LastCallStep(hs: seq<seq<Candle>>, needed: int, k: nat)
    requires k < |hs| == MAX_PAGES
    ensures LastCall(hs, needed, k) == if k == MAX_PAGES - 1 || Stops(hs, needed, k) then k
            else LastCall(hs, needed, k + 1)
  {
  }

  lemma PageIs(hs: seq<seq<Candle>>, k: nat)
    requires Grows(hs) && k < MAX_PAGES
    ensures Ascending(hs[MAX_PAGES - 1]) && |hs[k]| <= |hs[MAX_PAGES - 1]|
    ensures var reach, upper := Reached(hs, k), ClipAtZero(|hs[k]| - MAX_CANDLES_PER_CALL * k);
            reach <= upper <= |hs[k]|
            && Page(hs[k], MAX_CANDLES_PER_CALL, MAX_CANDLES_PER_CALL * k) == hs[MAX_PAGES - 1][reach..upper]
  {
    PrefixOf(hs, k, MAX_PAGES - 1);
  }

  // ---------- how long the result is ----------

  function Least3(a: int, b: int, c: int): int { Min(a, Min(b, c)) }

  /** The result is as long as the least of what was asked for, what was there at the first call and five full pages
      exactly when the candles that arrived between the calls do not push that length out of the five pages' reach. */
  lemma LengthReached(hs: seq<seq<Candle>>, needed: int)
    requires Grows(hs)
    ensures var k := LastCall(hs, needed, 0);
            var wanted := Least3(needed, |hs[0]|, MAX_PAGES * MAX_CANDLES_PER_CALL);
            var arrived := |hs[k]| - |hs[0]|;
            |hs[0]| - Reached(hs, k) >= wanted <==> wanted <= MAX_PAGES * MAX_CANDLES_PER_CALL - arrived
  {
    var k := LastCall(hs, needed, 0);
    PrefixOf(hs, 0, k);
  }

  /** A history that does not grow during the fetch always gives the promised length. */
  lemma LengthWhenStill(hs: seq<seq<Candle>>, needed: int)
    requires Grows(hs) && |hs[MAX_PAGES - 1]| == |hs[0]|
    ensures |hs[0]| - Reached(hs, LastCall(hs, needed, 0)) >= Least3(needed, |hs[0]|, MAX_PAGES * MAX_CANDLES_PER_CALL)
  {
    var k := LastCall(hs, needed, 0);
    PrefixOf(hs, 0, k);
    PrefixOf(hs, k, MAX_PAGES - 1);
    LengthReached(hs, needed);
  }

  function Terminal(length: nat): seq<Candle> {
    seq(length, i => Candle(i, Bar(i, 0.0, 0.0, 0.0)))
  }

  /** One candle that arrives between the first two calls costs one candle of a full fetch. */
  lemma OneArrivalShortens()
    ensures var hs := [Terminal(30000), Terminal(30001), Terminal(30001), Terminal(30001), Terminal(30001)];
            Grows(hs) && |hs[0]| - Reached(hs, LastCall(hs, 25000, 0)) == 24999
  {
    var a, b := Terminal(30000), Terminal(30001);
    assert a <= b;
    var hs := [a, b, b, b, b];
    LastCallStep(hs, 25000, 0);
    LastCallStep(hs, 25000, 1);
    LastCallStep(hs, 25000, 2);
    LastCallStep(hs, 25000, 3);
    LastCallStep(hs, 25000, 4);
  }
}
