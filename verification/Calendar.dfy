/** Bars and dates: how a feed of bars falls into days. */
module Calendar {
  import opened Market

  function DateOf(b: Bar): int { b.time / 1440 }

  function ClockOf(b: Bar): int { b.time % 1440 }

  ghost predicate Increasing(bars: seq<Bar>) {
    forall x, y :: 0 <= x < y < |bars| ==> bars[x].time < bars[y].time
  }

  ghost predicate OfDate(bars: seq<Bar>, date: int) {
    forall x :: 0 <= x < |bars| ==> DateOf(bars[x]) == date
  }

  ghost predicate NonEmpty(days: seq<seq<Bar>>) {
    forall k :: 0 <= k < |days| ==> days[k] != []
  }

  function Flatten(days: seq<seq<Bar>>): seq<Bar> {
    if days == [] then [] else Flatten(days[..|days| - 1]) + days[|days| - 1]
  }

  /** Bars split into runs of one date, in order. */
  function ByDate(bars: seq<Bar>): (days: seq<seq<Bar>>)
    ensures NonEmpty(days) && (days == [] <==> bars == [])
  {
    if bars == [] then []
    else
      var days, b := ByDate(bars[..|bars| - 1]), bars[|bars| - 1];
      if days != [] && DateOf(days[|days| - 1][0]) == DateOf(b)
      then days[..|days| - 1] + [days[|days| - 1] + [b]]
      else days + [[b]]
  }

  lemma ByDateOne(b: Bar)
    ensures ByDate([b]) == [[b]]
  {
    assert [b][..0] == [];
  }

  /** One more bar joins the last run or starts a new one. */
  lemma ByDateSplit(bars: seq<Bar>, days: seq<seq<Bar>>, last: seq<Bar>, b: Bar)
    requires days + [last] == ByDate(bars) && last != []
    ensures ByDate(bars + [b]) ==
            if DateOf(last[0]) == DateOf(b) then days + [last + [b]] else days + [last] + [[b]]
  {
    assert (bars + [b])[..|bars|] == bars;
    var all := days + [last];
    assert all[..|all| - 1] == days && all[|all| - 1] == last;
  }

  /** Whole days: each run carries one date, the dates strictly increase, and nothing is lost. */
  ghost predicate AreDays(bars: seq<Bar>, days: seq<seq<Bar>>) {
    && Flatten(days) == bars && NonEmpty(days)
    && (forall k :: 0 <= k < |days| ==> OfDate(days[k], DateOfDay(days, k)))
    && (forall k, m :: 0 <= k < m < |days| ==> DateOfDay(days, k) < DateOfDay(days, m))
  }

  function DateOfDay(days: seq<seq<Bar>>, k: nat): int
    requires k < |days|
  {
    if days[k] == [] then 0 else DateOf(days[k][0])
  }

  /** Of bars in increasing order the runs are whole days. */
  lemma {:induction false} ByDateIsDays(bars: seq<Bar>)
    requires Increasing(bars)
    ensures AreDays(bars, ByDate(bars))
    ensures bars != [] ==> DateOfDay(ByDate(bars), |ByDate(bars)| - 1) == DateOf(bars[|bars| - 1])
  {
    hide DateOf, AreDays, ByDate;
    if bars == [] {
      FirstDay(Bar(0, 0.0, 0.0, 0.0));
    } else {
      var n := |bars| - 1;
      var init, b := bars[..n], bars[n];
      ByDateIsDays(init);
      assert bars == init + [b];
      if n == 0 {
        FirstDay(b);
      } else {
        LaterDate(init[n - 1], b);
        var days0 := ByDate(init);
        var m := |days0| - 1;
        assert days0 == days0[..m] + [days0[m]];
        ByDateSplit(init, days0[..m], days0[m], b);
        if DateOf(days0[m][0]) == DateOf(b) { GrowLast(init, days0, b); } else { AddDay(init, days0, b); }
      }
    }
  }

  lemma FirstDay(b: Bar)
    ensures AreDays([], ByDate([])) && AreDays([b], ByDate([b]))
    ensures ByDate([b]) == [[b]] && DateOfDay([[b]], 0) == DateOf(b)
  {
    hide DateOf;
    ByDateOne(b);
    assert [[b]][..0] == [] && Flatten([[b]]) == [b];
  }

  lemma GrowLast(bars: seq<Bar>, days: seq<seq<Bar>>, b: Bar)
    requires AreDays(bars, days) && days != [] && DateOfDay(days, |days| - 1) == DateOf(b)
    ensures AreDays(bars + [b], days[..|days| - 1] + [days[|days| - 1] + [b]])
    ensures DateOfDay(days[..|days| - 1] + [days[|days| - 1] + [b]], |days| - 1) == DateOf(b)
  {
    hide DateOf;
    var m := |days| - 1;
    var days' := days[..m] + [days[m] + [b]];
    assert days'[..m] == days[..m];
    assert forall k :: 0 <= k < |days| ==> DateOfDay(days', k) == DateOfDay(days, k);
    assert Flatten(days') == bars + [b];
  }

  lemma AddDay(bars: seq<Bar>, days: seq<seq<Bar>>, b: Bar)
    requires AreDays(bars, days) && days != [] && DateOfDay(days, |days| - 1) < DateOf(b)
    ensures AreDays(bars + [b], days + [[b]])
    ensures DateOfDay(days + [[b]], |days|) == DateOf(b)
  {
    hide DateOf;
    var days' := days + [[b]];
    assert days'[..|days|] == days;
    assert forall k :: 0 <= k < |days| ==> DateOfDay(days', k) == DateOfDay(days, k);
  }

  lemma LaterDate(a: Bar, b: Bar)
    requires a.time < b.time
    ensures DateOf(a) <= DateOf(b)
  {
  }

  /** A bar lies in the run of its date and in no other, so each run is every bar of its date. */
  lemma WholeDay(bars: seq<Bar>, days: seq<seq<Bar>>, k: nat, b: Bar)
    requires AreDays(bars, days) && k < |days|
    ensures b in days[k] <==> b in bars && DateOf(b) == DateOfDay(days, k)
  {
    hide DateOf;
    InFlatten(days, b);
    if b in bars && DateOf(b) == DateOfDay(days, k) {
      var m :| 0 <= m < |days| && b in days[m];
      assert DateOfDay(days, m) == DateOf(b);
    }
  }

  lemma {:induction false} InFlatten(days: seq<seq<Bar>>, b: Bar)
    ensures b in Flatten(days) <==> exists k :: 0 <= k < |days| && b in days[k]
  {
    if days != [] {
      var m := |days| - 1;
      InFlatten(days[..m], b);
      if b in days[m] { assert b in Flatten(days); }
      if exists k :: 0 <= k < m && b in days[..m][k] {
        var k :| 0 <= k < m && b in days[..m][k];
        assert b in days[k];
      }
    }
  }
}
