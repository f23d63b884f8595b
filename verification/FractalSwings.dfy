/** The streaming fractal detector of Cascade Raid, and its equivalence with the loop over whole arrays. */
module FractalSwings {
  import opened Market
  import opened FvgModel
  import opened BatchModel
  import opened CascadeSignals

  datatype HighLow = HighLow(high: real, low: real)

  datatype Confirmation = Confirmation(idx: int, high: real, low: real, swingHigh: bool, swingLow: bool)

  function Column(buf: seq<HighLow>, e: Edge): (r: seq<real>)
    ensures |r| == |buf| && forall k :: 0 <= k < |buf| ==> r[k] == if e == Top then buf[k].high else buf[k].low
  {
    seq(|buf|, k requires 0 <= k < |buf| => if e == Top then buf[k].high else buf[k].low)
  }

  /** What feeding the last of the given bars must report: the bar two back, once it has two bars on either side. */
  ghost predicate Reports(bars: seq<Bar>, r: Option<Confirmation>) {
    if |bars| < 2 * WING + 1 then r.None?
    else
      var k := |bars| - 1 - WING;
      && r.Some? && r.value.idx == k && r.value.high == bars[k].high && r.value.low == bars[k].low
      && (r.value.swingHigh <==> IsFractal(bars, Top, k)) && (r.value.swingLow <==> IsFractal(bars, Bottom, k))
  }

  ghost predicate IsBuffer(buf: seq<HighLow>, bars: seq<Bar>) {
    && |buf| == Min(2 * WING + 1, |bars|)
    && forall k :: 0 <= k < |buf| ==> buf[k] == HighLow(bars[|bars| - |buf| + k].high, bars[|bars| - |buf| + k].low)
  }

  lemma BufferLength(buf: seq<HighLow>, bars: seq<Bar>)
    requires IsBuffer(buf, bars)
    ensures |buf| == Min(2 * WING + 1, |bars|)
  {
  }

  lemma PushBuffer(buf: seq<HighLow>, bars: seq<Bar>, bar: Bar)
    requires IsBuffer(buf, bars)
    ensures IsBuffer((if |buf| < 2 * WING + 1 then buf else buf[1..]) + [HighLow(bar.high, bar.low)], bars + [bar])
  {
  }

  /** The middle of a full buffer is its extremum, once, exactly when it is a swing. */
  lemma BufferShowsSwing(buf: seq<HighLow>, bars: seq<Bar>, e: Edge)
    requires IsBuffer(buf, bars) && |buf| == 2 * WING + 1
    ensures var col, mid := Column(buf, e), Column(buf, e)[WING];
            && mid == PriceAt(bars[|bars| - 1 - WING], e)
            && (mid == Extremum(e, col) && CountOf(col, mid) == 1 <==> IsFractal(bars, e, |bars| - 1 - WING))
  {
    hide IsFractal, Extremum, CountOf;
    var k := |bars| - 1 - WING;
    CentredCount(bars, e, k);
    assert Column(buf, e) == Prices(bars[k - WING..k + WING + 1], e);
  }

  class FractalSwingDetector {
    var buf: seq<HighLow>
    var nextIdx: nat

    /** The buffer holds the last five bars fed, or all of them. */
    ghost predicate Tracks(bars: seq<Bar>)
      reads this
    {
      nextIdx == |bars| && IsBuffer(buf, bars)
    }

    constructor ()
      ensures Tracks([])
    {
      buf, nextIdx := [], 0;
    }

    method Update(high: real, low: real, ghost bars: seq<Bar>, ghost bar: Bar) returns (r: Option<Confirmation>)
      requires Tracks(bars) && bar.high == high && bar.low == low
      modifies this
      ensures Tracks(bars + [bar]) && Reports(bars + [bar], r)
    {
      hide IsFractal, Extremum, CountOf, IsBuffer;
      ghost var fed := bars + [bar];
      PushBuffer(buf, bars, bar);
      BufferLength(buf, bars);
      buf := (if |buf| < 2 * WING + 1 then buf else buf[1..]) + [HighLow(high, low)];
      BufferLength(buf, fed);
      var confirmed := nextIdx - WING;
      nextIdx := nextIdx + 1;
      if |buf| < 2 * WING + 1 {
        return None;
      }
      var highs, lows := Column(buf, Top), Column(buf, Bottom);
      var midHigh, midLow := highs[WING], lows[WING];
      BufferShowsSwing(buf, fed, Top);
      BufferShowsSwing(buf, fed, Bottom);
      r := Some(Confirmation(confirmed, midHigh, midLow,
                             midHigh == Extremum(Top, highs) && CountOf(highs, midHigh) == 1,
                             midLow == Extremum(Bottom, lows) && CountOf(lows, midLow) == 1));
    }
  }

  /** Fed bar by bar, the detector marks exactly the swings that the array loop marks. */
  method FindFractalSwingsStreaming(bars: seq<Bar>) returns (swingHigh: array<bool>, swingLow: array<bool>)
    ensures fresh(swingHigh) && fresh(swingLow) && swingHigh.Length == swingLow.Length == |bars|
    ensures forall i :: 0 <= i < |bars| ==> (swingHigh[i] <==> IsFractal(bars, Top, i))
    ensures forall i :: 0 <= i < |bars| ==> (swingLow[i] <==> IsFractal(bars, Bottom, i))
  {
    var n := |bars|;
    swingHigh, swingLow := new bool[n](_ => false), new bool[n](_ => false);
    var det := new FractalSwingDetector();
    var i := 0;
    while i < n
      invariant 0 <= i <= n && swingHigh != swingLow && fresh(det) && fresh(swingHigh) && fresh(swingLow)
      invariant det.Tracks(bars[..i])
      invariant forall k :: 0 <= k < n ==> (swingHigh[k] <==> k + WING < i && IsFractal(bars, Top, k))
      invariant forall k :: 0 <= k < n ==> (swingLow[k] <==> k + WING < i && IsFractal(bars, Bottom, k))
    {
      hide IsFractal;
      assert bars[..i] + [bars[i]] == bars[..i + 1];
      var result := det.Update(bars[i].high, bars[i].low, bars[..i], bars[i]);
      FractalSettled(bars, i);
      if result.Some? {
        swingHigh[result.value.idx] := result.value.swingHigh;
        swingLow[result.value.idx] := result.value.swingLow;
      }
      i := i + 1;
    }
    NoneAtTheEnd(bars);
  }

  /** Whether bar i - 2 is a swing is settled by bar i, and bars 0 and 1 never are. */
  lemma FractalSettled(bars: seq<Bar>, i: nat)
    requires i < |bars|
    ensures IsFractal(bars, Top, i - WING) <==> IsFractal(bars[..i + 1], Top, i - WING)
    ensures IsFractal(bars, Bottom, i - WING) <==> IsFractal(bars[..i + 1], Bottom, i - WING)
    ensures forall e: Edge, k: int :: k < WING ==> !IsFractal(bars, e, k)
  {
  }

  lemma NoneAtTheEnd(bars: seq<Bar>)
    ensures forall e: Edge, k: int :: k + WING >= |bars| ==> !IsFractal(bars, e, k)
  {
  }
}
