/** The tempo estimate shared by both clock followers: a window of the most recent
    inter-pulse durations (seconds) and the BPM derived from their mean. MIDI sends
    24 timing clocks per quarter note, so a mean interval of `m` seconds is a quarter
    note of 24·m seconds and a tempo of 60 / (24·m) = 2.5 / m beats per minute. */
module Tempo {
  import opened Messages

  /** The window keeps at most one quarter note's worth of intervals. */
  const Capacity: nat := 24

  /** Seconds per minute divided by clocks per quarter note. */
  const BpmFactor: real := 2.5

  /** The tempo an estimator reports before it has two samples. */
  const DefaultBpm: real := 120.0

  /** The last `Capacity` elements of `s` (all of `s` when it is shorter): what a FIFO
      window that evicts its oldest entry when full holds after receiving `s`. */
  function Recent(s: seq<real>): seq<real>
  {
    if |s| <= Capacity then s else s[|s| - Capacity..]
  }

  /** Sum of the samples, added left to right as Python's sum() does. */
  function Sum(w: seq<real>): real
  {
    if w == [] then 0.0 else Sum(w[..|w| - 1]) + w[|w| - 1]
  }

  function Mean(w: seq<real>): real
    requires |w| > 0
  {
    Sum(w) / |w| as real
  }

  /** BPM = 2.5 / mean(w); the mean is zero exactly when the sum is, and then Python
      raises ZeroDivisionError. */
  function Estimate(w: seq<real>): (r: Outcome<real>)
    requires |w| > 0
    ensures r.ZeroDivisionError? <==> Sum(w) == 0.0
  {
    var mean := Mean(w);
    if mean == 0.0 then ZeroDivisionError else Ok(BpmFactor / mean)
  }

  /** The estimate is the tempo whose quarter note lasts as long as the window's 24
      intervals would at their mean: BPM × mean interval = 2.5. */
  lemma EstimateTimesMean(w: seq<real>)
    requires |w| > 0
    ensures Estimate(w).Ok? ==> Estimate(w).value * Sum(w) == BpmFactor * |w| as real
  {
    var n := |w| as real;
    if Estimate(w).Ok? {
      var mean := Mean(w);
      assert mean * n == Sum(w);
      assert Estimate(w).value * mean == BpmFactor;
      assert Estimate(w).value * Sum(w) == Estimate(w).value * mean * n;
    }
  }

  lemma RecentLength(h: seq<real>)
    ensures |Recent(h)| == if |h| <= Capacity then |h| else Capacity
  {
  }

  /** Pushing one duration onto a window that already holds the recent part of a
      history gives the recent part of the extended history, and never more than
      `Capacity` samples: the window reflects exactly the last 24 intervals. */
  lemma RecentSlides(h: seq<real>, d: real)
    ensures |Recent(h + [d])| <= Capacity
    ensures |Recent(h)| < Capacity ==> Recent(h + [d]) == Recent(h) + [d]
    ensures |Recent(h)| == Capacity ==> Recent(h + [d]) == Recent(h)[1..] + [d]
  {
    if |h| >= Capacity {
      assert Recent(h)[1..] + [d] == (h + [d])[|h| + 1 - Capacity..];
    }
  }

  /** One clock pulse adds at most one duration to the history; the window that held the
      recent part of the old history, extended by that duration and trimmed of its oldest
      entry when it overflows, holds the recent part of the new history. */
  lemma WindowAfter(h: seq<real>, added: seq<real>)
    requires |added| <= 1
    ensures var w := Recent(h) + added;
      Recent(h + added) == if |w| > Capacity then w[1..] else w
    ensures Recent(Recent(h) + added) == Recent(h + added)
    ensures |Recent(h + added)| <= Capacity
    ensures |Recent(h + added)| >= 2 <==> |h + added| >= 2
  {
    if added != [] {
      RecentSlides(h, added[0]);
      assert added == [added[0]];
    } else {
      assert h + added == h;
    }
  }

  lemma {:induction false} SumConstant(w: seq<real>, d: real)
    requires forall i :: 0 <= i < |w| ==> w[i] == d
    ensures Sum(w) == |w| as real * d
  {
    if w != [] {
      SumConstant(w[..|w| - 1], d);
    }
  }

  lemma {:induction false} SumBounds(w: seq<real>, lo: real, hi: real)
    requires forall i :: 0 <= i < |w| ==> lo <= w[i] <= hi
    ensures |w| as real * lo <= Sum(w) <= |w| as real * hi
  {
    if w != [] {
      SumBounds(w[..|w| - 1], lo, hi);
    }
  }

  /** A steady clock of period `d` seconds is read as exactly 2.5 / d BPM
      (0.5 s gives 5 BPM; 1/48 s gives 120 BPM). */
  lemma SteadyClock(w: seq<real>, d: real)
    requires |w| > 0 && d != 0.0
    requires forall i :: 0 <= i < |w| ==> w[i] == d
    ensures Estimate(w) == Ok(BpmFactor / d)
  {
    SumConstant(w, d);
    var n := |w| as real;
    assert Mean(w) == n * d / n == d;
  }

  /** When every interval lies in [lo, hi] with lo > 0, no division by zero can happen
      and the estimate lies between the tempos of the slowest and the fastest interval. */
  lemma EstimateBetween(w: seq<real>, lo: real, hi: real)
    requires |w| > 0 && 0.0 < lo
    requires forall i :: 0 <= i < |w| ==> lo <= w[i] <= hi
    ensures Estimate(w).Ok?
    ensures BpmFactor / hi <= Estimate(w).value <= BpmFactor / lo
  {
    SumBounds(w, lo, hi);
    var m := Mean(w);
    QuotientBetween(Sum(w), |w| as real, lo, hi);
    DivideAntitone(m, hi);
    DivideAntitone(lo, m);
  }

  lemma QuotientBetween(s: real, n: real, lo: real, hi: real)
    requires 0.0 < n && n * lo <= s <= n * hi
    ensures lo <= s / n <= hi
  {
    var m := s / n;
    assert m * n == s;
    assert (m - lo) * n == s - n * lo;
    assert (hi - m) * n == n * hi - s;
  }

  lemma DivideAntitone(x: real, y: real)
    requires 0.0 < x <= y
    ensures BpmFactor / y <= BpmFactor / x
  {
    assert BpmFactor / y * y == BpmFactor;
    assert BpmFactor / x * x == BpmFactor;
  }
}
